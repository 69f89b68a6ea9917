/** The volume slider's icon (script.js, the `input` handler of the range
    control): the slider value picks one of four icon levels, and a value
    outside 0..100 picks none, leaving the icon as it was. */
module Volume {
  import opened Options

  /** The slider values at which the icon moves up one level. */
  const Thresholds: seq<int> := [1, 34, 67]

  /** The icon level for a slider value, if the value selects one. */
  function VolumeLevel(volume: int): (r: Option<nat>)
    ensures r.Some? <==> 0 <= volume <= 100
    ensures r.Some? ==> r.value <= 3
    ensures r == Some(0) <==> volume == 0
    ensures r == Some(3) <==> 67 <= volume <= 100
  {
    if volume == 0 then Some(0)
    else if 1 <= volume <= 33 then Some(1)
    else if 34 <= volume <= 66 then Some(2)
    else if 67 <= volume <= 100 then Some(3)
    else None
  }

  /** How many of `ts` the value has reached. */
  function Reached(ts: seq<int>, volume: int): (n: nat)
    ensures n <= |ts|
  {
    if ts == [] then 0
    else (if ts[0] <= volume then 1 else 0) + Reached(ts[1..], volume)
  }

  /** Reaching a threshold is kept by any larger value. */
  lemma {:induction false} ReachedMonotone(ts: seq<int>, a: int, b: int)
    requires a <= b
    ensures Reached(ts, a) <= Reached(ts, b)
  {
    if ts != [] {
      ReachedMonotone(ts[1..], a, b);
    }
  }

  /** Within the slider's range the level is the number of thresholds the
      value has reached. */
  lemma LevelCountsThresholds(volume: int)
    requires 0 <= volume <= 100
    ensures VolumeLevel(volume) == Some(Reached(Thresholds, volume))
  {
    var ts := Thresholds;
    assert ts[1..] == [34, 67] && ts[1..][1..] == [67] && ts[1..][1..][1..] == [];
    assert Reached(ts[1..][1..], volume) == (if 67 <= volume then 1 else 0) + Reached(ts[1..][1..][1..], volume);
    assert Reached(ts[1..], volume) == (if 34 <= volume then 1 else 0) + Reached(ts[1..][1..], volume);
    assert Reached(ts, volume) == (if 1 <= volume then 1 else 0) + Reached(ts[1..], volume);
  }

  /** A louder setting never shows a quieter icon. */
  lemma LevelMonotone(a: int, b: int)
    requires 0 <= a <= b <= 100
    ensures VolumeLevel(a).value <= VolumeLevel(b).value
  {
    LevelCountsThresholds(a);
    LevelCountsThresholds(b);
    ReachedMonotone(Thresholds, a, b);
  }

  /** The icon level shown after the slider reports `volume`. */
  function IconAfter(icon: nat, volume: int): (r: nat)
    ensures 0 <= volume <= 100 ==> r <= 3 && Some(r) == VolumeLevel(volume)
    ensures !(0 <= volume <= 100) ==> r == icon
  {
    VolumeLevel(volume).GetOr(icon)
  }
}
