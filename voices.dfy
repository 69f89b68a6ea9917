/** The voice menu of the Read handler in script.js: one `option` per
    speech-synthesis voice, and the voice chosen for the utterance by the
    `data-name` of the selected option. */
module Voices {
  import opened Options

  /** A speech-synthesis voice as the page uses it. */
  datatype Voice = Voice(name: string, lang: string, isDefault: bool)

  /** An `option` element of the voice `select`: its text and its
      `data-lang` / `data-name` attributes (absent on the page's own
      placeholder option). */
  datatype VoiceOption = VoiceOption(text: string, dataLang: Option<string>, dataName: Option<string>)

  const DefaultMark: string := " -- Default"

  predicate EndsWith(s: string, suffix: string) {
    |suffix| <= |s| && s[|s| - |suffix|..] == suffix
  }

  /** The option listed for a voice: "name (lang)", marked when it is the
      default voice, carrying the voice's language and name. */
  function OptionFor(v: Voice): (o: VoiceOption)
    ensures o.dataName == Some(v.name) && o.dataLang == Some(v.lang)
    ensures v.name + " (" + v.lang + ")" <= o.text
    ensures |o.text| == |v.name| + |v.lang| + 3 + (if v.isDefault then |DefaultMark| else 0)
  {
    var text := v.name + " (" + v.lang + ")";
    VoiceOption(if v.isDefault then text + DefaultMark else text, Some(v.lang), Some(v.name))
  }

  /** Only the default voice's option carries the default mark. */
  lemma DefaultMarked(v: Voice)
    ensures EndsWith(OptionFor(v).text, DefaultMark) <==> v.isDefault
  {
    var o := OptionFor(v);
    var shown := v.name + " (" + v.lang + ")";
    if v.isDefault {
      assert o.text == shown + DefaultMark;
      assert o.text[|o.text| - |DefaultMark|..] == DefaultMark;
    } else {
      assert o.text == shown;
      assert o.text[|o.text| - 1] == ')';
    }
  }

  /** `opts` lists `voices`, one option each, in order. */
  predicate Lists(opts: seq<VoiceOption>, voices: seq<Voice>) {
    |opts| == |voices| && forall i :: 0 <= i < |voices| ==> opts[i] == OptionFor(voices[i])
  }

  /** The options the Read handler appends, built by its loop over the voices. */
  method BuildOptions(voices: seq<Voice>) returns (opts: seq<VoiceOption>)
    ensures Lists(opts, voices)
  {
    opts := [];
    var i := 0;
    while i < |voices|
      invariant 0 <= i <= |voices|
      invariant Lists(opts, voices[..i])
    {
      opts := opts + [OptionFor(voices[i])];
      i := i + 1;
    }
    assert voices[..i] == voices;
  }

  predicate Matches(v: Voice, selection: Option<string>) {
    selection == Some(v.name)
  }

  /** The last voice whose name is the selection, if any. */
  function LastMatching(voices: seq<Voice>, selection: Option<string>): (r: Option<Voice>) {
    if voices == [] then None
    else if Matches(voices[|voices| - 1], selection) then Some(voices[|voices| - 1])
    else LastMatching(voices[..|voices| - 1], selection)
  }

  /** What LastMatching means: no voice when none matches, otherwise a
      matching voice after which no other voice matches. */
  lemma {:induction false} LastMatchingSpec(voices: seq<Voice>, selection: Option<string>)
    ensures LastMatching(voices, selection).None?
        <==> forall i :: 0 <= i < |voices| ==> !Matches(voices[i], selection)
    ensures LastMatching(voices, selection).Some? ==>
        exists i :: 0 <= i < |voices| && voices[i] == LastMatching(voices, selection).value
          && Matches(voices[i], selection)
          && forall j :: i < j < |voices| ==> !Matches(voices[j], selection)
  {
    if voices != [] {
      var n := |voices| - 1;
      var front := voices[..n];
      if Matches(voices[n], selection) {
        assert voices[n] == LastMatching(voices, selection).value;
      } else {
        LastMatchingSpec(front, selection);
        assert forall i :: 0 <= i < n ==> voices[i] == front[i];
        if LastMatching(front, selection).Some? {
          var i :| 0 <= i < n && front[i] == LastMatching(front, selection).value
            && Matches(front[i], selection)
            && forall j :: i < j < n ==> !Matches(front[j], selection);
          assert voices[i] == LastMatching(voices, selection).value;
        }
      }
    }
  }

  /** The handler's selection loop: every matching voice overwrites the
      previous choice, so the last one wins. */
  method SelectVoice(voices: seq<Voice>, selection: Option<string>) returns (voice: Option<Voice>)
    ensures voice == LastMatching(voices, selection)
  {
    voice := None;
    var i := 0;
    while i < |voices|
      invariant 0 <= i <= |voices|
      invariant voice == LastMatching(voices[..i], selection)
    {
      assert voices[..i + 1][..i] == voices[..i];
      if selection == Some(voices[i].name) {
        voice := Some(voices[i]);
      }
      i := i + 1;
    }
    assert voices[..i] == voices;
  }
}
