/** The meme page of script.js as a state machine: the controls' state that
    its event handlers change, one method per handler. Canvas drawing and
    speech output are not modelled; the image-load handler returns the
    rectangle it would draw and the Read handler the utterance it would
    speak. */
module MemePage {
  import opened Options
  import opened Geometry
  import opened Volume
  import opened Voices

  /** What the Read handler hands to speech synthesis. */
  datatype Utterance = Utterance(text: string, voice: Option<Voice>, volume: real)

  class Page {
    // `disabled` of the Clear, Read and Generate (submit) buttons
    var clearDisabled: bool
    var readDisabled: bool
    var submitDisabled: bool
    // the two caption inputs
    var topText: string
    var bottomText: string
    // true until the first Read click has filled the voice menu
    var speaking: bool
    // the voice `select`: whether it is disabled, its options, and the index
    // of its selected option (-1 while it has none)
    var selectDisabled: bool
    var options: seq<VoiceOption>
    var selectedIndex: int
    // the range control's value, the page's copy of it, and the icon level
    var sliderValue: int
    var voiceVolume: int
    var iconLevel: nat

    /** A single-choice `select` has a selected option exactly when it has options. */
    ghost predicate Valid()
      reads this
    {
      -1 <= selectedIndex < |options| && (selectedIndex == -1 <==> options == [])
    }

    /** Clear and Read are enabled together, and exactly when Generate is not. */
    predicate ButtonsConsistent()
      reads this
    {
      clearDisabled == readDisabled && readDisabled == !submitDisabled
    }

    /** The page as loaded: controls as the markup sets them, `speaking`
        true and the volume copy taken from the slider. */
    constructor (clear: bool, read: bool, submit: bool, initialOptions: seq<VoiceOption>,
                 slider: int, icon: nat)
      ensures Valid()
      ensures clearDisabled == clear && readDisabled == read && submitDisabled == submit
      ensures topText == "" && bottomText == ""
      ensures speaking && selectDisabled && options == initialOptions
      ensures selectedIndex == if initialOptions == [] then -1 else 0
      ensures sliderValue == slider && voiceVolume == slider && iconLevel == icon
    {
      clearDisabled, readDisabled, submitDisabled := clear, read, submit;
      topText, bottomText := "", "";
      speaking := true;
      selectDisabled := true;
      options := initialOptions;
      selectedIndex := if initialOptions == [] then -1 else 0;
      sliderValue, voiceVolume, iconLevel := slider, slider, icon;
    }

    /** The user types the captions (browser input, not a handler). */
    method EnterCaptions(top: string, bottom: string)
      modifies this`topText, this`bottomText
      ensures topText == top && bottomText == bottom
    {
      topText, bottomText := top, bottom;
    }

    /** The user picks a voice in the menu (browser input, not a handler). */
    method Choose(i: int)
      requires Valid() && !selectDisabled && 0 <= i < |options|
      modifies this`selectedIndex
      ensures Valid() && selectedIndex == i
    {
      selectedIndex := i;
    }

    /** A new image has loaded: Clear and Read are disabled, Generate is
        enabled, and the image is drawn in the aspect-fit rectangle. The
        captions are left as they are. */
    method OnImageLoad(canvasWidth: real, canvasHeight: real, imageWidth: real, imageHeight: real)
      returns (drawn: Rect)
      requires canvasWidth > 0.0 && canvasHeight > 0.0 && imageWidth > 0.0 && imageHeight > 0.0
      modifies this`clearDisabled, this`readDisabled, this`submitDisabled
      ensures clearDisabled && readDisabled && !submitDisabled
      ensures ButtonsConsistent()
      ensures drawn == GetDimensions(canvasWidth, canvasHeight, imageWidth, imageHeight)
    {
      clearDisabled := true;
      readDisabled := true;
      submitDisabled := false;
      drawn := GetDimensions(canvasWidth, canvasHeight, imageWidth, imageHeight);
    }

    /** Generate: the captions are drawn (not modelled); Clear and Read are
        enabled and Generate is disabled. */
    method OnSubmit()
      modifies this`clearDisabled, this`readDisabled, this`submitDisabled
      ensures !clearDisabled && !readDisabled && submitDisabled
      ensures ButtonsConsistent()
    {
      clearDisabled := false;
      readDisabled := false;
      submitDisabled := true;
    }

    /** Clear: both captions are emptied, Clear and Read are disabled and
        Generate is enabled. */
    method OnClear()
      modifies this`topText, this`bottomText, this`clearDisabled, this`readDisabled, this`submitDisabled
      ensures topText == "" && bottomText == ""
      ensures clearDisabled && readDisabled && !submitDisabled
      ensures ButtonsConsistent()
    {
      topText := "";
      bottomText := "";
      readDisabled := true;
      clearDisabled := true;
      submitDisabled := false;
    }

    /** Read: the voice menu is enabled and, on the first click only, filled
        with one option per voice; the utterance is the two captions joined
        with the last voice named by the selected option and the slider's
        volume. With no option to select, the handler stops before speaking
        (the selected-option lookup fails) and no utterance results. */
    method OnReadClick(voices: seq<Voice>) returns (talk: Option<Utterance>)
      requires Valid()
      modifies this`selectDisabled, this`options, this`selectedIndex, this`speaking
      ensures Valid()
      ensures !selectDisabled && !speaking
      ensures !old(speaking) ==> options == old(options) && selectedIndex == old(selectedIndex)
      ensures old(speaking) ==>
        |old(options)| <= |options| && options[..|old(options)|] == old(options)
        && Lists(options[|old(options)|..], voices)
      ensures selectedIndex == if old(selectedIndex) == -1 && options != [] then 0 else old(selectedIndex)
      ensures talk.Some? <==> options != []
      ensures talk.Some? ==>
        talk.value == Utterance(topText + bottomText,
                                LastMatching(voices, options[selectedIndex].dataName),
                                sliderValue as real / 100.0)
    {
      selectDisabled := false;
      if speaking {
        var added := BuildOptions(voices);
        options := options + added;
        if selectedIndex == -1 && added != [] {
          selectedIndex := 0;
        }
      }
      speaking := false;
      var text := topText + bottomText;
      if selectedIndex == -1 {
        talk := None;
      } else {
        var selection := options[selectedIndex].dataName;
        var voice := SelectVoice(voices, selection);
        talk := Some(Utterance(text, voice, sliderValue as real / 100.0));
      }
    }

    /** The slider moved: the page's copy of the volume follows it and the
        icon shows the value's level, or stays as it was for a value outside
        0..100. */
    method OnVolumeInput(value: int)
      modifies this`sliderValue, this`voiceVolume, this`iconLevel
      ensures sliderValue == value && voiceVolume == value
      ensures iconLevel == IconAfter(old(iconLevel), value)
    {
      sliderValue := value;
      voiceVolume := value;
      var level := VolumeLevel(value);
      if level.Some? {
        iconLevel := level.value;
      }
    }
  }

  /** Two Read clicks: the menu is filled by the first and left alone by the
      second, so each voice is listed once. */
  method ReadTwice(p: Page, first: seq<Voice>, second: seq<Voice>)
    returns (talk1: Option<Utterance>, talk2: Option<Utterance>)
    requires p.Valid() && p.speaking
    modifies p
    ensures |old(p.options)| <= |p.options| && p.options[..|old(p.options)|] == old(p.options)
    ensures Lists(p.options[|old(p.options)|..], first)
    ensures talk2.Some? ==> talk2.value.text == old(p.topText) + old(p.bottomText)
  {
    talk1 := p.OnReadClick(first);
    talk2 := p.OnReadClick(second);
  }
}
