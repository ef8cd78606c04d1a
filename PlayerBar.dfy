/** The player bar: what it shows for the controller's flags, and its own
    copy of the volume, which the slider updates and the mute button only
    reads. */
module PlayerBar {
  import opened Types

  // ---------------------------------------------------------------------
  // Slider values
  // ---------------------------------------------------------------------

  /** A position of the range input: min 0, max 1, step 0.01, counted in
      hundredths. */
  type SliderStep = k: nat | k <= 100

  function SliderValue(k: SliderStep): (v: real)
    ensures 0.0 <= v <= 1.0
  {
    k as real / 100.0
  }

  /** A value the slider can produce. */
  ghost predicate IsSliderValue(v: real) {
    exists k: SliderStep :: v == SliderValue(k)
  }

  /** The value the mute button sends: 0.5 when the bar's own volume is 0,
      otherwise 0. Both are slider values. */
  function MuteTarget(localVolume: real): (v: real)
    ensures v == 0.5 <==> localVolume == 0.0
    ensures v == 0.0 <==> localVolume != 0.0
    ensures IsSliderValue(v)
  {
    if localVolume == 0.0 then
      assert SliderValue(50) == 0.5;
      0.5
    else
      assert SliderValue(0) == 0.0;
      0.0
  }

  // ---------------------------------------------------------------------
  // What the bar renders
  // ---------------------------------------------------------------------

  datatype PlayIcon = PlayGlyph | PauseGlyph
  datatype VolumeIcon = MutedGlyph | SpeakerGlyph

  /** The decisions of one render: the status line, whether the play
      button is disabled, its icon, and the volume icon. */
  datatype View = View(status: string, playDisabled: bool, playIcon: PlayIcon, volumeIcon: VolumeIcon)

  const ConnectingText: string := "Connecting..."
  const LiveText: string := "Live Stream"

  /** Nothing is rendered without a station. */
  function Render(station: Option<Station>, isPlaying: bool, isLoading: bool, localVolume: real): (r: Option<View>)
    ensures r.None? <==> station.None?
    ensures r.Some? ==> (r.value.status == ConnectingText <==> isLoading)
    ensures r.Some? ==> (r.value.status == LiveText <==> !isLoading)
    ensures r.Some? ==> (r.value.playDisabled <==> isLoading)
    ensures r.Some? ==> (r.value.playIcon == PauseGlyph <==> isPlaying && !isLoading)
    ensures r.Some? ==> (r.value.volumeIcon == MutedGlyph <==> localVolume == 0.0)
    ensures r.Some? && r.value.playIcon == PauseGlyph ==> !r.value.playDisabled
  {
    if station.None? then None
    else
      Some(View(
        if isLoading then ConnectingText else LiveText,
        isLoading,
        if isPlaying && !isLoading then PauseGlyph else PlayGlyph,
        if localVolume == 0.0 then MutedGlyph else SpeakerGlyph))
  }

  // ---------------------------------------------------------------------
  // The bar's volume state
  // ---------------------------------------------------------------------

  /** A user action on the volume controls. */
  datatype VolumeInput = Slide(step: SliderStep) | MutePress

  /** One action: the bar's volume afterwards and the value it sends to
      the volume callback. */
  function BarStep(localVolume: real, input: VolumeInput): (real, real) {
    match input
    case Slide(k) => (SliderValue(k), SliderValue(k))
    case MutePress => (localVolume, MuteTarget(localVolume))
  }

  /** The bar's volume after a sequence of actions. */
  function FinalVolume(localVolume: real, inputs: seq<VolumeInput>): real
    decreases |inputs|
  {
    if inputs == [] then localVolume
    else FinalVolume(BarStep(localVolume, inputs[0]).0, inputs[1..])
  }

  /** The values sent to the volume callback, one per action. */
  function Sent(localVolume: real, inputs: seq<VolumeInput>): (out: seq<real>)
    ensures |out| == |inputs|
    decreases |inputs|
  {
    if inputs == [] then []
    else
      var (next, value) := BarStep(localVolume, inputs[0]);
      [value] + Sent(next, inputs[1..])
  }

  /** Presses of the mute button without slider movement send the same
      value every time and leave the bar's volume where it was. */
  lemma {:induction false} MutePressesRepeat(localVolume: real, n: nat)
    ensures Sent(localVolume, seq(n, _ => MutePress)) == seq(n, _ => MuteTarget(localVolume))
    ensures FinalVolume(localVolume, seq(n, _ => MutePress)) == localVolume
  {
    if n > 0 {
      MutePressesRepeat(localVolume, n - 1);
      assert seq(n, _ => MutePress)[1..] == seq(n - 1, _ => MutePress);
      assert seq(n, _ => MuteTarget(localVolume)) == [MuteTarget(localVolume)] + seq(n - 1, _ => MuteTarget(localVolume));
    }
  }

  /** Whatever the initial volume, every value the bar sends is a slider
      value, and so lies in [0, 1]. */
  lemma {:induction false} SentAreSliderValues(localVolume: real, inputs: seq<VolumeInput>)
    ensures forall i :: 0 <= i < |inputs| ==> IsSliderValue(Sent(localVolume, inputs)[i])
    decreases |inputs|
  {
    if inputs != [] {
      var (next, value) := BarStep(localVolume, inputs[0]);
      SentAreSliderValues(next, inputs[1..]);
      var out := Sent(localVolume, inputs);
      assert out == [value] + Sent(next, inputs[1..]);
      forall i | 0 <= i < |inputs|
        ensures IsSliderValue(out[i])
      {
        if i == 0 {
          match inputs[0]
          case Slide(k) => assert out[0] == SliderValue(k);
          case MutePress => assert out[0] == MuteTarget(localVolume);
        } else {
          assert out[i] == Sent(next, inputs[1..])[i - 1];
        }
      }
    }
  }

  /** Reference definition of the bar's volume: the value of the last
      slide, or the initial volume when the slider never moved. */
  function LastSlide(localVolume: real, inputs: seq<VolumeInput>): real
    decreases |inputs|
  {
    if inputs == [] then localVolume
    else if inputs[|inputs| - 1].Slide? then SliderValue(inputs[|inputs| - 1].step)
    else LastSlide(localVolume, inputs[..|inputs| - 1])
  }

  lemma {:induction false} FinalVolumeSnoc(localVolume: real, inputs: seq<VolumeInput>, input: VolumeInput)
    ensures FinalVolume(localVolume, inputs + [input]) == BarStep(FinalVolume(localVolume, inputs), input).0
    decreases |inputs|
  {
    if inputs != [] {
      FinalVolumeSnoc(BarStep(localVolume, inputs[0]).0, inputs[1..], input);
      assert (inputs + [input])[1..] == inputs[1..] + [input];
    }
  }

  /** The mute button never changes the bar's volume: after any actions it
      is the last slider value, or the initial one when the slider never
      moved. */
  lemma {:induction false} FinalVolumeIsLastSlide(localVolume: real, inputs: seq<VolumeInput>)
    ensures FinalVolume(localVolume, inputs) == LastSlide(localVolume, inputs)
    ensures (forall i :: 0 <= i < |inputs| ==> inputs[i].MutePress?) ==>
              FinalVolume(localVolume, inputs) == localVolume
    decreases |inputs|
  {
    if inputs != [] {
      var init := inputs[..|inputs| - 1];
      var last := inputs[|inputs| - 1];
      FinalVolumeIsLastSlide(localVolume, init);
      assert inputs == init + [last];
      FinalVolumeSnoc(localVolume, init, last);
      if forall i :: 0 <= i < |inputs| ==> inputs[i].MutePress? {
        assert forall i :: 0 <= i < |init| ==> init[i] == inputs[i];
      }
    }
  }

  /** The bar component. `localVolume` is initialised once from the volume
      property; later changes of the property do not reach it. */
  class PlayerBarState {
    var localVolume: real

    constructor (volume: real)
      ensures localVolume == volume
    {
      localVolume := volume;
    }

    /** The slider's change handler: store the value, then send it. */
    method HandleVolChange(step: SliderStep) returns (sent: real)
      modifies this
      ensures localVolume == SliderValue(step) && sent == localVolume
      ensures (localVolume, sent) == BarStep(old(localVolume), Slide(step))
    {
      var value := SliderValue(step);
      localVolume := value;
      sent := value;
    }

    /** The mute button: sends a value computed from `localVolume` and
      changes nothing. */
    method MuteClick() returns (sent: real)
      ensures sent == 0.5 <==> localVolume == 0.0
      ensures sent == 0.0 <==> localVolume != 0.0
      ensures (localVolume, sent) == BarStep(localVolume, MutePress)
    {
      sent := if localVolume == 0.0 then 0.5 else 0.0;
    }
  }
}
