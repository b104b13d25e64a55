/** The editor's half of the settings and clipping handshake with the
    processor: a knob turned by the user writes its setting and counts the
    change, and a twice-a-second timer consumes the processor's clipping
    flag.  Painting, layout, help text and colours are not part of this
    model. */
module PluginEditor {
  import opened PluginProcessor

  /** The editor holds twenty slider slots, of which the constructor sets
      up the first eight (Knob_Cnt). */
  const KnobSlots: nat := 20
  const KnobCnt: nat := 8

  /** A knob: only its current value matters here. */
  class Slider {
    var value: real

    constructor (v: real)
      ensures value == v
    {
      value := v;
    }
  }

  class Editor {
    const audioProcessor: Processor
    const sldKnob: seq<Slider>
    /** Whether the clipping label is lit. */
    var StateClip: bool

    /** Twenty distinct sliders. */
    ghost predicate Valid()
    {
      |sldKnob| == KnobSlots && forall i, j :: 0 <= i < j < |sldKnob| ==> sldKnob[i] != sldKnob[j]
    }

    /** Whether slider is one of the knobs the editor set up. */
    ghost predicate IsKnob(slider: Slider)
      requires Valid()
    {
      exists t :: 0 <= t < KnobCnt && sldKnob[t] == slider
    }

    constructor (p: Processor, knobs: seq<Slider>)
      requires |knobs| == KnobSlots && forall i, j :: 0 <= i < j < |knobs| ==> knobs[i] != knobs[j]
      ensures Valid() && audioProcessor == p && sldKnob == knobs && !StateClip
    {
      audioProcessor := p;
      sldKnob := knobs;
      StateClip := false;
    }

    /** sliderValueChanged: when slider is knob t (t < Knob_Cnt), Setting[t]
      takes the knob's value and the change counter grows by exactly one;
      no other setting moves.  A slider that is no knob changes nothing.
      Neither case can break the processor's invariants: a pending change
      releases the Low/High bookkeeping, and the tracked coefficients do
      not depend on Setting. */
    method SliderValueChanged(slider: Slider)
      requires Valid() && audioProcessor.Valid() && audioProcessor.Consistent()
      modifies audioProcessor`Setting, audioProcessor`SettingsChanged
      ensures audioProcessor.Valid() && audioProcessor.Consistent()
      ensures forall t :: 0 <= t < KnobCnt && sldKnob[t] == slider ==>
        && audioProcessor.Setting == old(audioProcessor.Setting)[t := slider.value]
        && audioProcessor.SettingsChanged == old(audioProcessor.SettingsChanged) + 1
      ensures !IsKnob(slider) ==>
        && audioProcessor.Setting == old(audioProcessor.Setting)
        && audioProcessor.SettingsChanged == old(audioProcessor.SettingsChanged)
    {
      var t := 0;
      while t < KnobCnt
        invariant 0 <= t <= KnobCnt
        invariant forall i :: 0 <= i < t ==> sldKnob[i] != slider
        invariant audioProcessor.Setting == old(audioProcessor.Setting)
        invariant audioProcessor.SettingsChanged == old(audioProcessor.SettingsChanged)
      {
        if slider == sldKnob[t] {
          audioProcessor.Setting := audioProcessor.Setting[t := sldKnob[t].value];
          audioProcessor.SettingsChanged := audioProcessor.SettingsChanged + 1;
          return;
        }
        t := t + 1;
      }
    }

    /** timerCallback: a raised clipping flag lights the label and is
      cleared; otherwise the label goes dark.  Either way the flag ends
      cleared, the label shows whether it was raised, and the processor's
      invariants still hold (they do not mention the flag). */
    method TimerCallback()
      requires audioProcessor.Valid() && audioProcessor.Consistent()
      modifies this`StateClip, audioProcessor`AudioIsClipping
      ensures audioProcessor.Valid() && audioProcessor.Consistent()
      ensures StateClip == old(audioProcessor.AudioIsClipping)
      ensures !audioProcessor.AudioIsClipping
    {
      if audioProcessor.AudioIsClipping {
        audioProcessor.AudioIsClipping := false;
        StateClip := true;
      } else {
        StateClip := false;
      }
    }
  }
}
