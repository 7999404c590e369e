/** The two-mode GUI demo, `FushimiInAiryGUI`: the delay window of
    `ToriDelayPlugin` plus a mode switch. In delay mode the gates are echoes
    rendered exactly as `apply_dsp` renders them; in reverb mode a gate's x
    position is a decay time of up to 10 s, its y position a volume, and the
    audible gates drive the multi-instance reverb. */
module PluginDemo {
  import opened Numerics
  import opened Signal
  import opened Gates
  import opened ReverbEngine
  import opened DelayV1

  /** The clickable mode switch. */
  const ModeSwitchLeft: real := 800.0 * ScaleFactor
  const ModeSwitchRight: real := 1100.0 * ScaleFactor
  const ModeSwitchTop: real := 2300.0 * ScaleFactor
  const ModeSwitchBottom: real := 2550.0 * ScaleFactor

  /** The reverb mode's mapping constants. */
  const MaxDemoDecayMs: real := 10000.0
  const SilentGainDb: real := -60.0
  const ActiveGainDb: real := -50.0

  // ---------------------------------------------------------------------------
  // Modes

  /** The mode after `toggle_mode`: 'delay' becomes 'reverb', anything else
      becomes 'delay'. */
  function Toggled(mode: string): (m: string)
    ensures m == "delay" || m == "reverb"
    ensures (mode == "delay" || mode == "reverb") ==> m != mode
  {
    if mode == "delay" then "reverb" else "delay"
  }

  /** Toggling twice restores either mode. */
  lemma {:induction false} ToggleTwice(mode: string)
    requires mode == "delay" || mode == "reverb"
    ensures Toggled(Toggled(mode)) == mode
  {
  }

  /** Whether a click lies on the mode switch, edges included. */
  predicate InModeSwitch(x: real, y: real)
  {
    ModeSwitchLeft <= x <= ModeSwitchRight && ModeSwitchTop <= y <= ModeSwitchBottom
  }

  // ---------------------------------------------------------------------------
  // Reverb-mode mapping

  /** `(1.0 - ((y - TOP) / range_y)) * 100.0`: 100 % at the top of the box,
      0 % at the bottom. */
  function VolumeAt(y: real): (v: real)
    ensures Top <= y <= Bottom ==> 0.0 <= v <= 100.0
    ensures y == Top ==> v == 100.0
    ensures y == Bottom ==> v == 0.0
  {
    var rangeY := Bottom - Top;
    assert Top <= y <= Bottom ==> 0.0 <= (y - Top) / rangeY <= 1.0 by {
      if Top <= y <= Bottom {
        DivMonotone(y - Top, rangeY, rangeY);
      }
    }
    (1.0 - ((y - Top) / rangeY)) * 100.0
  }

  /** A reverb gate from a canvas position. The decay spans 0 to 10 s across
      the box; the volume becomes `20*log10(volume/100)` dB when above 0.1 %
      and -60 dB otherwise, with no clip. */
  function DemoReverbGate(p: Point, log10: real -> real): (g: Gate)
    ensures g.ReverbGate?
    ensures Left <= p.x <= Right ==> 0.0 <= g.decayMs <= MaxDemoDecayMs
    ensures p.x == Left ==> g.decayMs == 0.0
    ensures VolumeAt(p.y) <= 0.1 ==> g.gainDb == SilentGainDb
  {
    var gateWidth := Right - Left;
    var xNorm := (p.x - Left) / gateWidth;
    assert Left <= p.x <= Right ==> 0.0 <= xNorm <= 1.0 by {
      if Left <= p.x <= Right {
        DivMonotone(p.x - Left, gateWidth, gateWidth);
      }
    }
    var volumePercent := VolumeAt(p.y);
    var gainDb := if volumePercent > 0.1 then 20.0 * log10(volumePercent / 100.0) else SilentGainDb;
    ReverbGate(xNorm * MaxDemoDecayMs, gainDb)
  }

  /** The reverb gates for the gates on the canvas, in gate order. */
  function ReverbGatesOf(points: seq<Point>, log10: real -> real): (gates: seq<Gate>)
    ensures |gates| == |points|
  {
    seq(|points|, i requires 0 <= i < |points| => DemoReverbGate(points[i], log10))
  }

  /** Gates inside the box give reverb gates the engine accepts. */
  lemma {:induction false} BoxedGatesGiveReverbGates(points: seq<Point>, log10: real -> real)
    requires forall i :: 0 <= i < |points| ==> InGateBox(points[i])
    ensures ReverbGates(ReverbGatesOf(points, log10))
  {
    var gates := ReverbGatesOf(points, log10);
    forall g | g in gates
      ensures g.ReverbGate? && g.decayMs >= 0.0
    {
      var i :| 0 <= i < |gates| && gates[i] == g;
      assert g == DemoReverbGate(points[i], log10);
    }
  }

  /** `[g for g in reverb_gates if g['gain_db'] > -50]`. */
  function Active(gates: seq<Gate>): (a: seq<Gate>)
    ensures |a| <= |gates|
    ensures forall g | g in a :: g in gates && g.gainDb > ActiveGainDb
    ensures forall g | g in gates && g.gainDb > ActiveGainDb :: g in a
    decreases |gates|
  {
    if gates == [] then []
    else
      var front := gates[..|gates| - 1];
      var g := gates[|gates| - 1];
      assert gates == front + [g];
      if g.gainDb > ActiveGainDb then Active(front) + [g] else Active(front)
  }

  /** The filter keeps the gates' order: filtering a concatenation
      concatenates the filtered parts. */
  lemma {:induction false} ActiveAppend(a: seq<Gate>, b: seq<Gate>)
    ensures Active(a + b) == Active(a) + Active(b)
    decreases |b|
  {
    if b == [] {
      assert a + b == a;
    } else {
      var front := b[..|b| - 1];
      assert (a + b)[..|a + b| - 1] == a + front;
      assert (a + b)[|a + b| - 1] == b[|b| - 1];
      ActiveAppend(a, front);
    }
  }

  /** At start-up every gate sits on the bottom edge, so none is audible and
      reverb mode passes the input through. */
  lemma {:induction false} InitialGatesInactive(log10: real -> real)
    ensures Active(ReverbGatesOf(InitialGates(), log10)) == []
  {
    var gates := ReverbGatesOf(InitialGates(), log10);
    forall g | g in gates
      ensures g.gainDb <= ActiveGainDb
    {
      var i :| 0 <= i < |gates| && gates[i] == g;
      assert g == DemoReverbGate(InitialGates()[i], log10);
    }
    NoneActive(gates);
  }

  /** Gates that are all at or below -50 dB leave nothing after the filter. */
  lemma {:induction false} NoneActive(gates: seq<Gate>)
    requires forall g | g in gates :: g.gainDb <= ActiveGainDb
    ensures Active(gates) == []
    decreases |gates|
  {
    if gates != [] {
      var front := gates[..|gates| - 1];
      assert forall g | g in front :: g in gates;
      assert gates[|gates| - 1] in gates;
      NoneActive(front);
    }
  }

  // ---------------------------------------------------------------------------
  // Reverb-mode rendering

  /** `output = zeros_like(rev); output[:len(x)] += x*dry; output += rev*wet`. */
  function DemoReverbMix(x: seq<real>, dry: real, wet: real, rev: seq<real>): (y: seq<real>)
    requires |x| <= |rev|
    ensures |y| == |rev|
  {
    seq(|rev|, n requires 0 <= n < |rev| => DryAt(x, dry, n) + rev[n] * wet)
  }

  /** `apply_reverb` on the gates: with no audible gate, the input itself
      (the dry level is not applied); otherwise the audible gates' reverb
      with its own dry level at 0, mixed with the input at `dry` and the
      reverb at `wet`, then divided by the peak when the peak exceeds 1. */
  function DemoReverb(x: seq<real>, fs: nat, gates: seq<Gate>, dry: real, wet: real,
                      tailFactor: real, pow10: real -> real): (r: Result<seq<real>>)
    requires ReverbGates(gates) && tailFactor >= 0.0
    ensures Active(gates) == [] ==> r == Ok(x)
    ensures Active(gates) != [] && r.Ok? ==>
              |r.value| == |x| + ReverbTail(fs, Active(gates), tailFactor)
              && |r.value| > 0 && Peak(r.value) <= 1.0
  {
    var active := Active(gates);
    if active == [] then Ok(x)
    else
      match MultiInstanceReverb(x, fs, active, 0.0, tailFactor, pow10)
      case Err(e) => Err(e)
      case Ok(rev) => Ok(Normalized(DemoReverbMix(x, dry, wet, rev)))
  }

  /** When reverb mode fails: some audible gate cannot derive its feedback
      gain (ZeroDivisionError), or the buffer is empty. */
  lemma {:induction false} DemoReverbOutcome(x: seq<real>, fs: nat, gates: seq<Gate>, dry: real, wet: real,
                          tailFactor: real, pow10: real -> real)
    requires ReverbGates(gates) && tailFactor >= 0.0 && Active(gates) != []
    ensures var r := DemoReverb(x, fs, gates, dry, wet, tailFactor, pow10);
            var a := Active(gates);
            (r.Err? <==> !AllDerivable(fs, a) || |x| + ReverbTail(fs, a, tailFactor) == 0)
            && (!AllDerivable(fs, a) ==> r == Err(ZeroDivision))
  {
  }

  /** A gate dragged to the left edge has a decay of 0, so once it is
      audible, reverb mode raises ZeroDivisionError in the feedback-gain
      derivation. */
  lemma {:induction false} LeftEdgeGateFails(x: seq<real>, fs: nat, points: seq<Point>, i: nat,
                                             dry: real, wet: real, tailFactor: real,
                                             pow10: real -> real, log10: real -> real)
    requires forall k :: 0 <= k < |points| ==> InGateBox(points[k])
    requires i < |points| && points[i].x == Left && tailFactor >= 0.0
    requires DemoReverbGate(points[i], log10).gainDb > ActiveGainDb
    ensures ReverbGates(ReverbGatesOf(points, log10))
    ensures DemoReverb(x, fs, ReverbGatesOf(points, log10), dry, wet, tailFactor, pow10) == Err(ZeroDivision)
  {
    BoxedGatesGiveReverbGates(points, log10);
    var gates := ReverbGatesOf(points, log10);
    var g := gates[i];
    assert g == DemoReverbGate(points[i], log10);
    var a := Active(gates);
    assert g in a;
    var j :| 0 <= j < |a| && a[j] == g;
    assert DecayDenominator(fs, a[j].decayMs) == 0.0;
    DemoReverbOutcome(x, fs, gates, dry, wet, tailFactor, pow10);
  }

  // ---------------------------------------------------------------------------
  // The demo window

  class FushimiInAiryGui {
    const bpm: real
    const fs: nat
    const audio: seq<real>
    const tailFactor: real
    var currentMode: string
    var gates: seq<Point>
    var dryKnobY: real
    var wetKnobY: real

    ghost predicate Valid()
      reads this
    {
      0.0 < bpm && fs == SampleRate && tailFactor == 0.0 && |gates| == GateCount
      && (currentMode == "delay" || currentMode == "reverb")
      && (forall i :: 0 <= i < |gates| ==> InGateBox(gates[i]))
      && KnobTop <= dryKnobY <= KnobBottom && KnobTop <= wetKnobY <= KnobBottom
    }

    /** The window at start-up: delay mode, a reverb tail factor of 0, five
        silent gates along the bottom edge and both knobs at full level. The
        audio file's samples are passed in. */
    constructor (bpm: real, audio: seq<real>)
      requires 0.0 < bpm
      ensures Valid()
      ensures this.bpm == bpm && this.audio == audio && currentMode == "delay"
      ensures gates == InitialGates() && dryKnobY == KnobTop && wetKnobY == KnobTop
    {
      this.bpm := bpm;
      fs := SampleRate;
      this.audio := audio;
      tailFactor := 0.0;
      currentMode := "delay";
      var placed: seq<Point> := [];
      for i := 1 to GateCount + 1
        invariant |placed| == i - 1
        invariant forall k :: 0 <= k < i - 1 ==> placed[k] == InitialGates()[k]
      {
        placed := placed + [Point(Left + 150.0 * i as real * ScaleFactor, Bottom)];
      }
      gates := placed;
      dryKnobY := KnobTop;
      wetKnobY := KnobTop;
    }

    /** `check_mode_switch`: a click on the switch toggles the mode; any
        other click changes nothing. */
    method CheckModeSwitch(ex: real, ey: real)
      requires Valid()
      modifies this
      ensures Valid()
      ensures currentMode == if InModeSwitch(ex, ey) then Toggled(old(currentMode)) else old(currentMode)
      ensures gates == old(gates) && dryKnobY == old(dryKnobY) && wetKnobY == old(wetKnobY)
    {
      if ModeSwitchLeft <= ex <= ModeSwitchRight && ModeSwitchTop <= ey <= ModeSwitchBottom {
        ToggleMode();
      }
    }

    /** `toggle_mode` (the background swap is left out). */
    method ToggleMode()
      requires Valid()
      modifies this
      ensures Valid()
      ensures currentMode == Toggled(old(currentMode))
      ensures gates == old(gates) && dryKnobY == old(dryKnobY) && wetKnobY == old(wetKnobY)
    {
      if currentMode == "delay" {
        currentMode := "reverb";
      } else {
        currentMode := "delay";
      }
    }

    /** `drag_gate`: the dragged gate (index k) follows the pointer, held
        inside the box. */
    method DragGate(k: nat, ex: real, ey: real)
      requires Valid() && k < |gates|
      modifies this
      ensures Valid()
      ensures gates == old(gates)[k := Point(Confine(ex, Left, Right), Confine(ey, Top, Bottom))]
      ensures currentMode == old(currentMode) && dryKnobY == old(dryKnobY) && wetKnobY == old(wetKnobY)
    {
      var newX := Max(Left, Min(ex, Right));
      var newY := Max(Top, Min(ey, Bottom));
      gates := gates[k := Point(newX, newY)];
    }

    /** `drag_dry`. */
    method DragDry(ey: real)
      requires Valid()
      modifies this
      ensures Valid()
      ensures dryKnobY == Confine(ey, KnobTop, KnobBottom)
      ensures currentMode == old(currentMode) && gates == old(gates) && wetKnobY == old(wetKnobY)
    {
      dryKnobY := Max(KnobTop, Min(ey, KnobBottom));
    }

    /** `drag_wet`. */
    method DragWet(ey: real)
      requires Valid()
      modifies this
      ensures Valid()
      ensures wetKnobY == Confine(ey, KnobTop, KnobBottom)
      ensures currentMode == old(currentMode) && gates == old(gates) && dryKnobY == old(dryKnobY)
    {
      wetKnobY := Max(KnobTop, Min(ey, KnobBottom));
    }

    /** `apply_delay`: the gates as echoes, rendered by the same buffer rules
        as `apply_dsp`. */
    method ApplyDelay(dry: real, wet: real, pow10: real -> real) returns (r: Result<seq<real>>)
      requires Valid()
      ensures DelayTaps(TapsOf(gates, bpm))
      ensures r == Dsp(audio, fs, TapsOf(gates, bpm), dry, wet, pow10)
    {
      var taps := CollectTaps(gates, bpm);
      BoxedGatesGiveTaps(gates, bpm);
      r := ApplyDsp(audio, fs, taps, dry, wet, pow10);
    }

    /** `apply_reverb`: map the gates, keep the audible ones, run the
        reverb, mix and normalise. */
    method ApplyReverb(dry: real, wet: real, pow10: real -> real, log10: real -> real)
      returns (r: Result<seq<real>>)
      requires Valid()
      ensures ReverbGates(ReverbGatesOf(gates, log10))
      ensures r == DemoReverb(audio, fs, ReverbGatesOf(gates, log10), dry, wet, tailFactor, pow10)
    {
      var reverbGates := MapReverbGates(gates, log10);
      BoxedGatesGiveReverbGates(gates, log10);
      var activeGates := KeepActive(reverbGates);
      if |activeGates| == 0 {
        return Ok(audio);
      }
      var reverbOutput := ApplyMultiInstanceReverb(audio, fs, activeGates, 0.0, tailFactor, pow10);
      if reverbOutput.Err? {
        return Err(reverbOutput.error);
      }
      var output := MixReverb(audio, dry, wet, reverbOutput.value);
      NormalizeInPlace(output);
      return Ok(output[..]);
    }

    /** `process_and_play` without the file write and playback: the knobs
        become the dry and wet levels, and the current mode renders. */
    method ProcessAndPlay(pow10: real -> real, log10: real -> real) returns (r: Result<seq<real>>)
      requires Valid()
      ensures DelayTaps(TapsOf(gates, bpm)) && ReverbGates(ReverbGatesOf(gates, log10))
      ensures currentMode == "delay" ==>
                r == Dsp(audio, fs, TapsOf(gates, bpm), KnobMix(dryKnobY), KnobMix(wetKnobY), pow10)
      ensures currentMode != "delay" ==>
                r == DemoReverb(audio, fs, ReverbGatesOf(gates, log10), KnobMix(dryKnobY),
                                KnobMix(wetKnobY), tailFactor, pow10)
    {
      BoxedGatesGiveTaps(gates, bpm);
      BoxedGatesGiveReverbGates(gates, log10);
      var knobRange := KnobBottom - KnobTop;
      if knobRange == 0.0 {
        knobRange := 1.0;
      }
      var dryMix := 1.0 - ((dryKnobY - KnobTop) / knobRange);
      var wetMix := 1.0 - ((wetKnobY - KnobTop) / knobRange);
      assert dryMix == KnobMix(dryKnobY) && wetMix == KnobMix(wetKnobY);
      if currentMode == "delay" {
        r := ApplyDelay(dryMix, wetMix, pow10);
      } else {
        r := ApplyReverb(dryMix, wetMix, pow10, log10);
      }
    }
  }

  /** The list comprehension that keeps the audible gates. */
  method KeepActive(gates: seq<Gate>) returns (active: seq<Gate>)
    ensures active == Active(gates)
  {
    active := [];
    for i := 0 to |gates|
      invariant active == Active(gates[..i])
    {
      assert gates[..i + 1][..i] == gates[..i];
      if gates[i].gainDb > -50.0 {
        active := active + [gates[i]];
      }
    }
    assert gates[..|gates|] == gates;
  }

  /** The loop of `apply_reverb` that reads every gate's position. */
  method MapReverbGates(points: seq<Point>, log10: real -> real) returns (reverbGates: seq<Gate>)
    ensures reverbGates == ReverbGatesOf(points, log10)
  {
    reverbGates := [];
    for i := 0 to |points|
      invariant |reverbGates| == i
      invariant forall k :: 0 <= k < i ==> reverbGates[k] == DemoReverbGate(points[k], log10)
    {
      var gate := points[i];
      var gateWidth := Right - Left;
      var decayMs := ((gate.x - Left) / gateWidth) * 10000.0;
      var rangeY := Bottom - Top;
      var volumePercent := (1.0 - ((gate.y - Top) / rangeY)) * 100.0;
      var gainDb := if volumePercent > 0.1 then 20.0 * log10(volumePercent / 100.0) else -60.0;
      reverbGates := reverbGates + [ReverbGate(decayMs, gainDb)];
    }
  }

  /** The mix of `apply_reverb`: a zeroed buffer as long as the reverb, the
      input at `dry` over its prefix, the reverb at `wet` over all of it. */
  method MixReverb(x: seq<real>, dry: real, wet: real, rev: seq<real>) returns (output: array<real>)
    requires |x| <= |rev|
    ensures fresh(output)
    ensures output[..] == DemoReverbMix(x, dry, wet, rev)
  {
    output := new real[|rev|](_ => 0.0);
    forall n | 0 <= n < |x| {
      output[n] := output[n] + x[n] * dry;
    }
    forall n | 0 <= n < output.Length {
      output[n] := output[n] + rev[n] * wet;
    }
    assert forall n :: 0 <= n < output.Length ==> output[n] == DemoReverbMix(x, dry, wet, rev)[n];
  }
}
