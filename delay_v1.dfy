/** The first Tk delay plugin, `ToriDelayPlugin`: five torii gates on a canvas
    whose x position is the echo time in beats and whose y position is the
    echo level, two knobs for the dry and wet levels, and `apply_dsp`, the
    one-second-margin multi-tap delay. The GUI demo reuses all of it. */
module DelayV1 {
  import opened Numerics
  import opened Signal
  import opened Gates

  // ---------------------------------------------------------------------------
  // Canvas geometry

  const ScaleFactor: real := 0.3

  /** The box the gates move in. */
  const Left: real := 230.0 * ScaleFactor
  const Right: real := 1755.0 * ScaleFactor
  const Top: real := 710.0 * ScaleFactor
  const Bottom: real := 2140.0 * ScaleFactor

  /** The vertical travel of both knobs. */
  const KnobTop: real := 2320.0 * ScaleFactor
  const KnobBottom: real := 2537.0 * ScaleFactor

  const SampleRate: nat := 44100
  const GateCount: nat := 5

  /** The canvas position of a gate or a knob. */
  datatype Point = Point(x: real, y: real)

  predicate InGateBox(p: Point)
  {
    Left <= p.x <= Right && Top <= p.y <= Bottom
  }

  /** `max(lo, min(v, hi))`, the drag handlers' clamp. */
  function Confine(v: real, lo: real, hi: real): (r: real)
    ensures lo <= hi ==> lo <= r <= hi
    ensures lo <= v <= hi ==> r == v
    ensures lo <= hi && v < lo ==> r == lo
    ensures lo <= hi && hi < v ==> r == hi
  {
    Max(lo, Min(v, hi))
  }

  // ---------------------------------------------------------------------------
  // Positions to parameters

  /** `60000 / bpm`. */
  function MsPerBeat(bpm: real): real
    requires bpm != 0.0
  {
    60000.0 / bpm
  }

  /** A gate's echo: the box's width is four beats, its height 0 dB (top) to
      -60 dB (bottom). */
  function GateToTap(p: Point, bpm: real): (tap: Gate)
    requires bpm != 0.0
    ensures tap.DelayGate?
    ensures 0.0 < bpm && Left <= p.x <= Right ==> 0.0 <= tap.timeMs <= 4.0 * MsPerBeat(bpm)
    ensures p.x == Left ==> tap.timeMs == 0.0
    ensures p.x == Right ==> tap.timeMs == 4.0 * MsPerBeat(bpm)
    ensures Top <= p.y <= Bottom ==> -60.0 <= tap.gainDb <= 0.0
    ensures p.y == Top ==> tap.gainDb == 0.0
    ensures p.y == Bottom ==> tap.gainDb == -60.0
  {
    var gateWidth := Right - Left;
    var numBeats := ((p.x - Left) / gateWidth) * 4.0;
    var rangeY := Bottom - Top;
    var yNorm := (p.y - Top) / rangeY;
    assert 0.0 < bpm && Left <= p.x <= Right ==> 0.0 <= numBeats * MsPerBeat(bpm) <= 4.0 * MsPerBeat(bpm) by {
      if 0.0 < bpm && Left <= p.x <= Right {
        DivMonotone(p.x - Left, gateWidth, gateWidth);
        MulMonotone(MsPerBeat(bpm), 0.0, numBeats);
        MulMonotone(MsPerBeat(bpm), numBeats, 4.0);
      }
    }
    assert Top <= p.y <= Bottom ==> 0.0 <= yNorm <= 1.0 by {
      if Top <= p.y <= Bottom {
        DivMonotone(p.y - Top, rangeY, rangeY);
      }
    }
    DelayGate(numBeats * MsPerBeat(bpm), 0.0 - yNorm * 60.0)
  }

  /** A gate further right echoes later; a gate further down echoes quieter. */
  lemma {:induction false} GateToTapMonotone(p: Point, q: Point, bpm: real)
    requires 0.0 < bpm && p.x <= q.x && p.y <= q.y
    ensures GateToTap(p, bpm).timeMs <= GateToTap(q, bpm).timeMs
    ensures GateToTap(p, bpm).gainDb >= GateToTap(q, bpm).gainDb
  {
    DivMonotone(p.x - Left, q.x - Left, Right - Left);
    MulMonotone(MsPerBeat(bpm), (p.x - Left) / (Right - Left) * 4.0, (q.x - Left) / (Right - Left) * 4.0);
    DivMonotone(p.y - Top, q.y - Top, Bottom - Top);
  }

  /** The taps for the gates on the canvas, in gate order. */
  function TapsOf(points: seq<Point>, bpm: real): (taps: seq<Gate>)
    requires bpm != 0.0
    ensures |taps| == |points|
  {
    seq(|points|, i requires 0 <= i < |points| => GateToTap(points[i], bpm))
  }

  /** Gates inside the box give echoes the delay accepts, each between -60
      and 0 dB and no later than four beats. */
  lemma {:induction false} BoxedGatesGiveTaps(points: seq<Point>, bpm: real)
    requires 0.0 < bpm && forall i :: 0 <= i < |points| ==> InGateBox(points[i])
    ensures DelayTaps(TapsOf(points, bpm))
    ensures forall g | g in TapsOf(points, bpm) ::
              g.timeMs <= 4.0 * MsPerBeat(bpm) && -60.0 <= g.gainDb <= 0.0
  {
    var taps := TapsOf(points, bpm);
    forall g | g in taps
      ensures g.DelayGate? && 0.0 <= g.timeMs <= 4.0 * MsPerBeat(bpm) && -60.0 <= g.gainDb <= 0.0
    {
      var i :| 0 <= i < |taps| && taps[i] == g;
      assert g == GateToTap(points[i], bpm);
    }
  }

  /** The loop of `process_and_play` that reads every gate's position. */
  method CollectTaps(points: seq<Point>, bpm: real) returns (taps: seq<Gate>)
    requires bpm != 0.0
    ensures taps == TapsOf(points, bpm)
  {
    taps := [];
    var msPerBeat := 60000.0 / bpm;
    for i := 0 to |points|
      invariant |taps| == i
      invariant forall k :: 0 <= k < i ==> taps[k] == GateToTap(points[k], bpm)
    {
      var gate := points[i];
      var gateWidth := Right - Left;
      var numBeats := ((gate.x - Left) / gateWidth) * 4.0;
      var timeMs := numBeats * msPerBeat;
      var rangeY := Bottom - Top;
      var gainDb := 0.0 - (((gate.y - Top) / rangeY) * 60.0);
      taps := taps + [DelayGate(timeMs, gainDb)];
    }
  }

  /** `knob_range`, with the guard that replaces a zero range by 1. */
  const KnobRange: real := if KnobBottom - KnobTop == 0.0 then 1.0 else KnobBottom - KnobTop

  /** A knob's mix level: 1.0 at the top of its travel, 0.0 at the bottom. */
  function KnobMix(knobY: real): (mix: real)
    ensures KnobTop <= knobY <= KnobBottom ==> 0.0 <= mix <= 1.0
    ensures knobY == KnobTop ==> mix == 1.0
    ensures knobY == KnobBottom ==> mix == 0.0
  {
    assert KnobTop <= knobY <= KnobBottom ==> 0.0 <= (knobY - KnobTop) / KnobRange <= 1.0 by {
      if KnobTop <= knobY <= KnobBottom {
        DivMonotone(knobY - KnobTop, KnobRange, KnobRange);
      }
    }
    1.0 - ((knobY - KnobTop) / KnobRange)
  }

  /** Lowering a knob never raises its level. */
  lemma {:induction false} KnobMixMonotone(y1: real, y2: real)
    requires y1 <= y2
    ensures KnobMix(y2) <= KnobMix(y1)
  {
    DivMonotone(y1 - KnobTop, y2 - KnobTop, KnobRange);
  }

  // ---------------------------------------------------------------------------
  // apply_dsp

  /** `max(times) if taps else 0`: the latest tap time, 0 for no taps. */
  function LatestTime(taps: seq<Gate>): (m: real)
    requires AllDelayGates(taps)
    ensures taps == [] ==> m == 0.0
    ensures forall g | g in taps :: g.timeMs <= m
    ensures DelayTaps(taps) ==> m >= 0.0
  {
    if taps == [] then 0.0
    else
      assert DelayTaps(taps) ==> MaxTime(taps) >= 0.0 by {
        if DelayTaps(taps) {
          MaxTimeNonNegative(taps);
        }
      }
      MaxTime(taps)
  }

  /** `int(fs * (max_delay / 1000.0) + fs)`: room for the latest tap plus
      one second. */
  function OneSecondTail(fs: nat, maxDelayMs: real): (t: int)
    ensures maxDelayMs >= 0.0 ==> t >= fs
  {
    assert maxDelayMs >= 0.0 ==> Trunc(fs as real * (maxDelayMs / 1000.0) + fs as real) >= fs by {
      if maxDelayMs >= 0.0 {
        MulMonotone(fs as real, 0.0, maxDelayMs / 1000.0);
        TruncAddNat(fs as real * (maxDelayMs / 1000.0), fs);
      }
    }
    Trunc(fs as real * (maxDelayMs / 1000.0) + fs as real)
  }

  /** The buffer length `apply_dsp` allocates. */
  function DspLength(x: seq<real>, fs: nat, taps: seq<Gate>): (total: nat)
    requires DelayTaps(taps)
    ensures total >= |x| + fs
  {
    |x| + OneSecondTail(fs, LatestTime(taps))
  }

  /** One tap's contribution to sample n as `apply_dsp` adds it: its gain is
      scaled by the wet level, and the tap is dropped unless its copy ends
      strictly before the buffer does. */
  function FittingEcho(x: seq<real>, fs: nat, tap: Gate, wet: real, pow10: real -> real,
                       total: nat, n: int): real
    requires tap.DelayGate?
  {
    if TapShift(fs, tap.timeMs) + |x| < total then WetEcho(x, fs, tap, wet, pow10, n) else 0.0
  }

  /** One tap's contribution to sample n with its gain scaled by the wet
      level (`gain = 10**(gain_db/20) * wet_mix`), whether or not it fits. */
  function WetEcho(x: seq<real>, fs: nat, tap: Gate, wet: real, pow10: real -> real, n: int): real
    requires tap.DelayGate?
  {
    Echo(x, TapShift(fs, tap.timeMs), LinearGain(tap.gainDb, pow10) * wet, n)
  }

  /** Every tap's wet-scaled contribution to sample n, added in list order. */
  function WetTapSum(x: seq<real>, fs: nat, taps: seq<Gate>, wet: real, pow10: real -> real, n: int): real
    requires AllDelayGates(taps)
    decreases |taps|
  {
    if taps == [] then 0.0
    else WetTapSum(x, fs, taps[..|taps| - 1], wet, pow10, n) + WetEcho(x, fs, taps[|taps| - 1], wet, pow10, n)
  }

  function FittingTapSum(x: seq<real>, fs: nat, taps: seq<Gate>, wet: real, pow10: real -> real,
                         total: nat, n: int): real
    requires AllDelayGates(taps)
    decreases |taps|
  {
    if taps == [] then 0.0
    else FittingTapSum(x, fs, taps[..|taps| - 1], wet, pow10, total, n)
         + FittingEcho(x, fs, taps[|taps| - 1], wet, pow10, total, n)
  }

  /** The buffer before normalisation. */
  function DspMix(x: seq<real>, fs: nat, taps: seq<Gate>, dry: real, wet: real,
                  pow10: real -> real, total: nat): (y: seq<real>)
    requires AllDelayGates(taps)
    ensures |y| == total
  {
    seq(total, n requires 0 <= n < total => DryAt(x, dry, n) + FittingTapSum(x, fs, taps, wet, pow10, total, n))
  }

  /** `apply_dsp`: the input at `dry_mix`, every fitting tap at its gain
      times `wet_mix`, then divided by the peak when the peak exceeds 1.
      Only an empty buffer (no input and a zero sample rate) makes `np.max`
      raise. */
  function Dsp(x: seq<real>, fs: nat, taps: seq<Gate>, dry: real, wet: real,
               pow10: real -> real): (r: Result<seq<real>>)
    requires DelayTaps(taps)
    ensures r.Err? <==> |x| == 0 && fs == 0
    ensures r.Err? ==> r.error == EmptyReduction
    ensures r.Ok? ==> |r.value| == DspLength(x, fs, taps) && Peak(r.value) <= 1.0
  {
    var total := DspLength(x, fs, taps);
    if total == 0 then Err(EmptyReduction)
    else Ok(Normalized(DspMix(x, fs, taps, dry, wet, pow10, total)))
  }

  /** The normaliser of `apply_dsp` touches a buffer only when its peak
      exceeds 1, and then leaves a peak of exactly 1. */
  lemma {:induction false} DspNormalizes(x: seq<real>, fs: nat, taps: seq<Gate>, dry: real, wet: real, pow10: real -> real)
    requires DelayTaps(taps) && 0 < fs
    ensures var r := Dsp(x, fs, taps, dry, wet, pow10);
            var mix := DspMix(x, fs, taps, dry, wet, pow10, DspLength(x, fs, taps));
            r.Ok? && (Peak(mix) <= 1.0 ==> r.value == mix) && (Peak(mix) > 1.0 ==> Peak(r.value) == 1.0)
  {
  }

  /** `apply_dsp` as written: a zeroed buffer, the dry slice, the guarded
      slice addition per tap, then the normaliser with its silence guard
      (`peak > 0.001`, then `peak > 1.0`). */
  method ApplyDsp(x: seq<real>, fs: nat, taps: seq<Gate>, dry: real, wet: real,
                  pow10: real -> real) returns (r: Result<seq<real>>)
    requires DelayTaps(taps)
    ensures r == Dsp(x, fs, taps, dry, wet, pow10)
  {
    var output := DspBuffer(x, fs, taps, dry, wet, pow10);
    if output.Length == 0 {
      DspUnfold(x, fs, taps, dry, wet, pow10);
      return Err(EmptyReduction);
    }
    NormalizeAboveSilence(output);
    r := Ok(output[..]);
    DspUnfold(x, fs, taps, dry, wet, pow10);
  }

  /** The definition of `Dsp` as one equation. */
  lemma {:induction false} DspUnfold(x: seq<real>, fs: nat, taps: seq<Gate>, dry: real, wet: real,
                                     pow10: real -> real)
    requires DelayTaps(taps)
    ensures var total := DspLength(x, fs, taps);
            Dsp(x, fs, taps, dry, wet, pow10)
            == if total == 0 then Err(EmptyReduction)
               else Ok(Normalized(DspMix(x, fs, taps, dry, wet, pow10, total)))
  {
  }

  /** The buffer `apply_dsp` builds before normalising: a zeroed buffer of
      the input's length plus the tail, the dry slice, then the taps. */
  method DspBuffer(x: seq<real>, fs: nat, taps: seq<Gate>, dry: real, wet: real,
                   pow10: real -> real) returns (output: array<real>)
    requires DelayTaps(taps)
    ensures fresh(output)
    ensures output[..] == DspMix(x, fs, taps, dry, wet, pow10, DspLength(x, fs, taps))
  {
    var maxDelay := if taps == [] then 0.0 else MaxTime(taps);
    assert maxDelay == LatestTime(taps);
    var total := |x| + OneSecondTail(fs, maxDelay);
    output := DryBuffer(x, dry, total);
    AddFittingTaps(output, x, fs, taps, dry, wet, pow10);
  }

  /** The normaliser of `apply_dsp`, whose extra silence guard
      (`peak > 0.001`) changes nothing: a peak above 1 passes it anyway. */
  method NormalizeAboveSilence(output: array<real>)
    requires output.Length > 0
    modifies output
    ensures output[..] == Normalized(old(output[..]))
  {
    var peak := Peak(output[..]);
    if peak > 0.001 {
      if peak > 1.0 {
        forall i | 0 <= i < output.Length {
          output[i] := output[i] / peak;
        }
      }
    }
  }

  /** The loop over the taps, with the strict fit check. */
  method AddFittingTaps(output: array<real>, x: seq<real>, fs: nat, taps: seq<Gate>, dry: real,
                        wet: real, pow10: real -> real)
    requires DelayTaps(taps)
    requires forall n :: 0 <= n < output.Length ==> output[n] == DryAt(x, dry, n)
    modifies output
    ensures output[..] == DspMix(x, fs, taps, dry, wet, pow10, output.Length)
  {
    for i := 0 to |taps|
      invariant forall n :: 0 <= n < output.Length ==>
                  output[n] == DryAt(x, dry, n) + FittingTapSum(x, fs, taps[..i], wet, pow10, output.Length, n)
    {
      AddFittingTap(output, x, fs, taps, dry, wet, pow10, i);
    }
    assert taps[..|taps|] == taps;
  }

  /** One pass of the loop: tap i's copy added in place if it fits. */
  method AddFittingTap(output: array<real>, x: seq<real>, fs: nat, taps: seq<Gate>, dry: real,
                       wet: real, pow10: real -> real, i: nat)
    requires DelayTaps(taps) && i < |taps|
    requires forall n :: 0 <= n < output.Length ==>
               output[n] == DryAt(x, dry, n) + FittingTapSum(x, fs, taps[..i], wet, pow10, output.Length, n)
    modifies output
    ensures forall n :: 0 <= n < output.Length ==>
              output[n] == DryAt(x, dry, n) + FittingTapSum(x, fs, taps[..i + 1], wet, pow10, output.Length, n)
  {
    var tap := taps[i];
    var gain := pow10(tap.gainDb / 20.0) * wet;
    var shift := TapShift(fs, tap.timeMs);
    if shift + |x| < output.Length {
      assert tap in taps;
      AddEcho(output, x, shift, gain);
    }
    forall n | 0 <= n < output.Length
      ensures output[n] == DryAt(x, dry, n) + FittingTapSum(x, fs, taps[..i + 1], wet, pow10, output.Length, n)
    {
      FittingTapSumStep(x, fs, taps, wet, pow10, output.Length, i, n);
    }
  }

  lemma {:induction false} FittingTapSumStep(x: seq<real>, fs: nat, taps: seq<Gate>, wet: real,
                                             pow10: real -> real, total: nat, i: nat, n: int)
    requires AllDelayGates(taps) && i < |taps|
    ensures FittingTapSum(x, fs, taps[..i + 1], wet, pow10, total, n)
         == FittingTapSum(x, fs, taps[..i], wet, pow10, total, n) + FittingEcho(x, fs, taps[i], wet, pow10, total, n)
  {
    assert taps[..i + 1][..i] == taps[..i];
  }

  /** With a sample rate of at least 1, every tap passes the strict fit
      check: the one-second margin always leaves room after the latest tap. */
  lemma {:induction false} NoTapSkipped(xLen: nat, fs: nat, taps: seq<Gate>, tap: Gate)
    requires 1 <= fs && DelayTaps(taps) && tap in taps
    ensures TapShift(fs, tap.timeMs) + xLen < xLen + OneSecondTail(fs, LatestTime(taps))
  {
    var m := LatestTime(taps);
    var a := fs as real * (m / 1000.0);
    TapShiftMonotone(fs, tap.timeMs, m);
    MulMonotone(fs as real, 0.0, m / 1000.0);
    TruncAddNat(a, fs);
  }

  /** When every tap fits, the guarded sum is the sum of every tap's
      wet-scaled echo. */
  lemma {:induction false} AllFitSum(x: seq<real>, fs: nat, taps: seq<Gate>, wet: real,
                                     pow10: real -> real, total: nat, n: int)
    requires AllDelayGates(taps)
    requires forall i :: 0 <= i < |taps| ==> TapShift(fs, taps[i].timeMs) + |x| < total
    ensures FittingTapSum(x, fs, taps, wet, pow10, total, n) == WetTapSum(x, fs, taps, wet, pow10, n)
    decreases |taps|
  {
    if taps != [] {
      AllFitSum(x, fs, taps[..|taps| - 1], wet, pow10, total, n);
    }
  }

  /** `apply_dsp` uses every tap (for fs >= 1): before normalisation, sample
      n is the dry input plus every tap's echo at its gain times the wet
      level. */
  lemma {:induction false} DspUsesEveryTap(x: seq<real>, fs: nat, taps: seq<Gate>, dry: real, wet: real,
                        pow10: real -> real, n: nat)
    requires 1 <= fs && DelayTaps(taps) && n < DspLength(x, fs, taps)
    ensures DspMix(x, fs, taps, dry, wet, pow10, DspLength(x, fs, taps))[n]
         == DryAt(x, dry, n) + WetTapSum(x, fs, taps, wet, pow10, n)
  {
    var total := DspLength(x, fs, taps);
    forall i | 0 <= i < |taps|
      ensures TapShift(fs, taps[i].timeMs) + |x| < total
    {
      NoTapSkipped(|x|, fs, taps, taps[i]);
    }
    AllFitSum(x, fs, taps, wet, pow10, total, n);
  }

  // ---------------------------------------------------------------------------
  // The plugin window

  /** Where the five gates start: spread along the bottom edge, silent. */
  function InitialGates(): (gates: seq<Point>)
    ensures |gates| == GateCount
    ensures forall i :: 0 <= i < GateCount ==> InGateBox(gates[i]) && gates[i].y == Bottom
  {
    seq(GateCount, i requires 0 <= i < GateCount => Point(Left + 150.0 * (i + 1) as real * ScaleFactor, Bottom))
  }

  /** The gates start silent: every initial echo is at -60 dB. */
  lemma {:induction false} InitialGatesAreSilent(bpm: real)
    requires bpm != 0.0
    ensures forall g | g in TapsOf(InitialGates(), bpm) :: g.gainDb == -60.0
  {
    var taps := TapsOf(InitialGates(), bpm);
    forall g | g in taps
      ensures g.gainDb == -60.0
    {
      var i :| 0 <= i < |taps| && taps[i] == g;
      assert g == GateToTap(InitialGates()[i], bpm);
    }
  }

  class ToriDelayPlugin {
    const bpm: real
    const fs: nat
    const audio: seq<real>
    var gates: seq<Point>
    var dryKnobY: real
    var wetKnobY: real

    /** Gates inside their box and knobs on their travel, as the drag
        handlers keep them. */
    ghost predicate Valid()
      reads this
    {
      0.0 < bpm && fs == SampleRate && |gates| == GateCount
      && (forall i :: 0 <= i < |gates| ==> InGateBox(gates[i]))
      && KnobTop <= dryKnobY <= KnobBottom && KnobTop <= wetKnobY <= KnobBottom
    }

    /** The window at start-up: five silent gates along the bottom edge and
        both knobs at the top (full level). The audio file's samples are
        passed in. */
    constructor (bpm: real, audio: seq<real>)
      requires 0.0 < bpm
      ensures Valid()
      ensures this.bpm == bpm && fs == SampleRate && this.audio == audio
      ensures gates == InitialGates() && dryKnobY == KnobTop && wetKnobY == KnobTop
    {
      this.bpm := bpm;
      fs := SampleRate;
      this.audio := audio;
      var placed: seq<Point> := [];
      for i := 1 to GateCount + 1
        invariant |placed| == i - 1
        invariant forall k :: 0 <= k < i - 1 ==> placed[k] == InitialGates()[k]
      {
        placed := placed + [Point(Left + 150.0 * i as real * ScaleFactor, Bottom)];
      }
      gates := placed;
      dryKnobY := KnobTop;
      wetKnobY := KnobTop;
    }

    /** `drag_gate`: the dragged gate (index k) follows the pointer, held
        inside the box. */
    method DragGate(k: nat, ex: real, ey: real)
      requires Valid() && k < |gates|
      modifies this
      ensures Valid()
      ensures gates == old(gates)[k := Point(Confine(ex, Left, Right), Confine(ey, Top, Bottom))]
      ensures dryKnobY == old(dryKnobY) && wetKnobY == old(wetKnobY)
    {
      var newX := Max(Left, Min(ex, Right));
      var newY := Max(Top, Min(ey, Bottom));
      gates := gates[k := Point(newX, newY)];
    }

    /** `drag_dry`: the dry knob follows the pointer along its travel. */
    method DragDry(ey: real)
      requires Valid()
      modifies this
      ensures Valid()
      ensures dryKnobY == Confine(ey, KnobTop, KnobBottom)
      ensures gates == old(gates) && wetKnobY == old(wetKnobY)
    {
      dryKnobY := Max(KnobTop, Min(ey, KnobBottom));
    }

    /** `drag_wet`: the wet knob follows the pointer along its travel. */
    method DragWet(ey: real)
      requires Valid()
      modifies this
      ensures Valid()
      ensures wetKnobY == Confine(ey, KnobTop, KnobBottom)
      ensures gates == old(gates) && dryKnobY == old(dryKnobY)
    {
      wetKnobY := Max(KnobTop, Min(ey, KnobBottom));
    }

    /** `process_and_play` without the file write and playback: the gates
        become taps, the knobs become the dry and wet levels, and `apply_dsp`
        renders the audio. With the plugin's 44.1 kHz rate this never fails,
        and the result is at least a second longer than the input. */
    method ProcessAndPlay(pow10: real -> real) returns (r: Result<seq<real>>)
      requires Valid()
      ensures DelayTaps(TapsOf(gates, bpm))
      ensures r == Dsp(audio, fs, TapsOf(gates, bpm), KnobMix(dryKnobY), KnobMix(wetKnobY), pow10)
      ensures r.Ok? && |r.value| >= |audio| + SampleRate && Peak(r.value) <= 1.0
    {
      var taps := CollectTaps(gates, bpm);
      BoxedGatesGiveTaps(gates, bpm);
      var knobRange := KnobBottom - KnobTop;
      if knobRange == 0.0 {
        knobRange := 1.0;
      }
      var dryMix := 1.0 - ((dryKnobY - KnobTop) / knobRange);
      var wetMix := 1.0 - ((wetKnobY - KnobTop) / knobRange);
      assert dryMix == KnobMix(dryKnobY) && wetMix == KnobMix(wetKnobY);
      r := ApplyDsp(audio, fs, taps, dryMix, wetMix, pow10);
      assert |audio| + SampleRate <= DspLength(audio, fs, taps);
    }
  }
}
