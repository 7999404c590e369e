/** The Schroeder reverberator: two circular-buffer IIR filters (comb and
    allpass), a parallel comb stage, a serial allpass stage, the feedback-gain
    derivation with its 0.98 ceiling, and the multi-instance mixer that runs
    one reverberator per gate. */
module ReverbEngine {
  import opened Numerics
  import opened Signal
  import opened Gates

  /** Schroeder's comb delays, slightly detuned (milliseconds). */
  const CombDelaysMs: seq<real> := [29.7, 37.1, 41.1, 43.7]
  /** `np.mean(comb_delays)`. */
  const MeanCombDelayMs: real := (29.7 + 37.1 + 41.1 + 43.7) / 4.0
  const AllpassDelaysMs: seq<real> := [5.0, 1.7]
  const AllpassGain: real := 0.7
  /** The stability ceiling on the comb feedback gain. */
  const MaxFeedbackGain: real := 0.98

  /** `int(sample_rate * delay_ms / 1000.0)`. */
  function DelaySamples(fs: nat, delayMs: real): int
  {
    Trunc(fs as real * delayMs / 1000.0)
  }

  // ---------------------------------------------------------------------
  // Comb filter: y[n] = x[n] + g*y[n-D]

  /** Sample i of the comb filter's output, by its recurrence. */
  function CombAt(x: seq<real>, d: nat, g: real, i: nat): real
    requires 0 < d && i < |x|
    decreases i
  {
    if i < d then x[i] else x[i] + g * CombAt(x, d, g, i - d)
  }

  /** The comb filter's whole output: as long as the input, the input itself
      for the first D samples, and `x[i] + g*y[i-D]` from then on. */
  function Comb(x: seq<real>, d: nat, g: real): (y: seq<real>)
    requires 0 < d
    ensures |y| == |x|
    ensures forall i :: 0 <= i < |x| && i < d ==> y[i] == x[i]
    ensures forall i :: d <= i < |x| ==> y[i] == x[i] + g * y[i - d]
  {
    seq(|x|, i requires 0 <= i < |x| => CombAt(x, d, g, i))
  }

  /** What slot of the comb's ring buffer holds once output t has been
      written: y[t], or the initial zero when t is before the start. */
  ghost function CombHeld(x: seq<real>, d: nat, g: real, t: int): real
    requires 0 < d && t < |x|
  {
    if t < 0 then 0.0 else CombAt(x, d, g, t)
  }

  lemma {:induction false} CursorStep(idx: nat, d: nat)
    requires idx < d
    ensures (idx + 1) % d == if idx + 1 < d then idx + 1 else 0
  {
  }

  /** `comb_filter`: one pass over the input with a ring buffer of D samples
      and a wrap-around cursor; every buffer access is in bounds because the
      cursor stays in [0, D). */
  method CombFilter(x: seq<real>, d: nat, g: real) returns (y: seq<real>)
    requires 0 < d
    ensures y == Comb(x, d, g)
  {
    var output := new real[|x|](_ => 0.0);
    var buffer := new real[d](_ => 0.0);
    var idx := 0;
    ghost var base := 0;
    for i := 0 to |x|
      invariant 0 <= idx < d && 0 <= base && base + idx == i
      invariant forall p :: 0 <= p < i ==> output[p] == CombAt(x, d, g, p)
      invariant forall j :: 0 <= j < d ==>
        buffer[j] == CombHeld(x, d, g, if j < idx then base + j else base - d + j)
    {
      var delayed := buffer[idx];
      assert delayed == CombHeld(x, d, g, i - d);
      output[i] := x[i] + g * delayed;
      assert output[i] == CombAt(x, d, g, i);
      buffer[idx] := output[i];
      CursorStep(idx, d);
      idx := (idx + 1) % d;
      if idx == 0 {
        base := base + d;
      }
    }
    y := output[..];
  }

  // ---------------------------------------------------------------------
  // Allpass filter: y[n] = -g*x[n] + x[n-D] + g*y[n-D]

  function AllpassAt(x: seq<real>, d: nat, g: real, i: nat): real
    requires 0 < d && i < |x|
    decreases i
  {
    if i < d then -g * x[i] else -g * x[i] + x[i - d] + g * AllpassAt(x, d, g, i - d)
  }

  /** The allpass filter's whole output: as long as the input, `-g*x[i]` for
      the first D samples and `-g*x[i] + x[i-D] + g*y[i-D]` from then on. */
  function Allpass(x: seq<real>, d: nat, g: real): (y: seq<real>)
    requires 0 < d
    ensures |y| == |x|
    ensures forall i :: 0 <= i < |x| && i < d ==> y[i] == -g * x[i]
    ensures forall i :: d <= i < |x| ==> y[i] == -g * x[i] + x[i - d] + g * y[i - d]
  {
    seq(|x|, i requires 0 <= i < |x| => AllpassAt(x, d, g, i))
  }

  /** What slot of the allpass ring buffer holds once step t is done:
      x[t] + g*y[t], or the initial zero. */
  ghost function AllpassHeld(x: seq<real>, d: nat, g: real, t: int): real
    requires 0 < d && t < |x|
  {
    if t < 0 then 0.0 else x[t] + g * AllpassAt(x, d, g, t)
  }

  /** One allpass step: from the delayed slot, the output sample y[i] and the
      value x[i] + g*y[i] written back in its place. */
  method AllpassTick(x: seq<real>, d: nat, g: real, i: nat, delayed: real) returns (out: real, held: real)
    requires 0 < d && i < |x|
    requires delayed == AllpassHeld(x, d, g, i - d)
    ensures out == AllpassAt(x, d, g, i)
    ensures held == AllpassHeld(x, d, g, i)
  {
    out := -g * x[i] + delayed;
    held := x[i] + g * out;
  }

  /** `allpass_filter`: the same ring-buffer mechanics as the comb filter;
      the buffer stores x[n] + g*y[n]. */
  method AllpassFilter(x: seq<real>, d: nat, g: real) returns (y: seq<real>)
    requires 0 < d
    ensures y == Allpass(x, d, g)
  {
    var output := new real[|x|](_ => 0.0);
    var buffer := new real[d](_ => 0.0);
    var idx := 0;
    ghost var base := 0;
    for i := 0 to |x|
      invariant 0 <= idx < d && 0 <= base && base + idx == i
      invariant forall p :: 0 <= p < i ==> output[p] == AllpassAt(x, d, g, p)
      invariant forall j :: 0 <= j < d ==>
        buffer[j] == AllpassHeld(x, d, g, if j < idx then base + j else base - d + j)
    {
      var delayed := buffer[idx];
      assert delayed == AllpassHeld(x, d, g, i - d);
      var out, held := AllpassTick(x, d, g, i, delayed);
      output[i] := out;
      buffer[idx] := held;
      CursorStep(idx, d);
      idx := (idx + 1) % d;
      if idx == 0 {
        base := base + d;
      }
    }
    y := output[..];
  }

  // ---------------------------------------------------------------------
  // The two stages

  /** The sum of the combs a delay list applies (delays that truncate to zero
      samples or fewer are skipped), before averaging. */
  function CombBank(x: seq<real>, fs: nat, delaysMs: seq<real>, g: real): (y: seq<real>)
    ensures |y| == |x|
    decreases |delaysMs|
  {
    if delaysMs == [] then Zeros(|x|)
    else
      var front := CombBank(x, fs, delaysMs[..|delaysMs| - 1], g);
      var d := DelaySamples(fs, delaysMs[|delaysMs| - 1]);
      if d > 0 then Add(front, Comb(x, d, g)) else front
  }

  /** The parallel comb stage: the comb sum divided by the length of the
      whole delay list, skipped entries included. */
  function ParallelComb(x: seq<real>, fs: nat, delaysMs: seq<real>, g: real): (y: seq<real>)
    requires |delaysMs| > 0
    ensures |y| == |x|
  {
    var bank := CombBank(x, fs, delaysMs, g);
    seq(|x|, i requires 0 <= i < |x| => bank[i] / |delaysMs| as real)
  }

  /** When every delay is skipped, the comb sum is silence. */
  lemma {:induction false} CombBankSkipped(x: seq<real>, fs: nat, delaysMs: seq<real>, g: real)
    requires forall k :: 0 <= k < |delaysMs| ==> DelaySamples(fs, delaysMs[k]) <= 0
    ensures CombBank(x, fs, delaysMs, g) == Zeros(|x|)
    decreases |delaysMs|
  {
    if delaysMs != [] {
      var front := delaysMs[..|delaysMs| - 1];
      assert forall k :: 0 <= k < |front| ==> front[k] == delaysMs[k];
      CombBankSkipped(x, fs, front, g);
    }
  }

  /** The average still divides by the full list length, so a stage whose
      every delay is skipped outputs zeros rather than the input. */
  lemma {:induction false} AllCombsSkippedIsSilent(x: seq<real>, fs: nat, delaysMs: seq<real>, g: real)
    requires |delaysMs| > 0
    requires forall k :: 0 <= k < |delaysMs| ==> DelaySamples(fs, delaysMs[k]) <= 0
    ensures ParallelComb(x, fs, delaysMs, g) == Zeros(|x|)
  {
    CombBankSkipped(x, fs, delaysMs, g);
  }

  /** `parallel_comb_filters`: accumulate each applicable comb into a zeroed
      buffer, then divide by the number of delays. */
  method ParallelCombFilters(x: seq<real>, fs: nat, delaysMs: seq<real>, g: real) returns (y: seq<real>)
    requires |delaysMs| > 0
    ensures y == ParallelComb(x, fs, delaysMs, g)
  {
    var output := new real[|x|](_ => 0.0);
    for k := 0 to |delaysMs|
      invariant output[..] == CombBank(x, fs, delaysMs[..k], g)
    {
      AddComb(output, x, fs, delaysMs, g, k);
    }
    assert delaysMs[..|delaysMs|] == delaysMs;
    var count := |delaysMs| as real;
    forall i | 0 <= i < |x| {
      output[i] := output[i] / count;
    }
    y := output[..];
  }

  /** One pass of the loop: the comb of delay k, if it applies, added in place. */
  method AddComb(output: array<real>, x: seq<real>, fs: nat, delaysMs: seq<real>, g: real, k: nat)
    requires k < |delaysMs| && output[..] == CombBank(x, fs, delaysMs[..k], g)
    modifies output
    ensures output[..] == CombBank(x, fs, delaysMs[..k + 1], g)
  {
    assert delaysMs[..k + 1][..k] == delaysMs[..k];
    var d := DelaySamples(fs, delaysMs[k]);
    if d > 0 {
      var filtered := CombFilter(x, d, g);
      forall i | 0 <= i < |x| {
        output[i] := output[i] + filtered[i];
      }
    }
  }

  /** The serial allpass stage: the applicable allpass filters applied one
      after another, in list order. */
  function SerialAllpass(x: seq<real>, fs: nat, delaysMs: seq<real>, g: real): (y: seq<real>)
    ensures |y| == |x|
    decreases |delaysMs|
  {
    if delaysMs == [] then x
    else
      var front := SerialAllpass(x, fs, delaysMs[..|delaysMs| - 1], g);
      var d := DelaySamples(fs, delaysMs[|delaysMs| - 1]);
      if d > 0 then Allpass(front, d, g) else front
  }

  /** With no applicable stage the serial chain returns the input unchanged. */
  lemma {:induction false} AllAllpassSkippedIsIdentity(x: seq<real>, fs: nat, delaysMs: seq<real>, g: real)
    requires forall k :: 0 <= k < |delaysMs| ==> DelaySamples(fs, delaysMs[k]) <= 0
    ensures SerialAllpass(x, fs, delaysMs, g) == x
    decreases |delaysMs|
  {
    if delaysMs != [] {
      var front := delaysMs[..|delaysMs| - 1];
      assert forall k :: 0 <= k < |front| ==> front[k] == delaysMs[k];
      AllAllpassSkippedIsIdentity(x, fs, front, g);
    }
  }

  /** `serial_allpass_filters`: reassign the signal once per applicable stage. */
  method SerialAllpassFilters(x: seq<real>, fs: nat, delaysMs: seq<real>, g: real) returns (y: seq<real>)
    ensures y == SerialAllpass(x, fs, delaysMs, g)
  {
    var signal := x;
    for k := 0 to |delaysMs|
      invariant signal == SerialAllpass(x, fs, delaysMs[..k], g)
    {
      assert delaysMs[..k + 1][..k] == delaysMs[..k];
      var d := DelaySamples(fs, delaysMs[k]);
      if d > 0 {
        signal := AllpassFilter(signal, d, g);
      }
    }
    assert delaysMs[..|delaysMs|] == delaysMs;
    y := signal;
  }

  // ---------------------------------------------------------------------
  // One reverberator

  /** The comb feedback gain for a decay time: 10^(-3*D/(decay_sec*fs)) with
      D the mean comb delay in samples, capped at 0.98. The division fails when
      decay_sec*fs is zero. Otherwise, since 10**e is positive, the gain lies
      in (0, 0.98] whatever the decay. */
  function FeedbackGain(fs: nat, decayMs: real, pow10: real -> real): (r: Result<real>)
    ensures r.Err? <==> DecayDenominator(fs, decayMs) == 0.0
    ensures r.Err? ==> r.error == ZeroDivision
    ensures r.Ok? ==> r.value <= MaxFeedbackGain
    ensures r.Ok? && Pow10Positive(pow10) ==> 0.0 < r.value
  {
    var avgCombDelaySamples := Trunc(fs as real * MeanCombDelayMs / 1000.0);
    var decaySec := decayMs / 1000.0;
    var denominator := decaySec * fs as real;
    if denominator == 0.0 then Err(ZeroDivision)
    else Ok(Min(pow10(-3.0 * avgCombDelaySamples as real / denominator), MaxFeedbackGain))
  }

  /** `schroeder_reverb`: scale the input by the initial gain, run the
      parallel comb stage with the derived feedback gain, then the serial
      allpass stage. The output is as long as the input. */
  function Schroeder(x: seq<real>, fs: nat, decayMs: real, initialGain: real, pow10: real -> real): (r: Result<seq<real>>)
    ensures r.Ok? ==> |r.value| == |x|
    ensures r.Err? <==> DecayDenominator(fs, decayMs) == 0.0
    ensures r.Err? ==> r.error == ZeroDivision
  {
    match FeedbackGain(fs, decayMs, pow10)
    case Err(e) => Err(e)
    case Ok(g) =>
      var scaled := Scale(x, initialGain);
      var combOutput := ParallelComb(scaled, fs, CombDelaysMs, g);
      Ok(SerialAllpass(combOutput, fs, AllpassDelaysMs, AllpassGain))
  }

  method SchroederReverb(x: seq<real>, fs: nat, decayMs: real, initialGain: real, pow10: real -> real)
    returns (r: Result<seq<real>>)
    ensures r == Schroeder(x, fs, decayMs, initialGain, pow10)
  {
    var feedback := FeedbackGain(fs, decayMs, pow10);
    if feedback.Err? {
      return Err(feedback.error);
    }
    var scaled := Scale(x, initialGain);
    var combOutput := ParallelCombFilters(scaled, fs, CombDelaysMs, feedback.value);
    var output := SerialAllpassFilters(combOutput, fs, AllpassDelaysMs, AllpassGain);
    return Ok(output);
  }

  // ---------------------------------------------------------------------
  // One reverberator per gate

  /** A gate's send level: `np.clip(10**(gain_db/20), 0, 1)`. */
  function GateGain(gainDb: real, pow10: real -> real): (r: real)
    ensures 0.0 <= r <= 1.0
    ensures 0.0 <= LinearGain(gainDb, pow10) <= 1.0 ==> r == LinearGain(gainDb, pow10)
    ensures LinearGain(gainDb, pow10) >= 1.0 ==> r == 1.0
    ensures LinearGain(gainDb, pow10) <= 0.0 ==> r == 0.0
  {
    Clip(LinearGain(gainDb, pow10), 0.0, 1.0)
  }

  /** `decay_time_sec * sample_rate`, the denominator of the feedback-gain
      exponent; the derivation fails when it is zero. */
  function DecayDenominator(fs: nat, decayMs: real): real
  {
    decayMs / 1000.0 * fs as real
  }

  /** Every gate can derive its feedback gain. */
  ghost predicate AllDerivable(fs: nat, gates: seq<Gate>)
    requires AllReverbGates(gates)
  {
    forall i :: 0 <= i < |gates| ==> DecayDenominator(fs, gates[i].decayMs) != 0.0
  }

  /** The sum of the gates' reverberators, in gate order; it fails as soon
      as one gate's feedback-gain derivation divides by zero. */
  function ReverbSum(x: seq<real>, fs: nat, gates: seq<Gate>, pow10: real -> real): (r: Result<seq<real>>)
    requires AllReverbGates(gates)
    ensures r.Ok? ==> |r.value| == |x|
    ensures r.Ok? <==> AllDerivable(fs, gates)
    ensures r.Err? ==> r.error == ZeroDivision
    decreases |gates|
  {
    if gates == [] then Ok(Zeros(|x|))
    else
      var front := gates[..|gates| - 1];
      var last := gates[|gates| - 1];
      assert forall i :: 0 <= i < |front| ==> front[i] == gates[i];
      assert AllDerivable(fs, gates) <==>
             AllDerivable(fs, front) && DecayDenominator(fs, last.decayMs) != 0.0;
      var frontSum := ReverbSum(x, fs, front, pow10);
      if frontSum.Err? then Err(frontSum.error)
      else
        var reverb := Schroeder(x, fs, last.decayMs, GateGain(last.gainDb, pow10), pow10);
        if reverb.Err? then Err(reverb.error)
        else Ok(Add(frontSum.value, reverb.value))
  }

  /** `int(sample_rate * (max_decay_ms / 1000.0) * tail_factor)`. */
  function ReverbTail(fs: nat, gates: seq<Gate>, tailFactor: real): (t: nat)
    requires |gates| > 0 && ReverbGates(gates) && tailFactor >= 0.0
  {
    var m := MaxDecay(gates);
    MulMonotone(fs as real, 0.0, m / 1000.0);
    MulMonotone(fs as real * (m / 1000.0), 0.0, tailFactor);
    Trunc(fs as real * (m / 1000.0) * tailFactor)
  }

  /** The buffer before normalisation: dry prefix plus the reverb sum over
      the first |x| samples, silence in the tail. */
  function ReverbMix(x: seq<real>, dry: real, wet: seq<real>, total: nat): (y: seq<real>)
    requires |wet| == |x| <= total
  {
    seq(total, n requires 0 <= n < total => DryAt(x, dry, n) + if n < |x| then wet[n] else 0.0)
  }

  /** `apply_multi_instance_reverb`. The output has room for the input plus
      a tail of `tail_factor` times the longest decay, but every reverberator
      is only as long as the input, so the tail stays silent; the whole buffer
      is peak-normalised. An empty gate list fails in `max()`, and an empty
      buffer fails in `np.max`. */
  function MultiInstanceReverb(x: seq<real>, fs: nat, gates: seq<Gate>, dry: real, tailFactor: real,
                               pow10: real -> real): (r: Result<seq<real>>)
    requires ReverbGates(gates) && tailFactor >= 0.0
    ensures gates == [] <==> r == Err(EmptyMax)
    ensures r.Ok? ==> |gates| > 0 && |r.value| == |x| + ReverbTail(fs, gates, tailFactor)
    ensures r.Ok? ==> |r.value| > 0 && Peak(r.value) <= 1.0
    ensures r.Ok? ==> forall n :: |x| <= n < |r.value| ==> r.value[n] == 0.0
    ensures r.Err? && gates != [] ==> r.error != EmptyMax
  {
    if gates == [] then Err(EmptyMax)
    else
      var total := |x| + ReverbTail(fs, gates, tailFactor);
      match ReverbSum(x, fs, gates, pow10)
      case Err(e) => Err(e)
      case Ok(wet) =>
        if total == 0 then Err(EmptyReduction)
        else
          var raw := ReverbMix(x, dry, wet, total);
          NormalizedKeepsSilentTail(raw, |x|);
          Ok(Normalized(raw))
  }

  /** Within the input's span, an output sample is the dry sample plus the
      gates' reverberations at that sample, all divided by one common factor:
      the peak of the unnormalised buffer when it exceeds 1, otherwise 1. */
  lemma {:induction false} MultiInstanceReverbPrefix(x: seq<real>, fs: nat, gates: seq<Gate>, dry: real, tailFactor: real,
                                  pow10: real -> real, r: seq<real>, n: nat)
    requires ReverbGates(gates) && tailFactor >= 0.0 && n < |x|
    requires MultiInstanceReverb(x, fs, gates, dry, tailFactor, pow10) == Ok(r)
    ensures ReverbSum(x, fs, gates, pow10).Ok?
    ensures var sum := ReverbSum(x, fs, gates, pow10).value;
            var raw := ReverbMix(x, dry, sum, |x| + ReverbTail(fs, gates, tailFactor));
            r[n] == raw[n] / NormFactor(raw) && raw[n] == DryAt(x, dry, n) + sum[n]
  {
    MultiInstanceReverbIsNormalizedMix(x, fs, gates, dry, tailFactor, pow10);
    var sum := ReverbSum(x, fs, gates, pow10).value;
    var raw := ReverbMix(x, dry, sum, |x| + ReverbTail(fs, gates, tailFactor));
    assert r == Normalized(raw);
    NormalizedSample(raw, n);
    ReverbMixAt(x, dry, sum, |x| + ReverbTail(fs, gates, tailFactor), n);
  }

  /** A successful reverb is the normalised mix of the dry signal and the
      gates' reverberations. */
  lemma {:induction false} MultiInstanceReverbIsNormalizedMix(x: seq<real>, fs: nat, gates: seq<Gate>, dry: real,
                                                              tailFactor: real, pow10: real -> real)
    requires ReverbGates(gates) && tailFactor >= 0.0
    requires MultiInstanceReverb(x, fs, gates, dry, tailFactor, pow10).Ok?
    ensures |gates| > 0 && ReverbSum(x, fs, gates, pow10).Ok? && |x| + ReverbTail(fs, gates, tailFactor) > 0
    ensures MultiInstanceReverb(x, fs, gates, dry, tailFactor, pow10).value
         == Normalized(ReverbMix(x, dry, ReverbSum(x, fs, gates, pow10).value, |x| + ReverbTail(fs, gates, tailFactor)))
  {
    MultiInstanceReverbUnfold(x, fs, gates, dry, tailFactor, pow10);
  }

  /** Sample n of the mix inside the input's span. */
  lemma {:induction false} ReverbMixAt(x: seq<real>, dry: real, wet: seq<real>, total: nat, n: nat)
    requires |wet| == |x| <= total && n < |x|
    ensures ReverbMix(x, dry, wet, total)[n] == DryAt(x, dry, n) + wet[n]
  {
  }

  /** The imperative mixer: zeroed buffer, dry prefix, one reverberator per
      gate, then the peak normaliser. */
  method ApplyMultiInstanceReverb(x: seq<real>, fs: nat, gates: seq<Gate>, dry: real, tailFactor: real,
                                  pow10: real -> real) returns (r: Result<seq<real>>)
    requires ReverbGates(gates) && tailFactor >= 0.0
    ensures r == MultiInstanceReverb(x, fs, gates, dry, tailFactor, pow10)
  {
    if |gates| == 0 {
      return Err(EmptyMax);
    }
    var output, failed := ReverbBuffer(x, fs, gates, dry, tailFactor, pow10);
    MultiInstanceReverbUnfold(x, fs, gates, dry, tailFactor, pow10);
    if failed {
      return Err(ZeroDivision);
    }
    if output.Length == 0 {
      return Err(EmptyReduction);
    }
    ghost var raw := output[..];
    assert raw == ReverbMix(x, dry, ReverbSum(x, fs, gates, pow10).value, |x| + ReverbTail(fs, gates, tailFactor));
    NormalizeInPlace(output);
    assert output[..] == Normalized(raw);
    return Ok(output[..]);
  }

  /** The buffer the reverberators are mixed into: room for the input plus
      the tail, the dry slice, then every gate's reverberator. */
  method ReverbBuffer(x: seq<real>, fs: nat, gates: seq<Gate>, dry: real, tailFactor: real,
                      pow10: real -> real) returns (output: array<real>, failed: bool)
    requires ReverbGates(gates) && tailFactor >= 0.0 && |gates| > 0
    ensures fresh(output)
    ensures output.Length == |x| + ReverbTail(fs, gates, tailFactor)
    ensures failed <==> !AllDerivable(fs, gates)
    ensures !failed ==> output[..] == ReverbMix(x, dry, ReverbSum(x, fs, gates, pow10).value, output.Length)
  {
    var tail := ReverbTail(fs, gates, tailFactor);
    output := DryBuffer(x, dry, |x| + tail);
    failed := AddGateReverbs(output, x, fs, gates, dry, pow10);
  }

  /** The definition of `MultiInstanceReverb` for a non-empty gate list, as
      one equation. */
  lemma {:induction false} MultiInstanceReverbUnfold(x: seq<real>, fs: nat, gates: seq<Gate>, dry: real, tailFactor: real,
                                  pow10: real -> real)
    requires ReverbGates(gates) && tailFactor >= 0.0 && |gates| > 0
    ensures var total := |x| + ReverbTail(fs, gates, tailFactor);
            var sum := ReverbSum(x, fs, gates, pow10);
            MultiInstanceReverb(x, fs, gates, dry, tailFactor, pow10)
            == if sum.Err? then Err(ZeroDivision)
               else if total == 0 then Err(EmptyReduction)
               else Ok(Normalized(ReverbMix(x, dry, sum.value, total)))
  {
  }

  /** The loop over the gates: each gate's reverberator, driven at its
      clipped gain, is added over `min(len(reverb), total)` samples. It stops
      at the first gate whose feedback gain cannot be derived. */
  method AddGateReverbs(output: array<real>, x: seq<real>, fs: nat, gates: seq<Gate>, dry: real,
                        pow10: real -> real) returns (failed: bool)
    requires AllReverbGates(gates)
    requires |x| <= output.Length
    requires forall n :: 0 <= n < output.Length ==> output[n] == DryAt(x, dry, n)
    modifies output
    ensures failed <==> !AllDerivable(fs, gates)
    ensures !failed ==> output[..] == ReverbMix(x, dry, ReverbSum(x, fs, gates, pow10).value, output.Length)
  {
    ghost var wet := Zeros(|x|);
    for k := 0 to |gates|
      invariant |wet| == |x|
      invariant ReverbSum(x, fs, gates[..k], pow10) == Ok(wet)
      invariant forall n :: 0 <= n < output.Length ==> output[n] == DryAt(x, dry, n) + if n < |x| then wet[n] else 0.0
    {
      assert gates[..k + 1][..k] == gates[..k];
      var linearGain := GateGain(gates[k].gainDb, pow10);
      var reverb := SchroederReverb(x, fs, gates[k].decayMs, linearGain, pow10);
      if reverb.Err? {
        assert DecayDenominator(fs, gates[k].decayMs) == 0.0;
        return true;
      }
      var endIdx := if |reverb.value| < output.Length then |reverb.value| else output.Length;
      forall n | 0 <= n < endIdx {
        output[n] := output[n] + reverb.value[n];
      }
      wet := Add(wet, reverb.value);
    }
    assert gates[..|gates|] == gates;
    ghost var raw := ReverbMix(x, dry, wet, output.Length);
    assert forall n :: 0 <= n < output.Length ==> output[n] == raw[n];
    assert output[..] == raw;
    failed := false;
  }
}
