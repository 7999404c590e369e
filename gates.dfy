/** Gates: the control points of both effects, and the per-tap arithmetic the
    delay engines share (the largest tap time, the sample shift of a tap, one
    tap's shifted copy of the input, the dry term). */
module Gates {
  import opened Numerics

  /** One gate. In delay mode it is an echo `{time_ms, gain_db}`; in reverb
      mode one reverberator `{decay_ms, gain_db}`. The Python code keeps these
      as dicts; a dict of the wrong shape raises KeyError where it is read. */
  datatype Gate =
    | DelayGate(timeMs: real, gainDb: real)
    | ReverbGate(decayMs: real, gainDb: real)

  /** Gates a delay engine accepts: echoes with non-negative times. */
  ghost predicate DelayTaps(taps: seq<Gate>)
  {
    forall g | g in taps :: g.DelayGate? && g.timeMs >= 0.0
  }

  /** Every gate is an echo, so reading `time_ms` raises no KeyError. */
  predicate AllDelayGates(taps: seq<Gate>)
  {
    forall g | g in taps :: g.DelayGate?
  }

  /** Gates the reverb engine accepts: reverberators with non-negative decays. */
  ghost predicate ReverbGates(gates: seq<Gate>)
  {
    forall g | g in gates :: g.ReverbGate? && g.decayMs >= 0.0
  }

  /** Every gate is a reverberator, so reading `decay_ms` raises no KeyError. */
  predicate AllReverbGates(gates: seq<Gate>)
  {
    forall g | g in gates :: g.ReverbGate?
  }

  /** `max([tap['time_ms'] for tap in taps])`. */
  function MaxTime(taps: seq<Gate>): (m: real)
    requires |taps| > 0 && AllDelayGates(taps)
    ensures forall i :: 0 <= i < |taps| ==> taps[i].timeMs <= m
    ensures exists i :: 0 <= i < |taps| && taps[i].timeMs == m
    decreases |taps|
  {
    if |taps| == 1 then taps[0].timeMs
    else
      var front := MaxTime(taps[..|taps| - 1]);
      assert forall i :: 0 <= i < |taps| - 1 ==> taps[..|taps| - 1][i] == taps[i];
      Max(front, taps[|taps| - 1].timeMs)
  }

  /** The maximum depends only on which taps there are, not their order. */
  lemma {:induction false} MaxTimePermutation(a: seq<Gate>, b: seq<Gate>)
    requires |a| > 0 && AllDelayGates(a)
    requires multiset(a) == multiset(b)
    ensures |b| > 0 && AllDelayGates(b)
    ensures MaxTime(a) == MaxTime(b)
  {
    assert |b| == |multiset(b)| == |multiset(a)| == |a|;
    forall i | 0 <= i < |b|
      ensures b[i] in a
    {
      assert b[i] in multiset(b);
    }
    var ka :| 0 <= ka < |a| && a[ka].timeMs == MaxTime(a);
    var kb :| 0 <= kb < |b| && b[kb].timeMs == MaxTime(b);
    assert a[ka] in multiset(b);
    assert b[kb] in multiset(a);
  }

  /** The latest of non-negative tap times is non-negative. */
  lemma {:induction false} MaxTimeNonNegative(taps: seq<Gate>)
    requires |taps| > 0 && DelayTaps(taps)
    ensures MaxTime(taps) >= 0.0
  {
    assert taps[0] in taps;
  }

  /** `max([gate['decay_ms'] for gate in reverb_gates])`. */
  function MaxDecay(gates: seq<Gate>): (m: real)
    requires |gates| > 0 && AllReverbGates(gates)
    ensures forall i :: 0 <= i < |gates| ==> gates[i].decayMs <= m
    ensures exists i :: 0 <= i < |gates| && gates[i].decayMs == m
    decreases |gates|
  {
    if |gates| == 1 then gates[0].decayMs
    else
      var front := MaxDecay(gates[..|gates| - 1]);
      assert forall i :: 0 <= i < |gates| - 1 ==> gates[..|gates| - 1][i] == gates[i];
      Max(front, gates[|gates| - 1].decayMs)
  }

  /** `int(sample_rate * (time_ms / 1000.0))`: where a tap's copy starts. */
  function TapShift(fs: nat, timeMs: real): (s: int)
    ensures timeMs >= 0.0 ==> 0 <= s && s as real <= fs as real * (timeMs / 1000.0)
  {
    Trunc(fs as real * (timeMs / 1000.0))
  }

  /** A later tap never starts earlier. */
  lemma {:induction false} TapShiftMonotone(fs: nat, t: real, u: real)
    requires 0.0 <= t <= u
    ensures TapShift(fs, t) <= TapShift(fs, u)
  {
    MulMonotone(fs as real, t / 1000.0, u / 1000.0);
    TruncMonotone(fs as real * (t / 1000.0), fs as real * (u / 1000.0));
  }

  /** Sample n of the slice `output[shift:shift+len(x)] += x * gain`, taken
      alone: the tap's shifted, scaled copy of the input, zero outside it. */
  function Echo(x: seq<real>, shift: int, gain: real, n: int): (e: real)
    ensures !(shift <= n < shift + |x|) ==> e == 0.0
    ensures shift <= n < shift + |x| ==> e == x[n - shift] * gain
  {
    if shift <= n < shift + |x| then x[n - shift] * gain else 0.0
  }

  /** Sample n of `output[:len(x)] += x * dry_mix` on a zeroed buffer. */
  function DryAt(x: seq<real>, dry: real, n: int): (d: real)
    ensures 0 <= n < |x| ==> d == x[n] * dry
    ensures !(0 <= n < |x|) ==> d == 0.0
  {
    if 0 <= n < |x| then x[n] * dry else 0.0
  }

  /** `10**(gain_db / 20)`. */
  function LinearGain(gainDb: real, pow10: real -> real): real
  {
    pow10(gainDb / 20.0)
  }

  /** One tap's contribution to output sample n. */
  function TapEcho(x: seq<real>, fs: nat, tap: Gate, pow10: real -> real, n: int): real
    requires tap.DelayGate?
  {
    Echo(x, TapShift(fs, tap.timeMs), LinearGain(tap.gainDb, pow10), n)
  }

  /** The taps' contributions to output sample n, added in list order. */
  function TapSum(x: seq<real>, fs: nat, taps: seq<Gate>, pow10: real -> real, n: int): real
    requires AllDelayGates(taps)
    decreases |taps|
  {
    if taps == [] then 0.0
    else TapSum(x, fs, taps[..|taps| - 1], pow10, n) + TapEcho(x, fs, taps[|taps| - 1], pow10, n)
  }

  /** Adding the next tap of the list adds its echo. */
  lemma {:induction false} TapSumStep(x: seq<real>, fs: nat, taps: seq<Gate>, pow10: real -> real, i: nat, n: int)
    requires AllDelayGates(taps) && i < |taps|
    ensures TapSum(x, fs, taps[..i + 1], pow10, n)
         == TapSum(x, fs, taps[..i], pow10, n) + TapEcho(x, fs, taps[i], pow10, n)
  {
    assert taps[..i + 1][..i] == taps[..i];
  }

  /** `np.zeros(total)` followed by `output[:len(x)] += x * dry_mix`. */
  method DryBuffer(x: seq<real>, dry: real, total: nat) returns (output: array<real>)
    requires |x| <= total
    ensures fresh(output) && output.Length == total
    ensures forall n :: 0 <= n < total ==> output[n] == DryAt(x, dry, n)
  {
    output := new real[total](_ => 0.0);
    forall n | 0 <= n < |x| {
      output[n] := output[n] + x[n] * dry;
    }
  }

  /** `output[start:start+len(x)] += x * gain`. */
  method AddEcho(output: array<real>, x: seq<real>, start: int, gain: real)
    requires 0 <= start && start + |x| <= output.Length
    modifies output
    ensures forall n :: 0 <= n < output.Length ==> output[n] == old(output[n]) + Echo(x, start, gain, n)
  {
    forall n | start <= n < start + |x| {
      output[n] := output[n] + x[n - start] * gain;
    }
  }
}
