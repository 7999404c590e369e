/** The plugin facade: the half-second multi-tap delay, the delay-mode Figma
    mapping, and the `FushimiInAiry` object that holds a mode, a list of gates
    and the mix settings and hands audio to the delay or the reverb engine. */
module FushimiPlugin {
  import opened Numerics
  import opened Signal
  import opened Gates
  import opened Figma
  import opened FigmaReverb
  import opened ReverbEngine

  // ---------------------------------------------------------------------------
  // The multi-tap delay

  /** `int(fs * (max_delay_ms / 1000.0) + (fs * 0.5))`: room for the latest
      tap plus half a second. */
  function HalfSecondTail(fs: nat, maxTimeMs: real): (t: int)
    ensures maxTimeMs >= 0.0 ==> t >= 0
  {
    Trunc(fs as real * (maxTimeMs / 1000.0) + fs as real * 0.5)
  }

  /** The output buffer before normalisation: dry input plus every echo. */
  function DelayMix(x: seq<real>, fs: nat, taps: seq<Gate>, dry: real, pow10: real -> real,
                    total: nat): (y: seq<real>)
    requires AllDelayGates(taps)
    ensures |y| == total
  {
    seq(total, n requires 0 <= n < total => DryAt(x, dry, n) + TapSum(x, fs, taps, pow10, n))
  }

  /** `apply_multi_tap_delay`: the input at `dry_mix`, each tap's copy shifted
      by its time and scaled by its gain, then divided by the peak if that
      exceeds 1. An empty tap list raises in `max`; an empty buffer in `np.max`. */
  function MultiTapDelay(x: seq<real>, fs: nat, taps: seq<Gate>, dry: real,
                         pow10: real -> real): (r: Result<seq<real>>)
    requires DelayTaps(taps)
    ensures taps == [] <==> r == Err(EmptyMax)
    ensures r.Err? && taps != [] ==> r.error == EmptyReduction && |x| == 0
    ensures r.Ok? ==> |r.value| == |x| + HalfSecondTail(fs, MaxTime(taps))
    ensures r.Ok? ==> |r.value| > 0 && Peak(r.value) <= 1.0
  {
    if taps == [] then Err(EmptyMax)
    else
      MaxTimeNonNegative(taps);
      var total := |x| + HalfSecondTail(fs, MaxTime(taps));
      if total == 0 then Err(EmptyReduction)
      else Ok(Normalized(DelayMix(x, fs, taps, dry, pow10, total)))
  }

  /** Every tap's copy fits in the buffer: none starts before sample 0 and
      none runs past the end, so no slice of the loop is ever cut short. */
  lemma {:induction false} HalfSecondTapsFit(xLen: nat, fs: nat, taps: seq<Gate>, tap: Gate)
    requires DelayTaps(taps) && tap in taps
    ensures 0 <= TapShift(fs, tap.timeMs)
    ensures TapShift(fs, tap.timeMs) + xLen <= xLen + HalfSecondTail(fs, MaxTime(taps))
  {
    var k :| 0 <= k < |taps| && taps[k] == tap;
    ShiftWithinTail(fs, tap.timeMs, MaxTime(taps));
  }

  lemma {:induction false} ShiftWithinTail(fs: nat, t: real, m: real)
    requires 0.0 <= t <= m
    ensures TapShift(fs, t) <= HalfSecondTail(fs, m)
  {
    var a := fs as real * (t / 1000.0);
    var b := fs as real * (m / 1000.0);
    MulMonotone(fs as real, t / 1000.0, m / 1000.0);
    assert a <= b + fs as real * 0.5;
    TruncMonotone(a, b + fs as real * 0.5);
  }

  /** `apply_multi_tap_delay` as written: a zeroed buffer, the dry slice,
      one slice addition per tap, then the peak normaliser. */
  method ApplyMultiTapDelay(x: seq<real>, fs: nat, taps: seq<Gate>, dry: real,
                            pow10: real -> real) returns (r: Result<seq<real>>)
    requires DelayTaps(taps)
    ensures r == MultiTapDelay(x, fs, taps, dry, pow10)
  {
    if taps == [] {
      return Err(EmptyMax);
    }
    var output := DelayBuffer(x, fs, taps, dry, pow10);
    MultiTapDelayUnfold(x, fs, taps, dry, pow10);
    if output.Length == 0 {
      return Err(EmptyReduction);
    }
    NormalizeInPlace(output);
    return Ok(output[..]);
  }

  /** The buffer the taps are mixed into: room for the latest tap plus half a
      second, the dry slice, then every tap's copy. */
  method DelayBuffer(x: seq<real>, fs: nat, taps: seq<Gate>, dry: real, pow10: real -> real)
    returns (output: array<real>)
    requires DelayTaps(taps) && |taps| > 0
    ensures fresh(output)
    ensures output.Length == |x| + HalfSecondTail(fs, MaxTime(taps))
    ensures output[..] == DelayMix(x, fs, taps, dry, pow10, output.Length)
  {
    var maxDelayMs := MaxTime(taps);
    MaxTimeNonNegative(taps);
    var total := |x| + HalfSecondTail(fs, maxDelayMs);
    output := DryBuffer(x, dry, total);
    AddTaps(output, x, fs, taps, dry, pow10);
  }

  /** The definition of `MultiTapDelay` for a non-empty tap list, as one equation. */
  lemma {:induction false} MultiTapDelayUnfold(x: seq<real>, fs: nat, taps: seq<Gate>, dry: real, pow10: real -> real)
    requires DelayTaps(taps) && |taps| > 0
    ensures var total := |x| + HalfSecondTail(fs, MaxTime(taps));
            total >= 0
            && MultiTapDelay(x, fs, taps, dry, pow10)
               == if total == 0 then Err(EmptyReduction)
                  else Ok(Normalized(DelayMix(x, fs, taps, dry, pow10, total)))
  {
    MaxTimeNonNegative(taps);
  }

  /** The loop over the taps. */
  method AddTaps(output: array<real>, x: seq<real>, fs: nat, taps: seq<Gate>, dry: real,
                 pow10: real -> real)
    requires DelayTaps(taps) && |taps| > 0
    requires output.Length == |x| + HalfSecondTail(fs, MaxTime(taps))
    requires forall n :: 0 <= n < output.Length ==> output[n] == DryAt(x, dry, n)
    modifies output
    ensures output[..] == DelayMix(x, fs, taps, dry, pow10, output.Length)
  {
    for i := 0 to |taps|
      invariant forall n :: 0 <= n < output.Length ==>
                  output[n] == DryAt(x, dry, n) + TapSum(x, fs, taps[..i], pow10, n)
    {
      AddTap(output, x, fs, taps, dry, pow10, i);
    }
    assert taps[..|taps|] == taps;
  }

  /** One pass of the loop: tap i's copy added in place. */
  method AddTap(output: array<real>, x: seq<real>, fs: nat, taps: seq<Gate>, dry: real,
                pow10: real -> real, i: nat)
    requires DelayTaps(taps) && i < |taps|
    requires output.Length == |x| + HalfSecondTail(fs, MaxTime(taps))
    requires forall n :: 0 <= n < output.Length ==>
               output[n] == DryAt(x, dry, n) + TapSum(x, fs, taps[..i], pow10, n)
    modifies output
    ensures forall n :: 0 <= n < output.Length ==>
              output[n] == DryAt(x, dry, n) + TapSum(x, fs, taps[..i + 1], pow10, n)
  {
    var tap := taps[i];
    var gain := pow10(tap.gainDb / 20.0);
    var start := TapShift(fs, tap.timeMs);
    HalfSecondTapsFit(|x|, fs, taps, tap);
    AddEcho(output, x, start, gain);
    forall n | 0 <= n < output.Length
      ensures output[n] == DryAt(x, dry, n) + TapSum(x, fs, taps[..i + 1], pow10, n)
    {
      TapSumStep(x, fs, taps, pow10, i, n);
    }
  }

  /** Removing one tap from the list removes exactly its echo from the sum. */
  lemma {:induction false} TapSumRemove(x: seq<real>, fs: nat, taps: seq<Gate>, pow10: real -> real,
                                        n: int, j: nat)
    requires AllDelayGates(taps) && j < |taps|
    ensures AllDelayGates(taps[..j] + taps[j + 1..])
    ensures TapSum(x, fs, taps, pow10, n)
         == TapSum(x, fs, taps[..j] + taps[j + 1..], pow10, n) + TapEcho(x, fs, taps[j], pow10, n)
    decreases |taps|
  {
    var last := |taps| - 1;
    var front := taps[..last];
    var rest := taps[..j] + taps[j + 1..];
    forall g | g in rest
      ensures g in taps
    {
      if g in taps[..j] {
        var i :| 0 <= i < j && taps[..j][i] == g;
        assert taps[i] == g;
      } else {
        var i :| 0 <= i < |taps[j + 1..]| && taps[j + 1..][i] == g;
        assert taps[j + 1 + i] == g;
      }
    }
    if j == last {
      assert rest == front;
    } else {
      TapSumRemove(x, fs, front, pow10, n, j);
      assert front[j] == taps[j];
      assert rest[..|rest| - 1] == front[..j] + front[j + 1..];
      assert rest[|rest| - 1] == taps[last];
    }
  }

  /** The taps' sum does not depend on their order. */
  lemma {:induction false} TapSumPermutation(x: seq<real>, fs: nat, a: seq<Gate>, b: seq<Gate>,
                                             pow10: real -> real, n: int)
    requires AllDelayGates(a) && multiset(a) == multiset(b)
    ensures AllDelayGates(b)
    ensures TapSum(x, fs, a, pow10, n) == TapSum(x, fs, b, pow10, n)
    decreases |a|
  {
    SameMembers(a, b);
    if a != [] {
      var last := a[|a| - 1];
      var front := a[..|a| - 1];
      assert last in multiset(b);
      var j :| 0 <= j < |b| && b[j] == last;
      RemoveAt(a, |a| - 1);
      RemoveAt(b, j);
      assert a[..|a| - 1] + a[|a|..] == front;
      TapSumPermutation(x, fs, front, b[..j] + b[j + 1..], pow10, n);
      TapSumRemove(x, fs, b, pow10, n, j);
    }
  }

  /** Lists with the same elements have the same members. */
  lemma {:induction false} SameMembers<T>(a: seq<T>, b: seq<T>)
    requires multiset(a) == multiset(b)
    ensures |a| == |b|
    ensures forall g | g in b :: g in a
  {
    assert |a| == |multiset(a)| == |multiset(b)| == |b|;
    forall g | g in b
      ensures g in a
    {
      assert g in multiset(b);
    }
  }

  /** Dropping one element from a list drops it from its multiset. */
  lemma {:induction false} RemoveAt<T>(s: seq<T>, j: nat)
    requires j < |s|
    ensures multiset(s[..j] + s[j + 1..]) == multiset(s) - multiset{s[j]}
  {
    assert s == s[..j] + [s[j]] + s[j + 1..];
  }

  /** The delay does not depend on the order in which the taps are listed. */
  lemma {:induction false} TapOrderIrrelevant(x: seq<real>, fs: nat, a: seq<Gate>, b: seq<Gate>, dry: real,
                                              pow10: real -> real)
    requires DelayTaps(a) && multiset(a) == multiset(b)
    ensures DelayTaps(b)
    ensures MultiTapDelay(x, fs, a, dry, pow10) == MultiTapDelay(x, fs, b, dry, pow10)
  {
    SameMembers(a, b);
    if a != [] {
      MaxTimePermutation(a, b);
      var total := |x| + HalfSecondTail(fs, MaxTime(a));
      DelayMixPermutation(x, fs, a, b, dry, pow10, total);
      MultiTapDelayUnfold(x, fs, a, dry, pow10);
      MultiTapDelayUnfold(x, fs, b, dry, pow10);
    }
  }

  lemma {:induction false} DelayMixPermutation(x: seq<real>, fs: nat, a: seq<Gate>, b: seq<Gate>, dry: real,
                                               pow10: real -> real, total: nat)
    requires AllDelayGates(a) && multiset(a) == multiset(b)
    ensures AllDelayGates(b)
    ensures DelayMix(x, fs, a, dry, pow10, total) == DelayMix(x, fs, b, dry, pow10, total)
  {
    SameMembers(a, b);
    forall n | 0 <= n < total
      ensures TapSum(x, fs, a, pow10, n) == TapSum(x, fs, b, pow10, n)
    {
      TapSumPermutation(x, fs, a, b, pow10, n);
    }
  }

  /** Before a tap's time its echo contributes nothing. */
  lemma {:induction false} TapSumBeforeEveryTap(x: seq<real>, fs: nat, taps: seq<Gate>,
                                                pow10: real -> real, n: int)
    requires AllDelayGates(taps)
    requires forall g | g in taps :: n < TapShift(fs, g.timeMs)
    ensures TapSum(x, fs, taps, pow10, n) == 0.0
    decreases |taps|
  {
    if taps != [] {
      assert taps[|taps| - 1] in taps;
      TapSumBeforeEveryTap(x, fs, taps[..|taps| - 1], pow10, n);
    }
  }

  /** A silent input gives silent echoes. */
  lemma {:induction false} TapSumOfSilence(x: seq<real>, fs: nat, taps: seq<Gate>,
                                           pow10: real -> real, n: int)
    requires AllDelayGates(taps)
    requires forall i :: 0 <= i < |x| ==> x[i] == 0.0
    ensures TapSum(x, fs, taps, pow10, n) == 0.0
    decreases |taps|
  {
    if taps != [] {
      TapSumOfSilence(x, fs, taps[..|taps| - 1], pow10, n);
    }
  }

  /** With the dry signal off, the output stays silent until the earliest tap. */
  lemma {:induction false} EchoesStartAtTheirTime(x: seq<real>, fs: nat, taps: seq<Gate>, pow10: real -> real, n: nat)
    requires DelayTaps(taps) && MultiTapDelay(x, fs, taps, 0.0, pow10).Ok?
    requires n < |MultiTapDelay(x, fs, taps, 0.0, pow10).value|
    requires forall g | g in taps :: n < TapShift(fs, g.timeMs)
    ensures MultiTapDelay(x, fs, taps, 0.0, pow10).value[n] == 0.0
  {
    var total := |x| + HalfSecondTail(fs, MaxTime(taps));
    var mix := DelayMix(x, fs, taps, 0.0, pow10, total);
    TapSumBeforeEveryTap(x, fs, taps, pow10, n);
    assert mix[n] == 0.0;
    NormalizedKeepsSilence(mix, n);
  }

  /** A silent input gives a silent output of the same extended length. */
  lemma {:induction false} SilenceInSilenceOut(x: seq<real>, fs: nat, taps: seq<Gate>, dry: real, pow10: real -> real)
    requires DelayTaps(taps) && MultiTapDelay(x, fs, taps, dry, pow10).Ok?
    requires forall i :: 0 <= i < |x| ==> x[i] == 0.0
    ensures forall n :: 0 <= n < |MultiTapDelay(x, fs, taps, dry, pow10).value| ==>
              MultiTapDelay(x, fs, taps, dry, pow10).value[n] == 0.0
  {
    var total := |x| + HalfSecondTail(fs, MaxTime(taps));
    var mix := DelayMix(x, fs, taps, dry, pow10, total);
    DelayMixOfSilence(x, fs, taps, dry, pow10, total);
    NormalizedKeepsSilentTail(mix, 0);
  }

  lemma {:induction false} DelayMixOfSilence(x: seq<real>, fs: nat, taps: seq<Gate>, dry: real,
                                             pow10: real -> real, total: nat)
    requires AllDelayGates(taps)
    requires forall i :: 0 <= i < |x| ==> x[i] == 0.0
    ensures forall n :: 0 <= n < total ==> DelayMix(x, fs, taps, dry, pow10, total)[n] == 0.0
  {
    forall n | 0 <= n < total
      ensures DelayMix(x, fs, taps, dry, pow10, total)[n] == 0.0
    {
      TapSumOfSilence(x, fs, taps, pow10, n);
    }
  }

  // ---------------------------------------------------------------------------
  // The delay-mode Figma mapping

  /** The defaults of `figma_to_delay_params`, the only values any caller uses. */
  const MaxTimeMs: real := 4000.0
  const DelayMaxGainDb: real := 3.5
  const DelayMinGainDb: real := -60.0
  const DelayVolumeScale: real := 150.0

  /** `figma_to_delay_params`: an echo whose time lies in 0..4000 ms and whose
      gain lies in -60..3.5 dB (0 % to 150 % of the dry level), or
      ZeroDivisionError for an empty frame. */
  function FigmaToDelayParams(x: real, y: real, width: real, height: real,
                              log10: real -> real): (r: Result<Gate>)
    ensures r.Err? <==> width == 0.0 || height == 0.0
    ensures r.Err? ==> r.error == ZeroDivision
    ensures r.Ok? ==> r.value.DelayGate?
                      && 0.0 <= r.value.timeMs <= MaxTimeMs
                      && DelayMinGainDb <= r.value.gainDb <= DelayMaxGainDb
  {
    var p := PositionToParams(x, y, width, height, MaxTimeMs, DelayVolumeScale,
                              DelayMinGainDb, DelayMaxGainDb, log10);
    if p.Err? then Err(p.error) else Ok(DelayGate(p.value.0, p.value.1))
  }

  /** Further right is a later echo; further down is a quieter echo. */
  lemma {:induction false} DelayGateMonotone(x1: real, y1: real, x2: real, y2: real, width: real, height: real,
                          log10: real -> real)
    requires 0.0 < width && 0.0 < height && x1 <= x2 && y1 <= y2 && Log10Monotone(log10)
    ensures FigmaToDelayParams(x1, y1, width, height, log10).value.timeMs
         <= FigmaToDelayParams(x2, y2, width, height, log10).value.timeMs
    ensures FigmaToDelayParams(x1, y1, width, height, log10).value.gainDb
         >= FigmaToDelayParams(x2, y2, width, height, log10).value.gainDb
  {
    TimeGrowsRightward(x1, x2, y1, y2, width, height, MaxTimeMs, DelayVolumeScale,
                       DelayMinGainDb, DelayMaxGainDb, log10);
    GainFallsDownward(x1, x2, y1, y2, width, height, MaxTimeMs, DelayVolumeScale,
                      DelayMinGainDb, DelayMaxGainDb, log10);
  }

  function DelayMapper(width: real, height: real, log10: real -> real): (real, real) -> Result<Gate>
  {
    (x, y) => FigmaToDelayParams(x, y, width, height, log10)
  }

  /** Layer names the facade's loader picks (no "Reverb" here, unlike the
      reverb module's own loader). */
  const GateKeywords: seq<string> := ["Torii", "Gate"]

  /** The mapper the facade's loader uses in a given mode: anything but
      'delay' is treated as reverb. */
  function ModeMapper(mode: string, width: real, height: real, log10: real -> real): (real, real) -> Result<Gate>
  {
    if mode == "delay" then DelayMapper(width, height, log10) else ReverbMapper(width, height, log10)
  }

  // ---------------------------------------------------------------------------
  // The plugin object

  /** Gate times and decays the engines accept. */
  ghost predicate NonNegativeTimes(gates: seq<Gate>)
  {
    forall g | g in gates :: (g.DelayGate? ==> g.timeMs >= 0.0) && (g.ReverbGate? ==> g.decayMs >= 0.0)
  }

  /** `process_audio` on the plugin's settings: the input unchanged when no
      gate is set, otherwise the current mode's engine followed by `* wet_mix`.
      A gate list of the other mode's shape raises KeyError in the engine. */
  function Processed(mode: string, gates: seq<Gate>, dry: real, wet: real, tailFactor: real,
                     x: seq<real>, fs: nat, pow10: real -> real): (r: Result<seq<real>>)
    requires tailFactor >= 0.0 && NonNegativeTimes(gates)
    ensures gates == [] ==> r == Ok(x)
    ensures gates != [] && mode == "delay" ==> (r == Err(MissingKey("time_ms")) <==> !AllDelayGates(gates))
    ensures gates != [] && mode != "delay" ==> (r == Err(MissingKey("decay_ms")) <==> !AllReverbGates(gates))
    ensures gates != [] && r.Ok? ==> |r.value| > 0 && Peak(r.value) <= Abs(wet)
  {
    if gates == [] then Ok(x)
    else
      var out :=
        if mode == "delay" then
          if !AllDelayGates(gates) then Err(MissingKey("time_ms"))
          else MultiTapDelay(x, fs, gates, dry, pow10)
        else
          if !AllReverbGates(gates) then Err(MissingKey("decay_ms"))
          else MultiInstanceReverb(x, fs, gates, dry, tailFactor, pow10);
      if out.Err? then out
      else
        WetPeak(out.value, wet);
        Ok(Scale(out.value, wet))
  }

  /** Modes `set_mode` accepts. */
  predicate IsMode(mode: string)
  {
    mode == "delay" || mode == "reverb"
  }

  class FushimiInAiry {
    var mode: string
    var gates: seq<Gate>
    var dryMix: real
    var wetMix: real
    var tailFactor: real

    /** `FushimiInAiry(mode)`: no gates, full dry and wet, tail factor 0.4.
        The mode is stored as given, without the check `set_mode` makes. */
    constructor (mode: string)
      ensures this.mode == mode && gates == []
      ensures dryMix == 1.0 && wetMix == 1.0 && tailFactor == 0.4
    {
      this.mode := mode;
      gates := [];
      dryMix := 1.0;
      wetMix := 1.0;
      tailFactor := 0.4;
    }

    /** `set_mode`: only 'delay' and 'reverb' are accepted; anything else
        raises ValueError and leaves the mode as it was. */
    method SetMode(newMode: string) returns (o: Outcome)
      modifies this
      ensures o == Pass <==> IsMode(newMode)
      ensures o.Fail? ==> o.error == InvalidMode(newMode)
      ensures mode == (if o == Pass then newMode else old(mode))
      ensures gates == old(gates) && dryMix == old(dryMix) && wetMix == old(wetMix)
      ensures tailFactor == old(tailFactor)
    {
      if !IsMode(newMode) {
        return Fail(InvalidMode(newMode));
      }
      mode := newMode;
      return Pass;
    }

    /** `load_gates_from_figma` on the already-parsed `layers` list: the gate
        list is cleared, then every layer named like a gate is mapped with the
        current mode's mapper and appended. If mapping raises, the list holds
        what was appended before, which is always nothing. */
    method LoadGatesFromFigma(layers: seq<Layer>, width: real, height: real, log10: real -> real)
      returns (r: Result<seq<Gate>>)
      modifies this
      ensures r == GatesFromLayers(layers, GateKeywords, ModeMapper(mode, width, height, log10))
      ensures gates == (if r.Ok? then r.value else [])
      ensures mode == old(mode) && dryMix == old(dryMix) && wetMix == old(wetMix)
      ensures tailFactor == old(tailFactor)
    {
      gates := [];
      for i := 0 to |layers|
        invariant GatesFromLayers(layers[..i], GateKeywords, ModeMapper(mode, width, height, log10)) == Ok(gates)
        invariant gates != [] ==> width != 0.0 && height != 0.0
        invariant mode == old(mode) && dryMix == old(dryMix) && wetMix == old(wetMix)
        invariant tailFactor == old(tailFactor)
      {
        var layer := layers[i];
        assert layers[..i + 1][..i] == layers[..i];
        if MatchesAny(NameOf(layer), GateKeywords) {
          var params;
          if mode == "delay" {
            params := FigmaToDelayParams(XOf(layer), YOf(layer), width, height, log10);
          } else {
            params := FigmaToReverbParams(XOf(layer), YOf(layer), width, height, log10);
          }
          if params.Err? {
            GatesFromLayersErrSticks(layers, i + 1, GateKeywords, ModeMapper(mode, width, height, log10));
            return Err(params.error);
          }
          gates := gates + [params.value];
        }
      }
      assert layers[..|layers|] == layers;
      return Ok(gates);
    }

    /** `set_gates_manual`. */
    method SetGatesManual(newGates: seq<Gate>)
      modifies this
      ensures gates == newGates
      ensures mode == old(mode) && dryMix == old(dryMix) && wetMix == old(wetMix)
      ensures tailFactor == old(tailFactor)
    {
      gates := newGates;
    }

    /** `process_audio`. */
    method ProcessAudio(x: seq<real>, fs: nat, pow10: real -> real) returns (r: Result<seq<real>>)
      requires tailFactor >= 0.0 && NonNegativeTimes(gates)
      ensures r == Processed(mode, gates, dryMix, wetMix, tailFactor, x, fs, pow10)
    {
      if |gates| == 0 {
        return Ok(x);
      }
      var output;
      if mode == "delay" {
        if !AllDelayGates(gates) {
          return Err(MissingKey("time_ms"));
        }
        output := ApplyMultiTapDelay(x, fs, gates, dryMix, pow10);
      } else {
        if !AllReverbGates(gates) {
          return Err(MissingKey("decay_ms"));
        }
        output := ApplyMultiInstanceReverb(x, fs, gates, dryMix, tailFactor, pow10);
      }
      if output.Err? {
        return output;
      }
      return Ok(Scale(output.value, wetMix));
    }
  }

  /** Gates loaded in a mode have that mode's shape, so processing in the same
      mode reads no missing key; loading fails only when a layer is picked and
      the frame is empty. */
  lemma {:induction false} LoadedGatesFitMode(mode: string, layers: seq<Layer>, width: real, height: real,
                           log10: real -> real)
    ensures var r := GatesFromLayers(layers, GateKeywords, ModeMapper(mode, width, height, log10));
            var k := Kept(layers, GateKeywords);
            (r.Err? <==> |k| > 0 && (width == 0.0 || height == 0.0))
            && (r.Ok? ==> |r.value| == |k| && NonNegativeTimes(r.value)
                          && (mode == "delay" ==> AllDelayGates(r.value))
                          && (mode != "delay" ==> AllReverbGates(r.value)))
  {
    var toGate := ModeMapper(mode, width, height, log10);
    GatesFromLayersSpec(layers, GateKeywords, toGate);
    var r := GatesFromLayers(layers, GateKeywords, toGate);
    var k := Kept(layers, GateKeywords);
    if |k| > 0 && (width == 0.0 || height == 0.0) {
      assert MapFails(toGate, k[0]);
    }
    if r.Err? {
      var i :| 0 <= i < |k| && MapFails(toGate, k[i]);
    }
    if r.Ok? {
      forall g | g in r.value
        ensures (mode == "delay" ==> g.DelayGate? && g.timeMs >= 0.0)
             && (mode != "delay" ==> g.ReverbGate? && g.decayMs >= 0.0)
      {
        var i :| 0 <= i < |r.value| && r.value[i] == g;
        assert toGate(XOf(k[i]), YOf(k[i])) == Ok(g);
      }
    }
  }
}
