/** The reverb-mode Figma mapping: x across the frame is the decay time
    (0 to 10 s), y down the frame lowers the volume from 100 % to 0 %, and the
    loader keeps every layer named like a torii gate or a reverb. */
module FigmaReverb {
  import opened Numerics
  import opened Signal
  import opened Gates
  import opened Figma

  /** The defaults of `figma_to_reverb_params`, the only values any caller uses. */
  const MaxDecayMs: real := 10000.0
  const MaxGainDb: real := 0.0
  const MinGainDb: real := -60.0
  const ReverbVolumeScale: real := 100.0

  /** Layer names the reverb loader picks. */
  const ReverbKeywords: seq<string> := ["Torii", "Gate", "Reverb"]

  /** `figma_to_reverb_params`: a reverb gate whose decay lies in 0..10000 ms
      and whose gain lies in -60..0 dB, or ZeroDivisionError for an empty frame. */
  function FigmaToReverbParams(x: real, y: real, width: real, height: real,
                               log10: real -> real): (r: Result<Gate>)
    ensures r.Err? <==> width == 0.0 || height == 0.0
    ensures r.Err? ==> r.error == ZeroDivision
    ensures r.Ok? ==> r.value.ReverbGate?
                      && 0.0 <= r.value.decayMs <= MaxDecayMs
                      && MinGainDb <= r.value.gainDb <= MaxGainDb
  {
    var p := PositionToParams(x, y, width, height, MaxDecayMs, ReverbVolumeScale,
                              MinGainDb, MaxGainDb, log10);
    if p.Err? then Err(p.error) else Ok(ReverbGate(p.value.0, p.value.1))
  }

  /** The mapper with the frame fixed, as the loader applies it to each layer. */
  function ReverbMapper(width: real, height: real, log10: real -> real): (real, real) -> Result<Gate>
  {
    (x, y) => FigmaToReverbParams(x, y, width, height, log10)
  }

  /** Further right is a longer decay; further down is a quieter gate. */
  lemma {:induction false} ReverbGateMonotone(x1: real, y1: real, x2: real, y2: real, width: real, height: real,
                           log10: real -> real)
    requires 0.0 < width && 0.0 < height && x1 <= x2 && y1 <= y2 && Log10Monotone(log10)
    ensures FigmaToReverbParams(x1, y1, width, height, log10).value.decayMs
         <= FigmaToReverbParams(x2, y2, width, height, log10).value.decayMs
    ensures FigmaToReverbParams(x1, y1, width, height, log10).value.gainDb
         >= FigmaToReverbParams(x2, y2, width, height, log10).value.gainDb
  {
    TimeGrowsRightward(x1, x2, y1, y2, width, height, MaxDecayMs, ReverbVolumeScale,
                       MinGainDb, MaxGainDb, log10);
    GainFallsDownward(x1, x2, y1, y2, width, height, MaxDecayMs, ReverbVolumeScale,
                      MinGainDb, MaxGainDb, log10);
  }

  /** `load_reverb_gates_from_figma` on the already-parsed `layers` list. */
  method LoadReverbGatesFromFigma(layers: seq<Layer>, width: real, height: real,
                                  log10: real -> real) returns (r: Result<seq<Gate>>)
    ensures r == GatesFromLayers(layers, ReverbKeywords, ReverbMapper(width, height, log10))
  {
    var reverbGates: seq<Gate> := [];
    for i := 0 to |layers|
      invariant GatesFromLayers(layers[..i], ReverbKeywords, ReverbMapper(width, height, log10)) == Ok(reverbGates)
    {
      var layer := layers[i];
      assert layers[..i + 1][..i] == layers[..i];
      if MatchesAny(NameOf(layer), ReverbKeywords) {
        var params := FigmaToReverbParams(XOf(layer), YOf(layer), width, height, log10);
        if params.Err? {
          GatesFromLayersErrSticks(layers, i + 1, ReverbKeywords, ReverbMapper(width, height, log10));
          return Err(params.error);
        }
        reverbGates := reverbGates + [params.value];
      }
    }
    assert layers[..|layers|] == layers;
    return Ok(reverbGates);
  }

  /** What the reverb loader yields: one in-range reverb gate per kept layer,
      in file order; it fails only when a layer is kept and the frame is empty. */
  lemma {:induction false} ReverbLoaderResult(layers: seq<Layer>, width: real, height: real, log10: real -> real)
    ensures var r := GatesFromLayers(layers, ReverbKeywords, ReverbMapper(width, height, log10));
            var k := Kept(layers, ReverbKeywords);
            (r.Err? <==> |k| > 0 && (width == 0.0 || height == 0.0))
            && (r.Err? ==> r.error == ZeroDivision)
            && (r.Ok? ==> |r.value| == |k| && ReverbGates(r.value)
                          && forall i :: 0 <= i < |k| ==>
                               Ok(r.value[i]) == FigmaToReverbParams(XOf(k[i]), YOf(k[i]), width, height, log10))
  {
    var toGate := ReverbMapper(width, height, log10);
    GatesFromLayersSpec(layers, ReverbKeywords, toGate);
    var r := GatesFromLayers(layers, ReverbKeywords, toGate);
    var k := Kept(layers, ReverbKeywords);
    if |k| > 0 && (width == 0.0 || height == 0.0) {
      assert MapFails(toGate, k[0]);
    }
    if r.Err? {
      var i :| 0 <= i < |k| && MapFails(toGate, k[i]);
      assert toGate(XOf(k[i]), YOf(k[i])).error == ZeroDivision;
      assert r.error == ZeroDivision by {
        ReverbLoaderError(layers, width, height, log10);
      }
    }
    if r.Ok? {
      forall g | g in r.value
        ensures g.ReverbGate? && g.decayMs >= 0.0
      {
        var i :| 0 <= i < |r.value| && r.value[i] == g;
        assert toGate(XOf(k[i]), YOf(k[i])) == Ok(g);
      }
    }
  }

  /** The only error the reverb loader raises is ZeroDivisionError. */
  lemma {:induction false} ReverbLoaderError(layers: seq<Layer>, width: real, height: real, log10: real -> real)
    ensures var r := GatesFromLayers(layers, ReverbKeywords, ReverbMapper(width, height, log10));
            r.Err? ==> r.error == ZeroDivision
    decreases |layers|
  {
    if layers != [] {
      ReverbLoaderError(layers[..|layers| - 1], width, height, log10);
    }
  }
}
