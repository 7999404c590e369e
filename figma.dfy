/** Figma exports: the layers of a design file, the keyword test that picks
    the gate layers out of them, the position-to-parameter mapping both
    effect modes share, and the loader loop that turns the picked layers into
    gates. */
module Figma {
  import opened Numerics
  import opened Signal
  import opened Gates

  datatype Option<T> = None | Some(value: T)

  /** One entry of the export's `layers` list; each key may be absent. */
  datatype Layer = Layer(name: Option<string>, x: Option<real>, y: Option<real>)

  /** `layer.get('name', '')`, `layer.get('x', 0)`, `layer.get('y', 0)`. */
  function NameOf(l: Layer): string
  {
    if l.name.Some? then l.name.value else ""
  }

  function XOf(l: Layer): real
  {
    if l.x.Some? then l.x.value else 0.0
  }

  function YOf(l: Layer): real
  {
    if l.y.Some? then l.y.value else 0.0
  }

  predicate StartsWith(s: string, prefix: string)
  {
    |prefix| <= |s| && s[..|prefix|] == prefix
  }

  /** Python's substring test `sub in s`. */
  predicate Contains(s: string, sub: string)
    decreases |s|
  {
    StartsWith(s, sub) || (|s| > 0 && Contains(s[1..], sub))
  }

  /** `sub` occurs in `s` starting at index i. */
  predicate OccursAt(s: string, sub: string, i: int)
  {
    0 <= i <= |s| - |sub| && s[i..i + |sub|] == sub
  }

  /** The substring test finds exactly the positions where `sub` occurs. */
  lemma {:induction false} ContainsIffOccurs(s: string, sub: string)
    ensures Contains(s, sub) <==> exists i :: OccursAt(s, sub, i)
    decreases |s|
  {
    if StartsWith(s, sub) {
      assert OccursAt(s, sub, 0);
    } else if |s| == 0 {
      assert forall i :: !OccursAt(s, sub, i);
    } else {
      ContainsIffOccurs(s[1..], sub);
      if Contains(s[1..], sub) {
        var j :| OccursAt(s[1..], sub, j);
        assert s[j + 1..j + 1 + |sub|] == s[1..][j..j + |sub|];
        assert OccursAt(s, sub, j + 1);
      }
      if i :| OccursAt(s, sub, i) {
        assert i != 0;
        assert s[1..][i - 1..i - 1 + |sub|] == s[i..i + |sub|];
        assert OccursAt(s[1..], sub, i - 1);
      }
    }
  }

  /** `any(keyword in name for keyword in keywords)`. */
  predicate MatchesAny(name: string, keywords: seq<string>)
  {
    exists k :: 0 <= k < |keywords| && Contains(name, keywords[k])
  }

  /** The layers a loader picks, in file order: exactly those whose name
      contains one of the keywords. */
  function Kept(layers: seq<Layer>, keywords: seq<string>): (k: seq<Layer>)
    ensures |k| <= |layers|
    ensures forall l | l in k :: l in layers && MatchesAny(NameOf(l), keywords)
    ensures forall l | l in layers && MatchesAny(NameOf(l), keywords) :: l in k
    decreases |layers|
  {
    if layers == [] then []
    else
      var front := layers[..|layers| - 1];
      var l := layers[|layers| - 1];
      assert layers == front + [l];
      var kf := Kept(front, keywords);
      if MatchesAny(NameOf(l), keywords) then kf + [l] else kf
  }

  /** The shared coordinate mapping of both modes. x across the frame sets the
      time axis (0 to `xRange`); y down the frame lowers the volume from
      `volumeScale` % to 0 %, which `VolumeToDb` turns into a gain. Dividing
      by a zero frame size raises ZeroDivisionError. */
  function PositionToParams(x: real, y: real, width: real, height: real, xRange: real,
                            volumeScale: real, minDb: real, maxDb: real,
                            log10: real -> real): (r: Result<(real, real)>)
    ensures r.Err? <==> width == 0.0 || height == 0.0
    ensures r.Err? ==> r.error == ZeroDivision
    ensures r.Ok? && 0.0 <= xRange ==> 0.0 <= r.value.0 <= xRange
    ensures r.Ok? && minDb <= maxDb ==> minDb <= r.value.1 <= maxDb
  {
    if width == 0.0 || height == 0.0 then Err(ZeroDivision)
    else
      var xNorm := Clip(x / width, 0.0, 1.0);
      var yNorm := Clip(y / height, 0.0, 1.0);
      assert 0.0 <= xRange ==> 0.0 <= xNorm * xRange <= xRange by {
        if 0.0 <= xRange {
          MulMonotone(xRange, 0.0, xNorm);
          MulMonotone(xRange, xNorm, 1.0);
        }
      }
      Ok((xNorm * xRange, VolumeToDb(VolumeAtHeight(y, height, volumeScale), minDb, maxDb, log10)))
  }

  /** `(1 - clip(y / height, 0, 1)) * volumeScale`: the volume percentage of
      a gate at height y, full at the top edge and zero at the bottom. */
  function VolumeAtHeight(y: real, height: real, volumeScale: real): real
    requires height != 0.0
  {
    (1.0 - Clip(y / height, 0.0, 1.0)) * volumeScale
  }

  /** A lower gate never has a higher volume. */
  lemma {:induction false} VolumeFallsDownward(y1: real, y2: real, height: real, volumeScale: real)
    requires 0.0 < height && y1 <= y2 && 0.0 <= volumeScale
    ensures VolumeAtHeight(y2, height, volumeScale) <= VolumeAtHeight(y1, height, volumeScale)
  {
    DivMonotone(y1, y2, height);
    var n1 := Clip(y1 / height, 0.0, 1.0);
    var n2 := Clip(y2 / height, 0.0, 1.0);
    ClipMonotone(y1 / height, y2 / height, 0.0, 1.0);
    MulMonotone(volumeScale, 1.0 - n2, 1.0 - n1);
    assert (1.0 - n2) * volumeScale <= (1.0 - n1) * volumeScale;
  }

  /** A volume percentage in decibels: at most 0.1 % is the floor `minDb`,
      anything louder is `20*log10(percent/100)` clipped to the range. */
  function VolumeToDb(volumePercent: real, minDb: real, maxDb: real, log10: real -> real): (db: real)
    ensures volumePercent <= 0.1 ==> db == minDb
    ensures minDb <= maxDb ==> minDb <= db <= maxDb
  {
    if volumePercent <= 0.1 then minDb
    else Clip(20.0 * log10(volumePercent / 100.0), minDb, maxDb)
  }

  /** A louder percentage never maps to a lower gain. */
  lemma {:induction false} VolumeToDbMonotone(v: real, w: real, minDb: real, maxDb: real, log10: real -> real)
    requires v <= w && minDb <= maxDb && Log10Monotone(log10)
    ensures VolumeToDb(v, minDb, maxDb, log10) <= VolumeToDb(w, minDb, maxDb, log10)
  {
    if v > 0.1 {
      DivMonotone(v, w, 100.0);
      assert log10(v / 100.0) <= log10(w / 100.0);
      ClipMonotone(20.0 * log10(v / 100.0), 20.0 * log10(w / 100.0), minDb, maxDb);
    }
  }

  /** Moving a gate to the right never shortens its time. */
  lemma {:induction false} TimeGrowsRightward(x1: real, x2: real, y1: real, y2: real, width: real, height: real,
                           xRange: real, volumeScale: real, minDb: real, maxDb: real,
                           log10: real -> real)
    requires 0.0 < width && height != 0.0 && x1 <= x2 && 0.0 <= xRange
    ensures PositionToParams(x1, y1, width, height, xRange, volumeScale, minDb, maxDb, log10).value.0
         <= PositionToParams(x2, y2, width, height, xRange, volumeScale, minDb, maxDb, log10).value.0
  {
    DivMonotone(x1, x2, width);
    ClipMonotone(x1 / width, x2 / width, 0.0, 1.0);
    MulMonotone(xRange, Clip(x1 / width, 0.0, 1.0), Clip(x2 / width, 0.0, 1.0));
  }

  /** Moving a gate down never raises its gain (y grows downward in Figma). */
  lemma {:induction false} GainFallsDownward(x1: real, x2: real, y1: real, y2: real, width: real, height: real,
                          xRange: real, volumeScale: real, minDb: real, maxDb: real,
                          log10: real -> real)
    requires width != 0.0 && 0.0 < height && y1 <= y2 && 0.0 <= volumeScale
    requires minDb <= maxDb && Log10Monotone(log10)
    ensures PositionToParams(x1, y1, width, height, xRange, volumeScale, minDb, maxDb, log10).value.1
         >= PositionToParams(x2, y2, width, height, xRange, volumeScale, minDb, maxDb, log10).value.1
  {
    VolumeFallsDownward(y1, y2, height, volumeScale);
    VolumeToDbMonotone(VolumeAtHeight(y2, height, volumeScale), VolumeAtHeight(y1, height, volumeScale),
                       minDb, maxDb, log10);
  }

  /** A gate on or below the bottom edge is at the gain floor. */
  lemma {:induction false} BottomEdgeIsFloor(x: real, y: real, width: real, height: real, xRange: real,
                          volumeScale: real, minDb: real, maxDb: real, log10: real -> real)
    requires width != 0.0 && 0.0 < height <= y
    ensures PositionToParams(x, y, width, height, xRange, volumeScale, minDb, maxDb, log10).value.1 == minDb
  {
    DivMonotone(height, y, height);
    assert height / height == 1.0;
    assert Clip(y / height, 0.0, 1.0) == 1.0;
    assert VolumeAtHeight(y, height, volumeScale) == 0.0;
  }

  /** The loader loop: walk the layers in order; for each layer whose name
      matches, map its position to a gate and append it. The first mapping
      that raises ends the walk with its error. */
  function GatesFromLayers(layers: seq<Layer>, keywords: seq<string>,
                           toGate: (real, real) -> Result<Gate>): (r: Result<seq<Gate>>)
    ensures r.Ok? ==> |r.value| <= |layers|
    decreases |layers|
  {
    if layers == [] then Ok([])
    else
      var front := GatesFromLayers(layers[..|layers| - 1], keywords, toGate);
      var l := layers[|layers| - 1];
      if front.Err? then front
      else if !MatchesAny(NameOf(l), keywords) then front
      else
        var g := toGate(XOf(l), YOf(l));
        if g.Err? then Err(g.error) else Ok(front.value + [g.value])
  }

  /** Whether mapping this layer's position raises. */
  predicate MapFails(toGate: (real, real) -> Result<Gate>, l: Layer)
  {
    toGate(XOf(l), YOf(l)).Err?
  }

  /** Mapping some layer of the list raises. */
  predicate AnyFails(toGate: (real, real) -> Result<Gate>, ls: seq<Layer>)
  {
    exists i :: 0 <= i < |ls| && MapFails(toGate, ls[i])
  }

  lemma {:induction false} AnyFailsAppend(toGate: (real, real) -> Result<Gate>, ls: seq<Layer>, l: Layer)
    ensures AnyFails(toGate, ls + [l]) <==> AnyFails(toGate, ls) || MapFails(toGate, l)
  {
    var s := ls + [l];
    if AnyFails(toGate, ls) {
      var i :| 0 <= i < |ls| && MapFails(toGate, ls[i]);
      assert s[i] == ls[i];
    }
    if MapFails(toGate, l) {
      assert s[|ls|] == l;
    }
    if AnyFails(toGate, s) {
      var i :| 0 <= i < |s| && MapFails(toGate, s[i]);
      if i < |ls| {
        assert s[i] == ls[i];
      }
    }
  }

  /** What the loader returns: the gates of the kept layers, one each and in
      order, unless mapping one of the kept layers raises. */
  lemma {:induction false} GatesFromLayersSpec(layers: seq<Layer>, keywords: seq<string>,
                                               toGate: (real, real) -> Result<Gate>)
    ensures var r := GatesFromLayers(layers, keywords, toGate);
            var k := Kept(layers, keywords);
            (r.Err? <==> AnyFails(toGate, k))
            && (r.Ok? ==> |r.value| == |k|
                          && forall i :: 0 <= i < |k| ==> toGate(XOf(k[i]), YOf(k[i])) == Ok(r.value[i]))
    decreases |layers|
  {
    if layers != [] {
      var front := layers[..|layers| - 1];
      var l := layers[|layers| - 1];
      GatesFromLayersSpec(front, keywords, toGate);
      var kf := Kept(front, keywords);
      var k := Kept(layers, keywords);
      if MatchesAny(NameOf(l), keywords) {
        assert k == kf + [l];
        AnyFailsAppend(toGate, kf, l);
      } else {
        assert k == kf;
      }
    }
  }

  /** Once the walk has failed, later layers do not matter. */
  lemma {:induction false} GatesFromLayersErrSticks(layers: seq<Layer>, i: nat, keywords: seq<string>,
                                                    toGate: (real, real) -> Result<Gate>)
    requires i <= |layers| && GatesFromLayers(layers[..i], keywords, toGate).Err?
    ensures GatesFromLayers(layers, keywords, toGate) == GatesFromLayers(layers[..i], keywords, toGate)
    decreases |layers| - i
  {
    if i < |layers| {
      assert layers[..|layers| - 1][..i] == layers[..i];
      GatesFromLayersErrSticks(layers[..|layers| - 1], i, keywords, toGate);
    } else {
      assert layers[..i] == layers;
    }
  }
}
