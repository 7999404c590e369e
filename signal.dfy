/** Sample buffers, the errors the engine can raise, and the peak normaliser
    shared by the delay and reverb paths: "divide by the peak if the peak
    exceeds 1". */
module Signal {
  import opened Numerics

  /** The exceptions the Python engine can raise. */
  datatype Error =
    | EmptyMax                // max() of an empty list (ValueError)
    | EmptyReduction          // np.max over a zero-size array (ValueError)
    | ZeroDivision            // float division by zero
    | MissingKey(key: string) // a gate dict without the key the engine reads (KeyError)
    | InvalidMode(mode: string) // set_mode with anything but 'delay' / 'reverb' (ValueError)

  datatype Result<T> = Ok(value: T) | Err(error: Error)

  datatype Outcome = Pass | Fail(error: Error)

  function Zeros(n: nat): (s: seq<real>)
    ensures |s| == n && forall i :: 0 <= i < n ==> s[i] == 0.0
  {
    seq(n, _ => 0.0)
  }

  /** `signal * c` in numpy. */
  function Scale(s: seq<real>, c: real): (r: seq<real>)
    ensures |r| == |s| && forall i :: 0 <= i < |s| ==> r[i] == s[i] * c
  {
    seq(|s|, i requires 0 <= i < |s| => s[i] * c)
  }

  /** `a + b` in numpy, for equal lengths. */
  function Add(a: seq<real>, b: seq<real>): (r: seq<real>)
    requires |a| == |b|
    ensures |r| == |a| && forall i :: 0 <= i < |a| ==> r[i] == a[i] + b[i]
  {
    seq(|a|, i requires 0 <= i < |a| => a[i] + b[i])
  }

  /** `np.max(np.abs(s))`: the largest magnitude, which some sample attains.
      numpy refuses an empty array, hence the precondition. */
  function Peak(s: seq<real>): (p: real)
    requires |s| > 0
    ensures forall i :: 0 <= i < |s| ==> Abs(s[i]) <= p
    ensures exists i :: 0 <= i < |s| && Abs(s[i]) == p
    decreases |s|
  {
    if |s| == 1 then Abs(s[0])
    else
      var front := Peak(s[..|s| - 1]);
      assert forall i :: 0 <= i < |s| - 1 ==> s[..|s| - 1][i] == s[i];
      Max(front, Abs(s[|s| - 1]))
  }

  /** A bound that is attained is the peak. */
  lemma {:induction false} PeakUnique(s: seq<real>, v: real, k: nat)
    requires k < |s| && Abs(s[k]) == v
    requires forall i :: 0 <= i < |s| ==> Abs(s[i]) <= v
    ensures Peak(s) == v
  {
  }

  /** The normaliser: divide every sample by the peak when the peak exceeds 1,
      otherwise leave the buffer alone. Afterwards the peak is at most 1, and
      exactly 1 when the buffer was divided. */
  function Normalized(s: seq<real>): (r: seq<real>)
    requires |s| > 0
    ensures |r| == |s|
    ensures Peak(r) <= 1.0
    ensures Peak(s) > 1.0 ==> Peak(r) == 1.0 && forall i :: 0 <= i < |s| ==> r[i] == s[i] / Peak(s)
    ensures Peak(s) <= 1.0 ==> r == s
  {
    var p := Peak(s);
    if p > 1.0 then
      var r := seq(|s|, i requires 0 <= i < |s| => s[i] / p);
      DividedPeak(s, p, r);
      r
    else s
  }

  lemma {:induction false} DividedPeak(s: seq<real>, p: real, r: seq<real>)
    requires |s| > 0 && p == Peak(s) && p > 0.0
    requires |r| == |s| && forall i :: 0 <= i < |s| ==> r[i] == s[i] / p
    ensures Peak(r) == 1.0
  {
    var k :| 0 <= k < |s| && Abs(s[k]) == p;
    forall i | 0 <= i < |s|
      ensures Abs(r[i]) <= 1.0
    {
      DivByPeak(s[i], p);
    }
    DivByPeak(s[k], p);
    PeakUnique(r, 1.0, k);
  }

  lemma {:induction false} DivByPeak(a: real, p: real)
    requires 0.0 < p && Abs(a) <= p
    ensures Abs(a / p) <= 1.0
    ensures Abs(a) == p ==> Abs(a / p) == 1.0
  {
    var q := a / p;
    assert q * p == a;
    if a >= 0.0 {
      assert q >= 0.0;
      assert q <= 1.0;
    } else {
      assert q < 0.0;
      assert -q <= 1.0;
    }
  }

  /** A silent sample stays silent. */
  lemma {:induction false} NormalizedKeepsSilence(s: seq<real>, i: nat)
    requires i < |s| && s[i] == 0.0
    ensures Normalized(s)[i] == 0.0
  {
    if Peak(s) > 1.0 {
      var p := Peak(s);
      assert Normalized(s)[i] == 0.0 / p;
    }
  }

  /** The factor the normaliser divides by: the peak when it exceeds 1,
      otherwise 1. */
  function NormFactor(s: seq<real>): (f: real)
    requires |s| > 0
    ensures f >= 1.0 && f >= Peak(s)
  {
    if Peak(s) > 1.0 then Peak(s) else 1.0
  }

  /** Every sample is divided by the same factor. */
  lemma {:induction false} NormalizedSample(s: seq<real>, n: nat)
    requires n < |s|
    ensures Normalized(s)[n] == s[n] / NormFactor(s)
  {
    if Peak(s) <= 1.0 {
      assert s[n] / 1.0 == s[n];
    }
  }

  /** A silent stretch stays silent. */
  lemma {:induction false} NormalizedKeepsSilentTail(s: seq<real>, from: nat)
    requires |s| > 0
    requires forall n :: from <= n < |s| ==> s[n] == 0.0
    ensures forall n :: from <= n < |s| ==> Normalized(s)[n] == 0.0
  {
    forall n | from <= n < |s|
      ensures Normalized(s)[n] == 0.0
    {
      NormalizedKeepsSilence(s, n);
    }
  }

  /** Normalising twice is normalising once. */
  lemma {:induction false} NormalizedIdempotent(s: seq<real>)
    requires |s| > 0
    ensures Normalized(Normalized(s)) == Normalized(s)
  {
  }

  /** A buffer whose peak is at most 1, scaled by `wet`, peaks at no more
      than |wet|. */
  lemma {:induction false} WetPeak(s: seq<real>, wet: real)
    requires |s| > 0 && Peak(s) <= 1.0
    ensures Peak(Scale(s, wet)) <= Abs(wet)
  {
    var r := Scale(s, wet);
    var k :| 0 <= k < |r| && Abs(r[k]) == Peak(r);
    ScaledSampleAt(s, wet, 1.0, k);
  }

  lemma {:induction false} ScaledSampleAt(s: seq<real>, c: real, p: real, i: int)
    requires 0 <= i < |s| && Abs(s[i]) <= p
    ensures Abs(Scale(s, c)[i]) <= Abs(c) * p
    ensures Abs(s[i]) == p ==> Abs(Scale(s, c)[i]) == Abs(c) * p
  {
    var a := s[i];
    if a < 0.0 && c < 0.0 {
      assert a * c == (-a) * (-c);
    }
    MulMonotone(Abs(c), Abs(a), p);
  }

  /** The in-place form used by the engines (`output /= peak`, or
      `output = output / max_peak`, which no other reference observes). */
  method NormalizeInPlace(a: array<real>)
    requires a.Length > 0
    modifies a
    ensures a[..] == Normalized(old(a[..]))
  {
    var peak := Peak(a[..]);
    if peak > 1.0 {
      forall i | 0 <= i < a.Length {
        a[i] := a[i] / peak;
      }
    }
  }
}
