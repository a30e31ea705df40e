/** Reading magnet strengths from an AT ring and averaging them over the elements of
    one power supply, as the inner loop of `get_magnet_strength` does. */
module Strengths {
  import opened Outcomes
  import opened NumPy
  import opened LocoFile

  /** Which field holds the strength: `K[0, 0]` for quadrupoles, `PolynomB[0, 2]` for
      sextupoles. */
  datatype Getter = K | PolynomB2

  /** `r[i][0, 0].K[0, 0]` or `r[i][0, 0].PolynomB[0, 2]`. */
  function StrengthAt(ring: Ring, i: int, g: Getter): (r: Result<real>)
    ensures !InRange(i, |ring|) ==> r == Failure(IndexError)
    ensures r.Success? ==> var e := ring[Wrap(i, |ring|)];
      match g
      case K => e.k == Some(r.value)
      case PolynomB2 => e.polynomB.Some? && |e.polynomB.value| >= 3 && e.polynomB.value[2] == r.value
  {
    var e :- At(ring, i);
    match g
    case K =>
      if e.k.None? then Failure(AttributeError("K")) else Success(e.k.value)
    case PolynomB2 =>
      if e.polynomB.None? then Failure(AttributeError("PolynomB"))
      else if |e.polynomB.value| < 3 then Failure(IndexError)
      else Success(e.polynomB.value[2])
  }

  /** The running total over `idxs`, failing at the first read that fails. */
  function Sum(ring: Ring, idxs: seq<int>, g: Getter): Result<real> {
    if idxs == [] then Success(0.0)
    else
      var s :- Sum(ring, idxs[..|idxs| - 1], g);
      var v :- StrengthAt(ring, idxs[|idxs| - 1], g);
      Success(s + v)
  }

  /** The average strength of the elements at `idxs`; `at_indices[0]` raises on an
      empty list. */
  function Mean(ring: Ring, idxs: seq<int>, g: Getter): Result<real> {
    if idxs == [] then Failure(IndexError)
    else
      var s :- Sum(ring, idxs, g);
      Success(s / |idxs| as real)
  }

  /** A failure in a prefix is the failure of the whole sum. */
  lemma {:induction false} SumPrefixFails(ring: Ring, idxs: seq<int>, g: Getter, k: nat)
    requires k <= |idxs| && Sum(ring, idxs[..k], g).Failure?
    ensures Sum(ring, idxs, g) == Sum(ring, idxs[..k], g)
  {
    if k < |idxs| {
      var front := idxs[..|idxs| - 1];
      assert front[..k] == idxs[..k];
      SumPrefixFails(ring, front, g, k);
    } else {
      assert idxs[..k] == idxs;
    }
  }

  /** The sum succeeds exactly when every read succeeds. */
  lemma {:induction false} SumSucceeds(ring: Ring, idxs: seq<int>, g: Getter)
    ensures Sum(ring, idxs, g).Success? <==> forall k :: 0 <= k < |idxs| ==> StrengthAt(ring, idxs[k], g).Success?
  {
    if idxs != [] {
      SumSucceeds(ring, idxs[..|idxs| - 1], g);
    }
  }

  /** A failing sum carries the error of the first read that fails. */
  lemma {:induction false} SumFirstError(ring: Ring, idxs: seq<int>, g: Getter, k: nat)
    requires k < |idxs| && StrengthAt(ring, idxs[k], g).Failure?
    requires forall q :: 0 <= q < k ==> StrengthAt(ring, idxs[q], g).Success?
    ensures Sum(ring, idxs, g) == Failure(StrengthAt(ring, idxs[k], g).error)
  {
    var front := idxs[..|idxs| - 1];
    if k < |idxs| - 1 {
      SumFirstError(ring, front, g, k);
    } else {
      SumSucceeds(ring, front, g);
    }
  }

  lemma SumLast(ring: Ring, idxs: seq<int>, g: Getter)
    requires idxs != []
    requires Sum(ring, idxs[..|idxs| - 1], g).Success? && StrengthAt(ring, idxs[|idxs| - 1], g).Success?
    ensures Sum(ring, idxs, g) ==
      Success(Sum(ring, idxs[..|idxs| - 1], g).value + StrengthAt(ring, idxs[|idxs| - 1], g).value)
  {
  }

  lemma {:induction false} SumOfEqual(ring: Ring, idxs: seq<int>, g: Getter, v: real)
    requires forall k :: 0 <= k < |idxs| ==> StrengthAt(ring, idxs[k], g) == Success(v)
    ensures Sum(ring, idxs, g).Success? && Sum(ring, idxs, g).value == v * |idxs| as real
  {
    if idxs == [] {
      assert v * 0.0 == 0.0;
    } else {
      var front := idxs[..|idxs| - 1];
      SumOfEqual(ring, front, g, v);
      SumLast(ring, idxs, g);
      AddOnce(v, |front| as real);
    }
  }

  lemma AddOnce(v: real, m: real)
    ensures v * m + v == v * (m + 1.0)
  {
  }

  /** The mean of strengths that all read the same value `v` is `v`: the warning about
      differing members never changes the result. */
  lemma MeanOfEqual(ring: Ring, idxs: seq<int>, g: Getter, v: real)
    requires idxs != []
    requires forall k :: 0 <= k < |idxs| ==> StrengthAt(ring, idxs[k], g) == Success(v)
    ensures Mean(ring, idxs, g) == Success(v)
  {
    SumOfEqual(ring, idxs, g, v);
    var n := |idxs| as real;
    assert Mean(ring, idxs, g) == Success(Sum(ring, idxs, g).value / n);
    Cancel(v, n);
    assert Sum(ring, idxs, g).value == v * n;
    assert Sum(ring, idxs, g).value / n == v;
  }

  lemma Cancel(v: real, n: real)
    requires n > 0.0
    ensures v * n / n == v
  {
  }

  /** The running total lies between `lo` and `hi` times the number of members. */
  lemma SumBounds(ring: Ring, idxs: seq<int>, g: Getter, lo: real, hi: real)
    requires Sum(ring, idxs, g).Success?
    requires forall k :: 0 <= k < |idxs| ==>
      (StrengthAt(ring, idxs[k], g).Success? && lo <= StrengthAt(ring, idxs[k], g).value <= hi)
    ensures lo * |idxs| as real <= Sum(ring, idxs, g).value <= hi * |idxs| as real
  {
    SumBetween(ring, idxs, g, lo, hi);
    var s := Sum(ring, idxs, g).value;
    AddedUpIsProduct(lo, |idxs|);
    assert lo * |idxs| as real <= s;
    AddedUpIsProduct(hi, |idxs|);
    assert s <= hi * |idxs| as real;
  }

  /** `c` added to itself `m` times. */
  function AddedUp(c: real, m: nat): real {
    if m == 0 then 0.0 else AddedUp(c, m - 1) + c
  }

  /** Adding `c` up `m` times is multiplying it by `m`. */
  lemma {:induction false} AddedUpIsProduct(c: real, m: nat)
    ensures AddedUp(c, m) == c * m as real
  {
    if m > 0 {
      AddedUpIsProduct(c, m - 1);
    }
  }

  /** The sum lies between `lo` and `hi` added once per member. */
  lemma {:induction false} SumBetween(ring: Ring, idxs: seq<int>, g: Getter, lo: real, hi: real)
    requires Sum(ring, idxs, g).Success?
    requires forall k :: 0 <= k < |idxs| ==>
      (StrengthAt(ring, idxs[k], g).Success? && lo <= StrengthAt(ring, idxs[k], g).value <= hi)
    ensures AddedUp(lo, |idxs|) <= Sum(ring, idxs, g).value <= AddedUp(hi, |idxs|)
  {
    if idxs != [] {
      var n := |idxs| - 1;
      var front := idxs[..n];
      assert forall k :: 0 <= k < |front| ==> front[k] == idxs[k];
      SumBetween(ring, front, g, lo, hi);
    }
  }

  /** The average lies between the smallest and the largest member strength. */
  lemma {:induction false} MeanBounds(ring: Ring, idxs: seq<int>, g: Getter, lo: real, hi: real)
    requires Mean(ring, idxs, g).Success?
    requires forall k :: 0 <= k < |idxs| ==>
      (StrengthAt(ring, idxs[k], g).Success? && lo <= StrengthAt(ring, idxs[k], g).value <= hi)
    ensures lo <= Mean(ring, idxs, g).value <= hi
  {
    SumBounds(ring, idxs, g, lo, hi);
    var n := |idxs| as real;
    var s := Sum(ring, idxs, g).value;
    Scale(lo * n, s, n);
    Scale(s, hi * n, n);
    Cancel(lo, n);
    Cancel(hi, n);
  }

  /** Dividing both sides of `a <= b` by a positive `n` keeps the order. */
  lemma Scale(a: real, b: real, n: real)
    requires n > 0.0 && a <= b
    ensures a / n <= b / n
  {
  }

  /** The averaging loop of `get_magnet_strength` for one supply. */
  method AverageStrength(ring: Ring, idxs: seq<int>, g: Getter) returns (r: Result<real>)
    ensures r == Mean(ring, idxs, g)
  {
    if |idxs| == 0 {
      return Failure(IndexError);
    }
    var first := StrengthAt(ring, idxs[0], g);
    if first.Failure? {
      assert idxs[..1] == [idxs[0]];
      SumPrefixFails(ring, idxs, g, 1);
      return Failure(first.error);
    }
    var total := 0.0;
    var k := 0;
    while k < |idxs|
      invariant 0 <= k <= |idxs|
      invariant Sum(ring, idxs[..k], g) == Success(total)
    {
      var v := StrengthAt(ring, idxs[k], g);
      assert idxs[..k + 1][..k] == idxs[..k];
      if v.Failure? {
        SumPrefixFails(ring, idxs, g, k + 1);
        return Failure(v.error);
      }
      total := total + v.value;
      k := k + 1;
    }
    assert idxs[..k] == idxs;
    return Success(total / |idxs| as real);
  }
}
