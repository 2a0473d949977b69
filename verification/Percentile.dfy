/** Percentile interpolation of common/lab/commits.py, over exact reals. */
module Percentile {
  import opened Wrappers

  datatype Error = ValueError

  predicate Sorted(data: seq<real>) {
    forall i, k :: 0 <= i <= k < |data| ==> data[i] <= data[k]
  }

  function Ceil(x: real): int {
    if x == x.Floor as real then x.Floor else x.Floor + 1
  }

  /** Linear interpolation at position k. */
  function At(data: seq<real>, k: real): real
    requires 0.0 <= k <= (|data| - 1) as real
  {
    var f, c := k.Floor, Ceil(k);
    if f == c then data[f] else data[f] * (c as real - k) + data[c] * (k - f as real)
  }

  function Position(n: nat, p: real): (k: real)
    requires n > 0 && 0.0 <= p <= 1.0
    ensures 0.0 <= k <= (n - 1) as real
  {
    (n - 1) as real * p
  }

  function Percentile(data: seq<real>, p: real): Result<real, Error>
    requires 0.0 <= p <= 1.0
  {
    if data == [] then Err(ValueError) else Ok(At(data, Position(|data|, p)))
  }

  function Mul(a: real, b: real): real {
    a * b
  }

  lemma Blend(a: real, b: real, t: real)
    ensures a * (1.0 - t) + b * t == a + Mul(t, b - a)
  {
  }

  lemma MulBounds(t: real, d: real)
    requires 0.0 <= t <= 1.0 && 0.0 <= d
    ensures 0.0 <= Mul(t, d) <= d
  {
    assert Mul(1.0 - t, d) == d - Mul(t, d);
  }

  lemma MulMonotone(s: real, t: real, d: real)
    requires s <= t && 0.0 <= d
    ensures Mul(s, d) <= Mul(t, d)
  {
    assert Mul(t - s, d) == Mul(t, d) - Mul(s, d);
  }

  /** Between two neighbours: the interpolated value, seen from the lower one. */
  lemma Interpolated(data: seq<real>, k: real)
    requires 0.0 <= k <= (|data| - 1) as real && k.Floor < |data| - 1
    ensures At(data, k) == data[k.Floor] + Mul(k - k.Floor as real, data[k.Floor + 1] - data[k.Floor])
  {
    var f := k.Floor;
    var t := k - f as real;
    if Ceil(k) == f {
      assert t == 0.0;
    } else {
      assert (f + 1) as real - k == 1.0 - t;
      Blend(data[f], data[f + 1], t);
    }
  }

  /** The value lies between its neighbours. */
  lemma InCell(data: seq<real>, k: real)
    requires Sorted(data) && 0.0 <= k <= (|data| - 1) as real && k.Floor < |data| - 1
    ensures data[k.Floor] <= At(data, k) <= data[k.Floor + 1]
  {
    hide At, Mul;
    Interpolated(data, k);
    MulBounds(k - k.Floor as real, data[k.Floor + 1] - data[k.Floor]);
  }

  lemma AtLast(data: seq<real>, k: real)
    requires 0.0 <= k <= (|data| - 1) as real && k.Floor == |data| - 1
    ensures At(data, k) == data[|data| - 1]
  {
  }

  lemma AtMonotone(data: seq<real>, k: real, l: real)
    requires Sorted(data) && 0.0 <= k <= l <= (|data| - 1) as real
    ensures At(data, k) <= At(data, l)
  {
    hide At, Mul;
    var f, g := k.Floor, l.Floor;
    if f == |data| - 1 {
      AtLast(data, k);
      AtLast(data, l);
    } else if f == g {
      Interpolated(data, k);
      Interpolated(data, l);
      MulMonotone(k - f as real, l - f as real, data[f + 1] - data[f]);
    } else {
      InCell(data, k);
      assert data[f + 1] <= data[g];
      if g < |data| - 1 {
        InCell(data, l);
      } else {
        AtLast(data, l);
      }
    }
  }

  lemma PositionMonotone(n: nat, p: real, q: real)
    requires n > 0 && 0.0 <= p <= q <= 1.0
    ensures Position(n, p) <= Position(n, q)
  {
    MulMonotone(p, q, (n - 1) as real);
    assert Position(n, p) == Mul(p, (n - 1) as real) && Position(n, q) == Mul(q, (n - 1) as real);
  }

  /** A higher percentile is never lower. */
  lemma PercentileMonotone(data: seq<real>, p: real, q: real)
    requires data != [] && Sorted(data) && 0.0 <= p <= q <= 1.0
    ensures Percentile(data, p).value <= Percentile(data, q).value
  {
    hide Position, At;
    PositionMonotone(|data|, p, q);
    AtMonotone(data, Position(|data|, p), Position(|data|, q));
  }

  lemma GridPosition(n: nat, i: nat)
    requires i < n && n > 1
    ensures 0.0 <= i as real / (n - 1) as real <= 1.0
    ensures Position(n, i as real / (n - 1) as real) == i as real
  {
    var m := (n - 1) as real;
    var p := i as real / m;
    assert m * p == i as real;
  }

  /** The grid points give the elements themselves. */
  lemma PercentileAtGrid(data: seq<real>, i: nat)
    requires i < |data| && |data| > 1
    ensures 0.0 <= i as real / (|data| - 1) as real <= 1.0
    ensures Percentile(data, i as real / (|data| - 1) as real) == Ok(data[i])
  {
    hide Position;
    GridPosition(|data|, i);
    assert (i as real).Floor == i;
  }

  /** Between two grid points the value is linear. */
  lemma PercentileIsLinear(data: seq<real>, i: nat, f: real)
    requires i + 1 < |data| && 0.0 <= f <= 1.0
    ensures 0.0 <= (i as real + f) / (|data| - 1) as real <= 1.0
    ensures
      Percentile(data, (i as real + f) / (|data| - 1) as real) == Ok(data[i] * (1.0 - f) + data[i + 1] * f)
  {
    hide Position;
    LinearPosition(|data|, i, f);
    AtIsLinear(data, i, f);
  }

  lemma AtIsLinear(data: seq<real>, i: nat, f: real)
    requires i + 1 < |data| && 0.0 <= f <= 1.0
    ensures At(data, i as real + f) == data[i] * (1.0 - f) + data[i + 1] * f
  {
    var k := i as real + f;
    if f == 1.0 {
      assert k == (i + 1) as real && k.Floor == i + 1;
      assert data[i] * (1.0 - f) == 0.0 && data[i + 1] * f == data[i + 1];
    } else {
      assert k.Floor == i && k - k.Floor as real == f;
      hide At;
      Interpolated(data, k);
      Blend(data[i], data[i + 1], f);
    }
  }

  lemma LinearPosition(n: nat, i: nat, f: real)
    requires i + 1 < n && 0.0 <= f <= 1.0
    ensures 0.0 <= (i as real + f) / (n - 1) as real <= 1.0
    ensures Position(n, (i as real + f) / (n - 1) as real) == i as real + f
  {
    var m := (n - 1) as real;
    var p := (i as real + f) / m;
    assert m * p == i as real + f;
  }

  /** Without data there is no percentile; of one value it is that value. */
  lemma PercentileOfFew(data: seq<real>, p: real)
    requires 0.0 <= p <= 1.0 && |data| <= 1
    ensures Percentile(data, p) == if data == [] then Err(ValueError) else Ok(data[0])
  {
    if data != [] {
      PercentileBounded(data, p);
    }
  }

  lemma PercentileBounded(data: seq<real>, p: real)
    requires data != [] && Sorted(data) && 0.0 <= p <= 1.0
    ensures data[0] <= Percentile(data, p).value <= data[|data| - 1]
  {
    var n := (|data| - 1) as real;
    var k := Position(|data|, p);
    AtMonotone(data, 0.0, k);
    AtMonotone(data, k, n);
    Ends(data);
  }

  lemma Ends(data: seq<real>)
    requires data != []
    ensures At(data, 0.0) == data[0] && At(data, (|data| - 1) as real) == data[|data| - 1]
  {
    assert (0.0).Floor == 0 && ((|data| - 1) as real).Floor == |data| - 1;
  }
}
