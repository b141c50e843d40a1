/**
 * What the subsetter's walk computes, stated independently of the walk: the
 * points of the selected box, taken in row-major order (axis 0 fastest), each
 * read from the row-major position of the point in the input. The statement
 * holds for axes on which none of the walk's unsigned int counters wraps.
 */
module SubsetTheory {
  import opened Wrappers
  import opened UdaHelpers
  import opened Subset

  /** The extents of the axes, as they are. */
  function DimSizes(axes: seq<SubsetInfo>): (s: seq<nat>)
    ensures |s| == |axes| && forall k :: 0 <= k < |axes| ==> s[k] == axes[k].dimSize
  {
    seq(|axes|, k requires 0 <= k < |axes| => axes[k].dimSize)
  }

  predicate Positive(s: seq<nat>) {
    forall k :: 0 <= k < |s| ==> s[k] > 0
  }

  /**
   * Axes with a positive stride and a non-empty range inside the axis, whose
   * indices stay below 2^32 even one stride past their stop.
   */
  predicate RegularAxes(axes: seq<SubsetInfo>) {
    |axes| >= 1
    && (forall k :: 0 <= k < |axes| ==>
          0 < axes[k].stride && axes[k].start < axes[k].stop <= axes[k].dimSize
          && axes[k].stop + axes[k].stride <= U32)
    && Product(DimSizes(axes)) < U32
  }

  /** Regular axes over an input holding the whole array they describe. */
  predicate Regular(input: seq<real>, axes: seq<SubsetInfo>) {
    RegularAxes(axes) && Product(DimSizes(axes)) <= |input|
  }

  // ---- products ------------------------------------------------------------

  lemma MulSucc(q: nat, m: nat)
    ensures (q + 1) * m == q * m + m
  {
  }

  lemma MulStrict(p: nat, a: nat, b: nat)
    requires p >= 1 && a < b
    ensures p * a < p * b
  {
  }

  lemma {:induction false} ProductPrefixLe(s: seq<nat>, k: nat)
    requires Positive(s) && k <= |s|
    ensures 1 <= Product(s[..k]) <= Product(s)
    decreases |s|
  {
    if |s| == 0 {
      assert s[..k] == s;
    } else {
      var t := s[..|s| - 1];
      assert Positive(t);
      if k == |s| {
        assert s[..k] == s;
        ProductPrefixLe(t, |t|);
        assert t[..|t|] == t;
        MulMono(1, Product(t), s[|s| - 1]);
      } else {
        ProductPrefixLe(t, k);
        assert t[..k] == s[..k];
        MulMono(1, s[|s| - 1], Product(t));
      }
    }
  }

  lemma {:induction false} ProductMono(a: seq<nat>, b: seq<nat>)
    requires |a| == |b| && forall k :: 0 <= k < |a| ==> a[k] <= b[k]
    ensures Product(a) <= Product(b)
    decreases |a|
  {
    if |a| > 0 {
      var m := |a| - 1;
      ProductMono(a[..m], b[..m]);
      MulMono(Product(a[..m]), Product(b[..m]), a[m]);
      MulMono(a[m], b[m], Product(b[..m]));
    }
  }

  /** One factor strictly smaller, the others no larger: a strictly smaller product. */
  lemma {:induction false} ProductStrict(a: seq<nat>, b: seq<nat>, i: nat)
    requires |a| == |b| && Positive(b) && i < |a|
    requires forall k :: 0 <= k < |a| ==> a[k] <= b[k]
    requires a[i] < b[i]
    ensures Product(a) < Product(b)
    decreases |a|
  {
    var m := |a| - 1;
    ProductPrefixLe(b[..m], m);
    assert b[..m][..m] == b[..m];
    if i == m {
      ProductMono(a[..m], b[..m]);
      MulMono(Product(a[..m]), Product(b[..m]), a[m]);
      MulStrict(Product(b[..m]), a[m], b[m]);
    } else {
      ProductStrict(a[..m], b[..m], i);
      MulMono(a[m], b[m], Product(a[..m]));
      MulStrict(b[m], Product(a[..m]), Product(b[..m]));
    }
  }

  /** The unsigned int product of the output-length loop, when nothing wraps. */
  lemma {:induction false} Length32IsProduct(s: seq<nat>)
    requires forall k :: 0 <= k <= |s| ==> Product(s[..k]) < U32
    ensures Length32(s) == Product(s)
    decreases |s|
  {
    assert s[..|s|] == s;
    if s != [] {
      var t := s[..|s| - 1];
      forall k | 0 <= k <= |t|
        ensures Product(t[..k]) < U32
      {
        assert t[..k] == s[..k];
      }
      Length32IsProduct(t);
    }
  }

  /** get_index_factors gives the products of the extents below each axis. */
  lemma {:induction false} FactorsAreProducts(s: seq<nat>)
    requires |s| >= 1 && Positive(s) && Product(s) < U32
    ensures |Factors(s)| == |s|
    ensures forall k :: 0 <= k < |s| ==> Factors(s)[k] == Product(s[..k])
    decreases |s|
  {
    if |s| > 1 {
      var t := s[..|s| - 1];
      ProductPrefixLe(s, |s| - 1);
      assert Positive(t);
      FactorsAreProducts(t);
      var p := Factors(t);
      var f := Factors(s);
      assert f == p + [(p[|p| - 1] * s[|s| - 2]) % U32];
      assert p[|p| - 1] * s[|s| - 2] == Product(t) by {
        assert t[..|t| - 1] == s[..|s| - 2];
      }
      ModOfRange(Product(t), U32);
      forall k | 0 <= k < |s|
        ensures f[k] == Product(s[..k])
      {
        if k < |t| {
          assert t[..k] == s[..k];
        } else {
          assert s[..k] == t;
        }
      }
    }
  }

  // ---- row-major positions ------------------------------------------------

  lemma StepBelow(a: nat, b: nat, p: nat, s: nat)
    requires a < p && b < s
    ensures a + b * p < s * p
  {
    MulMono(b, s - 1, p);
  }

  /** Each coordinate below its extent. */
  predicate Below(p: seq<nat>, s: seq<nat>)
    requires |p| == |s|
  {
    forall k :: 0 <= k < |s| ==> p[k] < s[k]
  }

  lemma BelowPrefix(p: seq<nat>, s: seq<nat>, m: nat)
    requires |p| == |s| && m <= |s| && Below(p, s)
    ensures Below(p[..m], s[..m])
  {
    forall k | 0 <= k < m
      ensures p[..m][k] < s[..m][k]
    {
      assert p[..m][k] == p[k] && s[..m][k] == s[k];
    }
  }

  /** The row-major position of a point in an array of extents `s`. */
  function RowMajor(p: seq<nat>, s: seq<nat>): (r: nat)
    requires |p| == |s|
    ensures Below(p, s) ==> r < Product(s)
    decreases |s|
  {
    if s == [] then 0
    else
      var m := |s| - 1;
      var r := RowMajor(p[..m], s[..m]);
      if Below(p, s) then
        BelowPrefix(p, s, m);
        StepBelow(r, p[m], Product(s[..m]), s[m]);
        r + p[m] * Product(s[..m])
      else
        r + p[m] * Product(s[..m])
  }

  /** get_input_offset is the row-major position when the extents' product fits in unsigned int. */
  lemma {:induction false} Dot32IsRowMajor(p: seq<nat>, s: seq<nat>, m: nat)
    requires |p| == |s| && 1 <= |s| && m <= |s| && Positive(s) && Product(s) < U32
    requires Below(p, s)
    ensures |Factors(s)| == |s|
    ensures Dot32(p, Factors(s), m) == RowMajor(p[..m], s[..m])
    decreases m
  {
    FactorsAreProducts(s);
    if m > 0 {
      Dot32IsRowMajor(p, s, m - 1);
      var P := Product(s[..m - 1]);
      var r := RowMajor(p[..m - 1], s[..m - 1]);
      RowMajorSnoc(p, s, m);
      BelowPrefix(p, s, m - 1);
      ProductPrefixLe(s, m);
      assert Factors(s)[m - 1] == P;
      Dot32Step(r, p[m - 1], P, s[m - 1]);
    }
  }

  /** The first m axes are the first m - 1 and one more. */
  lemma RowMajorSnoc(p: seq<nat>, s: seq<nat>, m: nat)
    requires |p| == |s| && 1 <= m <= |s|
    ensures RowMajor(p[..m], s[..m]) == RowMajor(p[..m - 1], s[..m - 1]) + p[m - 1] * Product(s[..m - 1])
    ensures Product(s[..m]) == Product(s[..m - 1]) * s[m - 1]
  {
    assert p[..m][..m - 1] == p[..m - 1];
    assert s[..m][..m - 1] == s[..m - 1];
  }

  /** One term of the dot product: no unsigned-int wrap while the partial sum stays inside the array. */
  lemma Dot32Step(r: nat, x: nat, P: nat, S: nat)
    requires r < P && x < S && P * S < U32
    ensures (r + (x * P) % U32) % U32 == r + x * P
  {
    StepBelow(r, x, P, S);
    ModOfRange(x * P, U32);
    ModOfRange(r + x * P, U32);
  }

  // ---- the odometer ---------------------------------------------------------

  /** The mixed-radix digits of `o` over radices `n`, least significant first. */
  function Digits(o: nat, n: seq<nat>): (d: seq<nat>)
    requires Positive(n)
    ensures |d| == |n| && forall k :: 0 <= k < |n| ==> d[k] < n[k]
    decreases |n|
  {
    if n == [] then []
    else
      var rest := Digits(o / n[0], n[1..]);
      assert forall k :: 1 <= k < |n| ==> ([o % n[0]] + rest)[k] == rest[k - 1];
      [o % n[0]] + rest
  }

  /** The number the digits stand for: the inverse of Digits. */
  function Value(d: seq<nat>, n: seq<nat>): nat
    requires |d| == |n|
    decreases |n|
  {
    if n == [] then 0 else d[0] + n[0] * Value(d[1..], n[1..])
  }

  lemma {:induction false} ProductFront(s: seq<nat>)
    requires |s| >= 1
    ensures Product(s) == s[0] * Product(s[1..])
    decreases |s|
  {
    if |s| == 1 {
      assert s[1..] == [] && s[..0] == [];
    } else {
      var t := s[..|s| - 1];
      ProductFront(t);
      assert t[1..] == s[1..][..|s| - 2];
      assert Product(s[1..]) == Product(t[1..]) * s[|s| - 1];
    }
  }

  lemma DivBelow(o: nat, a: nat, b: nat)
    requires a > 0 && o < a * b
    ensures o / a < b
  {
    if o / a >= b {
      MulMono(b, o / a, a);
    }
  }

  /** Below the product of the radices, Value undoes Digits: Digits(o) is the o-th point in row-major order. */
  lemma {:induction false} ValueOfDigits(o: nat, n: seq<nat>)
    requires Positive(n) && o < Product(n)
    ensures Value(Digits(o, n), n) == o
    decreases |n|
  {
    if n != [] {
      var q, r := o / n[0], o % n[0];
      ProductFront(n);
      DivBelow(o, n[0], Product(n[1..]));
      ValueOfDigits(q, n[1..]);
      var d := Digits(o, n);
      assert d[0] == r && d[1..] == Digits(q, n[1..]);
      assert Value(d, n) == r + n[0] * q;
      DivMod(o, n[0]);
    } else {
      assert Product(n) == 1;
    }
  }

  /** The digits of 0 are all 0. */
  lemma {:induction false} DigitsOfZero(n: seq<nat>)
    requires Positive(n)
    ensures forall k :: 0 <= k < |n| ==> Digits(0, n)[k] == 0
    decreases |n|
  {
    if n != [] {
      DigitsOfZero(n[1..]);
    }
  }

  /** Add one to digit k, carrying into the digits above; None past the top digit. */
  function IncAt(d: seq<nat>, n: seq<nat>, k: nat): (r: Option<seq<nat>>)
    requires |d| == |n| && k < |n|
    ensures r.Some? ==> |r.value| == |d|
    ensures r.Some? && Below(d, n) ==> Below(r.value, n)
    decreases |n| - k
  {
    if d[k] + 1 < n[k] then Some(d[k := d[k] + 1])
    else if k + 1 < |n| then IncAt(d[k := 0], n, k + 1)
    else None
  }

  lemma {:induction false} IncAtShift(x: nat, m: nat, d: seq<nat>, n: seq<nat>, k: nat)
    requires |d| == |n| && k < |n|
    ensures IncAt([x] + d, [m] + n, k + 1)
      == if IncAt(d, n, k).Some? then Some([x] + IncAt(d, n, k).value) else None
    decreases |n| - k
  {
    var xd := [x] + d;
    var mn := [m] + n;
    assert xd[k + 1] == d[k] && mn[k + 1] == n[k];
    if d[k] + 1 < n[k] {
      assert xd[k + 1 := d[k] + 1] == [x] + d[k := d[k] + 1];
    } else if k + 1 < |n| {
      assert xd[k + 1 := 0] == [x] + d[k := 0];
      IncAtShift(x, m, d[k := 0], n, k + 1);
    }
  }

  lemma DivMod(x: nat, m: nat)
    requires m > 0
    ensures x == (x / m) * m + x % m && x % m < m
  {
  }

  /** Quotient and remainder are the only such pair. */
  lemma DivModUnique(x: nat, m: nat, q: nat, r: nat)
    requires m > 0 && r < m && x == q * m + r
    ensures x / m == q && x % m == r
  {
    var q0, r0 := x / m, x % m;
    assert x == q0 * m + r0;
    if q0 < q {
      MulMono(q0 + 1, q, m);
    } else if q < q0 {
      MulMono(q + 1, q0, m);
    }
  }

  lemma DivModSucc(o: nat, m: nat)
    requires m > 0
    ensures o % m + 1 < m ==> (o + 1) % m == o % m + 1 && (o + 1) / m == o / m
    ensures o % m + 1 >= m ==> (o + 1) % m == 0 && (o + 1) / m == o / m + 1
  {
    var q, r := o / m, o % m;
    if r + 1 < m {
      DivModUnique(o + 1, m, q, r + 1);
    } else {
      assert (q + 1) * m == q * m + m;
      DivModUnique(o + 1, m, q + 1, 0);
    }
  }

  lemma DigitsCons(o: nat, n: seq<nat>)
    requires Positive(n) && n != []
    ensures Digits(o, n) == [o % n[0]] + Digits(o / n[0], n[1..])
  {
  }

  /** The odometer step takes the digits of o to those of o + 1. */
  lemma {:induction false} DigitsSucc(o: nat, n: seq<nat>)
    requires Positive(n) && o + 1 < Product(n)
    ensures IncAt(Digits(o, n), n, 0) == Some(Digits(o + 1, n))
    decreases |n|
  {
    assert n != [];
    if o % n[0] + 1 < n[0] {
      DigitsSuccLow(o, n);
    } else {
      var q := o / n[0];
      CarryRoom(o, n);
      DigitsSucc(q, n[1..]);
      DigitsSuccCarry(o, n);
    }
  }

  /** When the lowest digit is at its top, the higher digits still have room to step. */
  lemma CarryRoom(o: nat, n: seq<nat>)
    requires Positive(n) && n != [] && o + 1 < Product(n) && o % n[0] + 1 >= n[0]
    ensures |n| >= 2 && o / n[0] + 1 < Product(n[1..])
  {
    ProductFront(n);
    DivModSucc(o, n[0]);
    DivBelow(o + 1, n[0], Product(n[1..]));

  }

  /** The lowest digit has room: only it changes. */
  lemma DigitsSuccLow(o: nat, n: seq<nat>)
    requires Positive(n) && n != [] && o % n[0] + 1 < n[0]
    ensures IncAt(Digits(o, n), n, 0) == Some(Digits(o + 1, n))
  {
    var q, r := o / n[0], o % n[0];
    DigitsCons(o, n);
    DigitsCons(o + 1, n);
    DivModSucc(o, n[0]);
    var d := Digits(o, n);
    assert d[0 := r + 1] == [r + 1] + Digits(q, n[1..]);
  }

  /** The lowest digit is at its top: it goes to 0 and the rest of the digits step. */
  lemma DigitsSuccCarry(o: nat, n: seq<nat>)
    requires Positive(n) && |n| >= 2 && o % n[0] + 1 >= n[0]
    requires IncAt(Digits(o / n[0], n[1..]), n[1..], 0) == Some(Digits(o / n[0] + 1, n[1..]))
    ensures IncAt(Digits(o, n), n, 0) == Some(Digits(o + 1, n))
  {
    var n0, rest := n[0], n[1..];
    var q := o / n0;
    assert Digits(o, n) == [o % n0] + Digits(q, rest) by {
      DigitsCons(o, n);
    }
    assert Digits(o + 1, n) == [0] + Digits(q + 1, rest) by {
      DigitsCons(o + 1, n);
      DivModSucc(o, n0);
    }
    assert n == [n0] + rest;
    IncAtCarry(o % n0, n0, Digits(q, rest), rest, Digits(q + 1, rest));
  }

  /** A top lowest digit goes to 0 and the step carries into the digits above it. */
  lemma IncAtCarry(r: nat, n0: nat, t: seq<nat>, rest: seq<nat>, u: seq<nat>)
    requires |t| == |rest| >= 1 && r + 1 >= n0
    requires IncAt(t, rest, 0) == Some(u)
    ensures IncAt([r] + t, [n0] + rest, 0) == Some([0] + u)
  {
    var d, m := [r] + t, [n0] + rest;
    IncAtTop(d, m);
    assert d[0 := 0] == [0] + t;
    IncAtShift(0, n0, t, rest, 0);
  }

  /** A lowest digit at its top carries: the step goes on from digit 1 with digit 0 reset. */
  lemma IncAtTop(d: seq<nat>, m: seq<nat>)
    requires |d| == |m| >= 2 && d[0] + 1 >= m[0]
    ensures IncAt(d, m, 0) == IncAt(d[0 := 0], m, 1)
  {
  }

  // ---- the walk's states --------------------------------------------------

  /** The current indices at digits d: `start + d * stride` on each axis. */
  function Point(axes: seq<SubsetInfo>, d: seq<nat>): (p: seq<nat>)
    requires |d| == |axes| && forall k :: 0 <= k < |axes| ==> axes[k].stride > 0
    ensures |p| == |axes|
    ensures forall k :: 0 <= k < |axes| ==> p[k] == axes[k].start + d[k] * axes[k].stride
  {
    seq(|axes|, k requires 0 <= k < |axes| => axes[k].start + d[k] * axes[k].stride)
  }

  /** The number of points of the box. */
  function Total(axes: seq<SubsetInfo>): nat {
    Product(CeilSizes(axes))
  }

  lemma CeilSizesPositive(axes: seq<SubsetInfo>)
    requires RegularAxes(axes)
    ensures Positive(CeilSizes(axes))
  {
    forall k | 0 <= k < |axes|
      ensures CeilSizes(axes)[k] > 0
    {
      assert Inside(axes[k], 0);
    }
  }

  /** Every point of the box lies inside the array, below each axis's stop. */
  lemma PointInside(axes: seq<SubsetInfo>, d: seq<nat>)
    requires RegularAxes(axes) && |d| == |axes|
    requires forall k :: 0 <= k < |axes| ==> d[k] < CeilSize(axes[k])
    ensures forall k :: 0 <= k < |axes| ==>
      Point(axes, d)[k] < axes[k].stop <= DimSizes(axes)[k]
  {
    forall k | 0 <= k < |axes|
      ensures Point(axes, d)[k] < axes[k].stop
    {
      assert Inside(axes[k], d[k]);
    }
  }

  /** The o-th point of the box in row-major order. */
  function BoxPoint(axes: seq<SubsetInfo>, o: nat): (p: seq<nat>)
    requires RegularAxes(axes)
    ensures |p| == |axes| && forall k :: 0 <= k < |axes| ==> p[k] < axes[k].stop <= DimSizes(axes)[k]
  {
    CeilSizesPositive(axes);
    var d := Digits(o, CeilSizes(axes));
    PointInside(axes, d);
    Point(axes, d)
  }

  /** The input position of output o: the row-major position of the o-th point of the box. */
  function Locate(axes: seq<SubsetInfo>, o: nat): (id: nat)
    requires RegularAxes(axes)
    ensures id < Product(DimSizes(axes))
  {
    RowMajor(BoxPoint(axes, o), DimSizes(axes))
  }

  /**
   * The box, in row-major order: output o is the input at the o-th point,
   * scaled and offset.
   */
  function Box(input: seq<real>, axes: seq<SubsetInfo>, scale: real, offset: real, integral: bool): (b: seq<real>)
    requires Regular(input, axes)
    ensures |b| == Total(axes)
  {
    seq(Total(axes), o requires 0 <= o < Total(axes) => Elem(input[Locate(axes, o)], scale, offset, integral))
  }

  /** The indices at the top of the loop for output o: after the advance of axis 0, before the carry. */
  function Pre(axes: seq<SubsetInfo>, o: nat): (p: seq<nat>)
    requires RegularAxes(axes)
    ensures |p| == |axes|
  {
    CeilSizesPositive(axes);
    var n := CeilSizes(axes);
    if o == 0 then Point(axes, Digits(0, n))
    else
      var d := Digits(o - 1, n);
      Point(axes, d[0 := d[0] + 1])
  }

  /** An advanced index still inside its range is left as it is by the carry cascade. */
  lemma CarryStays(axes: seq<SubsetInfo>, d: seq<nat>, k: nat)
    requires RegularAxes(axes) && |d| == |axes| && k < |axes|
    requires d[k] + 1 < CeilSize(axes[k])
    ensures Carry(axes, Point(axes, d[k := d[k] + 1]), k) == Done(Point(axes, d[k := d[k] + 1]))
  {
    var e := d[k := d[k] + 1];
    var cur := Point(axes, e);
    assert e[k] < CeilSize(axes[k]);
    StepInside(axes[k], e[k]);
    assert cur[k] == axes[k].start + e[k] * axes[k].stride;
    CarryHere(axes, cur, k);
  }

  /** A step below the axis's size lands below its stop. */
  lemma StepInside(a: SubsetInfo, x: nat)
    requires a.stride > 0 && x < CeilSize(a)
    ensures a.start + x * a.stride < a.stop
  {
    assert Inside(a, x);
  }

  /** An index below its stop ends the carry cascade where it is. */
  lemma CarryHere(axes: seq<SubsetInfo>, cur: seq<nat>, k: nat)
    requires |cur| == |axes| && k < |axes| && cur[k] < axes[k].stop
    ensures Carry(axes, cur, k) == Done(cur)
  {
  }

  /**
   * An advanced index that has reached its stop carries: it goes back to its
   * start and the next axis steps, which is the point with digit k at 0 and
   * digit k + 1 one higher.
   */
  lemma CarryStepPoint(axes: seq<SubsetInfo>, d: seq<nat>, k: nat)
    requires RegularAxes(axes) && |d| == |axes| && k + 1 < |axes|
    requires d[k] + 1 >= CeilSize(axes[k]) && d[k + 1] < CeilSize(axes[k + 1])
    ensures var cur := Point(axes, d[k := d[k] + 1]);
      cur[k] >= axes[k].stop
      && cur[k := axes[k].start % U32][k + 1 := Add32(cur[k + 1], axes[k + 1].stride)]
         == Point(axes, d[k := 0][k + 1 := d[k + 1] + 1])
  {
    var a, b := axes[k], axes[k + 1];
    CarryStepAxes(a, b, d[k], d[k + 1]);
    var cur := Point(axes, d[k := d[k] + 1]);
    var next := cur[k := a.start % U32][k + 1 := Add32(cur[k + 1], b.stride)];
    var p := Point(axes, d[k := 0][k + 1 := d[k + 1] + 1]);
    assert next[k] == p[k];
    assert next[k + 1] == p[k + 1];
    assert next == p;
  }

  /**
   * The arithmetic of one carry: axis a has run past its stop, goes back to
   * its start, and axis b takes one more stride without wrapping.
   */
  lemma CarryStepAxes(a: SubsetInfo, b: SubsetInfo, da: nat, db: nat)
    requires 0 < a.stride && a.start < a.stop && a.stop + a.stride <= U32
    requires 0 < b.stride && b.start < b.stop && b.stop + b.stride <= U32
    requires da + 1 >= CeilSize(a) && db < CeilSize(b)
    ensures a.start + (da + 1) * a.stride >= a.stop
    ensures a.start % U32 == a.start + 0 * a.stride
    ensures Add32(b.start + db * b.stride, b.stride) == b.start + (db + 1) * b.stride
  {
    assert !Inside(a, da + 1);
    assert Inside(b, db);
    MulSucc(db, b.stride);
  }

  /**
   * The carry cascade from axis k, entered with digit k one past its value
   * and the digits below it back at 0, lands on the odometer's next point.
   */
  lemma {:induction false} CarryAt(axes: seq<SubsetInfo>, d: seq<nat>, k: nat)
    requires RegularAxes(axes) && |d| == |axes| && k < |axes|
    requires forall j :: 0 <= j < |axes| ==> d[j] < CeilSize(axes[j])
    requires IncAt(d, CeilSizes(axes), k).Some?
    ensures Carry(axes, Point(axes, d[k := d[k] + 1]), k) == Done(Point(axes, IncAt(d, CeilSizes(axes), k).value))
    decreases |axes| - k
  {
    var n := CeilSizes(axes);
    if d[k] + 1 < n[k] {
      CarryStays(axes, d, k);
    } else {
      assert k + 1 < |axes|;
      CarryStepPoint(axes, d, k);
      CarryAt(axes, d[k := 0], k + 1);
    }
  }

  /** Before output o, the carry cascade turns the indices into the o-th point of the box. */
  lemma CarryPre(axes: seq<SubsetInfo>, o: nat)
    requires RegularAxes(axes) && o < Total(axes)
    ensures Carry(axes, Pre(axes, o), 0) == Done(BoxPoint(axes, o))
  {
    if o == 0 {
      CarryFirst(axes);
    } else {
      CarryNext(axes, o);
    }
  }

  /** The digits of the odometer, as indices along the axes, stay inside the box. */
  lemma DigitsInBox(axes: seq<SubsetInfo>, o: nat)
    requires RegularAxes(axes)
    ensures Positive(CeilSizes(axes))
    ensures forall j :: 0 <= j < |axes| ==> Digits(o, CeilSizes(axes))[j] < CeilSize(axes[j])
  {
    CeilSizesPositive(axes);
  }

  /** Past the first output, the carry cascade completes the odometer's step. */
  lemma CarryNext(axes: seq<SubsetInfo>, o: nat)
    requires RegularAxes(axes) && 0 < o < Total(axes)
    ensures Carry(axes, Pre(axes, o), 0) == Done(BoxPoint(axes, o))
  {
    CeilSizesPositive(axes);
    CarryOdometer(axes, o);
  }

  /** The carry cascade after output o - 1 lands on the digits of o. */
  lemma CarryOdometer(axes: seq<SubsetInfo>, o: nat)
    requires RegularAxes(axes) && 0 < o < Total(axes)
    ensures Positive(CeilSizes(axes))
    ensures var d := Digits(o - 1, CeilSizes(axes));
      Carry(axes, Point(axes, d[0 := d[0] + 1]), 0) == Done(Point(axes, Digits(o, CeilSizes(axes))))
  {
    DigitsInBox(axes, o - 1);
    var n := CeilSizes(axes);
    DigitsSucc(o - 1, n);
    CarryAt(axes, Digits(o - 1, n), 0);
  }

  /** The first point needs no carry. */
  lemma CarryFirst(axes: seq<SubsetInfo>)
    requires RegularAxes(axes)
    ensures Carry(axes, Pre(axes, 0), 0) == Done(BoxPoint(axes, 0))
  {
    CeilSizesPositive(axes);
    DigitsOfZero(CeilSizes(axes));
    assert Pre(axes, 0)[0] == axes[0].start;
  }

  /** Under regular axes the extents fit in unsigned int, so the walk sees them as they are. */
  lemma DimSizesFit(axes: seq<SubsetInfo>)
    requires RegularAxes(axes)
    ensures Positive(DimSizes(axes)) && DimSizes32(axes) == DimSizes(axes)
  {
    var s := DimSizes(axes);
    forall k | 0 <= k < |axes|
      ensures s[k] < U32
    {
      ProductPrefixLe(s, k + 1);
      ProductPrefixLe(s[..k + 1], k);
      assert s[..k + 1][..k] == s[..k];
      MulMono(1, Product(s[..k]), s[k]);
    }
  }

  /** The walk's dot product of a box point with the index factors is the point's row-major position. */
  lemma LocateIsDot(axes: seq<SubsetInfo>, o: nat)
    requires RegularAxes(axes)
    ensures |Factors(DimSizes(axes))| == |axes|
    ensures Dot32(BoxPoint(axes, o), Factors(DimSizes(axes)), |axes|) == Locate(axes, o)
  {
    var s := DimSizes(axes);
    var c := BoxPoint(axes, o);
    DimSizesFit(axes);
    FactorsAreProducts(s);
    assert Below(c, s);
    Dot32IsRowMajor(c, s, |s|);
    assert c[..|s|] == c && s[..|s|] == s;
  }

  /** Advancing axis 0 of the o-th box point gives the indices at the top of the loop for output o + 1. */
  lemma PreNext(axes: seq<SubsetInfo>, o: nat)
    requires RegularAxes(axes)
    ensures var c := BoxPoint(axes, o); c[0 := Add32(c[0], axes[0].stride)] == Pre(axes, o + 1)
  {
    CeilSizesPositive(axes);
    var d := Digits(o, CeilSizes(axes));
    var c := BoxPoint(axes, o);
    assert c[0] + axes[0].stride < U32;
    assert Pre(axes, o + 1) == Point(axes, d[0 := d[0] + 1]);
    PointAdvance(axes, d);
  }

  /** Adding the stride to the index of axis 0 is one more step of its digit. */
  lemma PointAdvance(axes: seq<SubsetInfo>, d: seq<nat>)
    requires |d| == |axes| >= 1 && forall k :: 0 <= k < |axes| ==> axes[k].stride > 0
    requires Point(axes, d)[0] + axes[0].stride < U32
    ensures Point(axes, d)[0 := Add32(Point(axes, d)[0], axes[0].stride)] == Point(axes, d[0 := d[0] + 1])
  {
    MulSucc(d[0], axes[0].stride);
  }

  /** One turn of the output loop emits the o-th element of the box and leaves the indices for output o + 1. */
  lemma WalkHead(input: seq<real>, axes: seq<SubsetInfo>, o: nat, len: nat,
                 scale: real, offset: real, integral: bool)
    requires Regular(input, axes) && o < len <= Total(axes)
    ensures |Factors(DimSizes32(axes))| >= |axes|
    ensures Walk(input, axes, Factors(DimSizes32(axes)), Pre(axes, o), o, len, scale, offset, integral)
      == Prepend([Box(input, axes, scale, offset, integral)[o]],
                 Walk(input, axes, Factors(DimSizes32(axes)), Pre(axes, o + 1), o + 1, len, scale, offset, integral))
  {
    DimSizesFit(axes);
    LocateIsDot(axes, o);
    var F := Factors(DimSizes(axes));
    var c := BoxPoint(axes, o);
    assert Box(input, axes, scale, offset, integral)[o] == Elem(input[Locate(axes, o)], scale, offset, integral);
    CarryPre(axes, o);
    WalkStep(input, axes, F, Pre(axes, o), o, len, scale, offset, integral);
    PreNext(axes, o);
  }

  /** The outputs o to len - 1 of the walk are those of the box. */
  lemma {:induction false} WalkBox(input: seq<real>, axes: seq<SubsetInfo>, o: nat, len: nat,
                                   scale: real, offset: real, integral: bool)
    requires Regular(input, axes) && o <= len <= Total(axes)
    ensures |Factors(DimSizes32(axes))| >= |axes|
    ensures Walk(input, axes, Factors(DimSizes32(axes)), Pre(axes, o), o, len, scale, offset, integral)
      == Done(Box(input, axes, scale, offset, integral)[o..len])
    decreases len - o
  {
    if o == len {
      assert Box(input, axes, scale, offset, integral)[o..len] == [];
    } else {
      WalkBox(input, axes, o + 1, len, scale, offset, integral);
      WalkExtend(input, axes, o, len, scale, offset, integral);
    }
  }

  /** If the walk from output o + 1 yields the box from o + 1, the walk from o yields the box from o. */
  lemma WalkExtend(input: seq<real>, axes: seq<SubsetInfo>, o: nat, len: nat,
                   scale: real, offset: real, integral: bool)
    requires Regular(input, axes) && o < len <= Total(axes)
    requires Walk(input, axes, Factors(DimSizes32(axes)), Pre(axes, o + 1), o + 1, len, scale, offset, integral)
      == Done(Box(input, axes, scale, offset, integral)[o + 1..len])
    ensures Walk(input, axes, Factors(DimSizes32(axes)), Pre(axes, o), o, len, scale, offset, integral)
      == Done(Box(input, axes, scale, offset, integral)[o..len])
  {
    var box := Box(input, axes, scale, offset, integral);
    WalkHead(input, axes, o, len, scale, offset, integral);
    PrependSlice(box, o, len, box[o],
      Walk(input, axes, Factors(DimSizes32(axes)), Pre(axes, o + 1), o + 1, len, scale, offset, integral));
  }

  /** Prepending the o-th element to the slice after it gives the slice from o. */
  lemma PrependSlice(box: seq<real>, o: nat, len: nat, x: real, rest: Outcome<seq<real>>)
    requires o < len <= |box| && box[o] == x && rest == Done(box[o + 1..len])
    ensures Prepend([x], rest) == Done(box[o..len])
  {
    assert box[o..len] == [x] + box[o + 1..len];
  }

  // ---- the theorem ------------------------------------------------------------

  /**
   * subset with an output length no longer than the box yields the box's
   * first outputs in row-major order.
   */
  lemma SubsetOfLengthIsBoxPrefix(input: seq<real>, axes: seq<SubsetInfo>, len: nat,
                                  scale: real, offset: real, integral: bool)
    requires Regular(input, axes) && len <= Total(axes)
    ensures SubsetOfLength(input, axes, len, scale, offset, integral)
      == Done(Box(input, axes, scale, offset, integral)[..len])
  {
    DimSizesFit(axes);
    ProductPrefixLe(DimSizes(axes), 0);
    assert |input| > 0;
    StartsArePre(axes);
    WalkBox(input, axes, 0, len, scale, offset, integral);
  }

  /** The walk starts at the first point of the box. */
  lemma StartsArePre(axes: seq<SubsetInfo>)
    requires RegularAxes(axes)
    ensures Starts32(axes) == Pre(axes, 0)
  {
    CeilSizesPositive(axes);
    var n := CeilSizes(axes);
    DigitsOfZero(n);
    var d := Digits(0, n);
    assert Pre(axes, 0) == Point(axes, d);
    StartsAreZeroPoint(axes, d);
  }

  /** The point at all-zero digits is the starts, each already inside unsigned int. */
  lemma StartsAreZeroPoint(axes: seq<SubsetInfo>, d: seq<nat>)
    requires |d| == |axes|
    requires forall k :: 0 <= k < |axes| ==> 0 < axes[k].stride && axes[k].start < U32 && d[k] == 0
    ensures Starts32(axes) == Point(axes, d)
  {
    var p := Point(axes, d);
    forall k | 0 <= k < |axes|
      ensures Starts32(axes)[k] == p[k]
    {
    }
  }

  /** The box has no more points than the array. */
  lemma TotalWithinArray(axes: seq<SubsetInfo>)
    requires RegularAxes(axes)
    ensures Positive(CeilSizes(axes)) && Total(axes) <= Product(DimSizes(axes))
  {
    CeilSizesPositive(axes);
    forall k | 0 <= k < |axes|
      ensures CeilSizes(axes)[k] <= DimSizes(axes)[k]
    {
      var a := axes[k];
      MulMono(1, a.stride, a.stop - a.start);
      assert !Inside(a, a.stop - a.start);
    }
    ProductMono(CeilSizes(axes), DimSizes(axes));
  }

  /** subset, with the length its walk takes, yields exactly the box. */
  lemma SubsetSpecIsBox(input: seq<real>, axes: seq<SubsetInfo>, scale: real, offset: real, integral: bool)
    requires Regular(input, axes)
    ensures SubsetSpec(input, axes, scale, offset, integral) == Done(Box(input, axes, scale, offset, integral))
  {
    TotalWithinArray(axes);
    var n := CeilSizes(axes);
    forall k | 0 <= k <= |n|
      ensures Product(n[..k]) < U32
    {
      ProductPrefixLe(n, k);
    }
    Length32IsProduct(n);
    SubsetOfLengthIsBoxPrefix(input, axes, Total(axes), scale, offset, integral);
    assert Box(input, axes, scale, offset, integral)[..Total(axes)] == Box(input, axes, scale, offset, integral);
  }

  // ---- size() as written ---------------------------------------------------------

  /** Under regular axes, size() is the range divided by the stride, rounded down. */
  lemma SizeIsFloor(a: SubsetInfo)
    requires 0 < a.stride && a.start < a.stop && a.stop + a.stride <= U32
    ensures a.stride % U64 != 0
    ensures Size(a) == (a.stop - a.start) / a.stride
  {
    ModOfRange(a.stride, U64);
  }

  /** Rounding down never exceeds rounding up, and the two agree exactly when the divisor divides. */
  lemma FloorCeil(r: nat, s: nat)
    requires r > 0 && s > 0
    ensures r / s <= (r + s - 1) / s
    ensures r / s == (r + s - 1) / s <==> r % s == 0
  {
    var q, m := r / s, r % s;
    DivMod(r, s);
    if m == 0 {
      DivModUnique(r + s - 1, s, q, s - 1);
    } else {
      MulSucc(q, s);
      DivModUnique(r + s - 1, s, q + 1, m - 1);
    }
  }

  /** A stride divides the range of its axis. */
  predicate Divides(a: SubsetInfo)
    requires a.stride > 0
  {
    (a.stop - a.start) % a.stride == 0
  }

  /**
   * Axis by axis, size() as written is at most the number of steps the walk
   * takes, and equal to it exactly when the stride divides the range.
   */
  lemma SizesAsWrittenBelow(axes: seq<SubsetInfo>)
    requires RegularAxes(axes)
    ensures NonZeroStrides(axes)
    ensures forall k :: 0 <= k < |axes| ==> SizesAsWritten(axes)[k] <= CeilSizes(axes)[k]
    ensures forall k :: 0 <= k < |axes| ==> (SizesAsWritten(axes)[k] == CeilSizes(axes)[k] <==> Divides(axes[k]))
  {
    forall k | 0 <= k < |axes|
      ensures axes[k].stride % U64 != 0
    {
      SizeIsFloor(axes[k]);
    }
    forall k | 0 <= k < |axes|
      ensures SizesAsWritten(axes)[k] <= CeilSizes(axes)[k]
      ensures SizesAsWritten(axes)[k] == CeilSizes(axes)[k] <==> Divides(axes[k])
    {
      var a := axes[k];
      SizeIsFloor(a);
      FloorCeil(a.stop - a.start, a.stride);
    }
  }

  /** Every prefix of a sequence bounded pointwise by a positive one has a product below 2^32 when the bound's has. */
  lemma PrefixesBelow(f: seq<nat>, n: seq<nat>)
    requires |f| == |n| && Positive(n) && Product(n) < U32
    requires forall k :: 0 <= k < |f| ==> f[k] <= n[k]
    ensures forall k :: 0 <= k <= |f| ==> Product(f[..k]) < U32
  {
    forall k | 0 <= k <= |f|
      ensures Product(f[..k]) < U32
    {
      forall j | 0 <= j < k
        ensures f[..k][j] <= n[..k][j]
      {
      }
      ProductMono(f[..k], n[..k]);
      ProductPrefixLe(n, k);
    }
  }

  /**
   * The output length subset computes: the product of the rounded-down
   * sizes, which fits in unsigned int, is at most the number of points of the
   * box, and is all of them exactly when every stride divides its range.
   */
  lemma LengthAsWritten(axes: seq<SubsetInfo>)
    requires RegularAxes(axes)
    ensures NonZeroStrides(axes)
    ensures Length32(SizesAsWritten(axes)) == Product(SizesAsWritten(axes)) <= Total(axes)
    ensures Product(SizesAsWritten(axes)) == Total(axes) <==> forall k :: 0 <= k < |axes| ==> Divides(axes[k])
  {
    SizesAsWrittenBelow(axes);
    TotalWithinArray(axes);
    var f, n := SizesAsWritten(axes), CeilSizes(axes);
    PrefixesBelow(f, n);
    Length32IsProduct(f);
    ProductMono(f, n);
    WholeBoxIffDivides(axes);
  }

  /** The rounded-down sizes multiply to the number of points of the box exactly when every stride divides. */
  lemma WholeBoxIffDivides(axes: seq<SubsetInfo>)
    requires RegularAxes(axes)
    ensures NonZeroStrides(axes)
    ensures Product(SizesAsWritten(axes)) == Total(axes) <==> forall k :: 0 <= k < |axes| ==> Divides(axes[k])
  {
    SizesAsWrittenBelow(axes);
    CeilSizesPositive(axes);
    var f, n := SizesAsWritten(axes), CeilSizes(axes);
    if forall k :: 0 <= k < |axes| ==> Divides(axes[k]) {
      assert f == n;
    } else {
      var i :| 0 <= i < |axes| && !Divides(axes[i]);
      ProductStrict(f, n, i);
    }
  }

  /**
   * subset as written yields the first outputs of the box, as many as the
   * product of the rounded-down sizes.
   */
  lemma SubsetAsWrittenIsPrefix(input: seq<real>, axes: seq<SubsetInfo>, scale: real, offset: real, integral: bool)
    requires Regular(input, axes)
    ensures NonZeroStrides(axes) && Product(SizesAsWritten(axes)) <= Total(axes)
    ensures SubsetAsWritten(input, axes, scale, offset, integral)
      == Done(Box(input, axes, scale, offset, integral)[..Product(SizesAsWritten(axes))])
  {
    LengthAsWritten(axes);
    SubsetOfLengthIsBoxPrefix(input, axes, Product(SizesAsWritten(axes)), scale, offset, integral);
  }

  /**
   * As soon as one stride does not divide its range, subset as written
   * stops short of the box: its output is a strict prefix of the points the
   * walk visits, and the last ones are lost.
   */
  lemma SubsetAsWrittenDropsPoints(input: seq<real>, axes: seq<SubsetInfo>, k: nat,
                                   scale: real, offset: real, integral: bool)
    requires Regular(input, axes) && k < |axes| && !Divides(axes[k])
    ensures NonZeroStrides(axes)
    ensures SubsetAsWritten(input, axes, scale, offset, integral).Done?
    ensures |SubsetAsWritten(input, axes, scale, offset, integral).value| < |Box(input, axes, scale, offset, integral)|
  {
    LengthAsWritten(axes);
    SubsetAsWrittenIsPrefix(input, axes, scale, offset, integral);
  }

  // ---- an example ------------------------------------------------------------------

  /** A 5 x 2 array, every other element along its first axis: three steps of 2 over 0..5. */
  const StrayAxes: seq<SubsetInfo> := [SubsetInfo(0, 5, 2, 5), SubsetInfo(0, 2, 1, 2)]

  lemma StrayAxesRegular()
    ensures RegularAxes(StrayAxes) && Product(DimSizes(StrayAxes)) == 10
    ensures CeilSizes(StrayAxes) == [3, 2] && Total(StrayAxes) == 6
    ensures NonZeroStrides(StrayAxes) && SizesAsWritten(StrayAxes) == [2, 2]
  {
    var s := DimSizes(StrayAxes);
    assert s == [5, 2];
    assert s[..1] == [5] && s[..1][..0] == [];
    assert Product(s[..1]) == 5;
    assert Product(s) == 10;
    var n := CeilSizes(StrayAxes);
    assert n == [3, 2];
    assert n[..1] == [3] && n[..1][..0] == [];
    assert Product(n[..1]) == 3;
    assert SizesAsWritten(StrayAxes) == [2, 2];
  }

  /**
   * On the 5 x 2 array, subset as written returns only the first 4 of the 6
   * points of the box: its length uses the rounded-down size 5 / 2 = 2 of the
   * first axis, while the walk takes three steps (0, 2, 4) along it.
   */
  lemma FloorSizeStrays(input: seq<real>)
    requires |input| >= 10
    ensures NonZeroStrides(StrayAxes) && |Box(input, StrayAxes, 1.0, 0.0, false)| == 6
    ensures SubsetAsWritten(input, StrayAxes, 1.0, 0.0, false) == Done(Box(input, StrayAxes, 1.0, 0.0, false)[..4])
  {
    StrayAxesRegular();
    assert [2, 2][..1] == [2] && [2, 2][..1][..0] == [];
    assert Product([2, 2][..1]) == 2;
    SubsetAsWrittenIsPrefix(input, StrayAxes, 1.0, 0.0, false);
  }

  /** With the rounded-up size, the same request returns all 6 points. */
  lemma CeilSizeKeepsAll(input: seq<real>)
    requires |input| >= 10
    ensures |Box(input, StrayAxes, 1.0, 0.0, false)| == 6
    ensures SubsetSpec(input, StrayAxes, 1.0, 0.0, false) == Done(Box(input, StrayAxes, 1.0, 0.0, false))
  {
    StrayAxesRegular();
    SubsetSpecIsBox(input, StrayAxes, 1.0, 0.0, false);
  }

  /** Two digits of an odometer. */
  lemma DigitsTwo(o: nat, n0: nat, n1: nat)
    requires n0 > 0 && n1 > 0
    ensures Digits(o, [n0, n1]) == [o % n0, (o / n0) % n1]
  {
    var n := [n0, n1];
    assert n[1..] == [n1] && n[1..][1..] == [];
  }

  /** The row-major position of a point of a two-dimensional array. */
  lemma RowMajorTwo(x: nat, y: nat, s0: nat, s1: nat)
    ensures RowMajor([x, y], [s0, s1]) == x + y * s0
  {
    assert [x, y][..1] == [x] && [s0, s1][..1] == [s0];
    assert [x][..0] == [] && [s0][..0] == [];
    assert Product([s0]) == s0;
  }

  /** Output o of the box over the 5 x 2 array reads input 2 * (o mod 3) + 5 * (o div 3). */
  lemma StrayLocate(o: nat)
    requires o < 6
    ensures RegularAxes(StrayAxes)
    ensures Locate(StrayAxes, o) == 2 * (o % 3) + 5 * (o / 3)
  {
    StrayAxesRegular();
    assert CeilSize(StrayAxes[0]) == 3 && CeilSize(StrayAxes[1]) == 2 by {
      assert CeilSizes(StrayAxes)[0] == 3 && CeilSizes(StrayAxes)[1] == 2;
    }
    LocateTwo(StrayAxes, o);
    DivBelow(o, 3, 2);
    ModOfRange(o / 3, 2);
  }

  /** On two axes, output o is at point (o mod c0, (o div c0) mod c1) of the box, c the axes' sizes. */
  lemma LocateTwo(axes: seq<SubsetInfo>, o: nat)
    requires RegularAxes(axes) && |axes| == 2
    ensures CeilSize(axes[0]) > 0 && CeilSize(axes[1]) > 0
    ensures Locate(axes, o)
      == axes[0].start + (o % CeilSize(axes[0])) * axes[0].stride
         + (axes[1].start + ((o / CeilSize(axes[0])) % CeilSize(axes[1])) * axes[1].stride) * axes[0].dimSize
  {
    CeilSizesPositive(axes);
    var c0, c1 := CeilSize(axes[0]), CeilSize(axes[1]);
    assert CeilSizes(axes) == [c0, c1];
    DigitsTwo(o, c0, c1);
    var x := axes[0].start + (o % c0) * axes[0].stride;
    var y := axes[1].start + ((o / c0) % c1) * axes[1].stride;
    assert BoxPoint(axes, o) == [x, y];
    assert DimSizes(axes) == [axes[0].dimSize, axes[1].dimSize];
    RowMajorTwo(x, y, axes[0].dimSize, axes[1].dimSize);
  }

  /**
   * The box over the 5 x 2 array is the input at positions 0, 2, 4, 5, 7
   * and 9; subset as written stops after the fourth of them, so the input at
   * 7 and 9 is never output.
   */
  lemma StrayBox(input: seq<real>)
    requires |input| >= 10
    ensures Regular(input, StrayAxes)
    ensures Box(input, StrayAxes, 1.0, 0.0, false) == [input[0], input[2], input[4], input[5], input[7], input[9]]
  {
    StrayAxesRegular();
    var b := Box(input, StrayAxes, 1.0, 0.0, false);
    forall o | 0 <= o < 6
      ensures b[o] == input[2 * (o % 3) + 5 * (o / 3)]
    {
      StrayBoxAt(input, o);
    }
    StrayPositions(b, input);
  }

  /** Six outputs, output o at input 2 * (o mod 3) + 5 * (o div 3): positions 0, 2, 4, 5, 7 and 9. */
  lemma StrayPositions(b: seq<real>, input: seq<real>)
    requires |b| == 6 && |input| >= 10
    requires forall o :: 0 <= o < 6 ==> b[o] == input[2 * (o % 3) + 5 * (o / 3)]
    ensures b == [input[0], input[2], input[4], input[5], input[7], input[9]]
  {
    assert b[0] == input[0] && b[1] == input[2] && b[2] == input[4];
    assert b[3] == input[5] && b[4] == input[7] && b[5] == input[9];
  }

  lemma StrayBoxAt(input: seq<real>, o: nat)
    requires |input| >= 10 && o < 6
    ensures Regular(input, StrayAxes)
    ensures |Box(input, StrayAxes, 1.0, 0.0, false)| == 6
    ensures Box(input, StrayAxes, 1.0, 0.0, false)[o] == input[2 * (o % 3) + 5 * (o / 3)]
  {
    StrayAxesRegular();
    StrayLocate(o);
  }

  /** A 4 x 3 array, columns 1 to 3 of every row: both strides divide their ranges. */
  const GridAxes: seq<SubsetInfo> := [SubsetInfo(1, 4, 1, 4), SubsetInfo(0, 3, 1, 3)]

  lemma GridAxesRegular()
    ensures RegularAxes(GridAxes) && Product(DimSizes(GridAxes)) == 12
    ensures CeilSizes(GridAxes) == [3, 3] && Total(GridAxes) == 9
    ensures NonZeroStrides(GridAxes) && SizesAsWritten(GridAxes) == [3, 3]
  {
    var s := DimSizes(GridAxes);
    assert s == [4, 3];
    assert s[..1] == [4] && s[..1][..0] == [];
    assert Product(s[..1]) == 4;
    assert Product(s) == 12;
    var n := CeilSizes(GridAxes);
    assert n == [3, 3];
    assert n[..1] == [3] && n[..1][..0] == [];
    assert Product(n[..1]) == 3;
    assert SizesAsWritten(GridAxes) == [3, 3];
  }

  /** Output 3y + x of the box over the 4 x 3 array reads input 4y + 1 + x. */
  lemma GridLocate(x: nat, y: nat)
    requires x < 3 && y < 3
    ensures RegularAxes(GridAxes)
    ensures Locate(GridAxes, 3 * y + x) == 4 * y + 1 + x
  {
    GridAxesRegular();
    var o := 3 * y + x;
    assert CeilSize(GridAxes[0]) == 3 && CeilSize(GridAxes[1]) == 3 by {
      assert CeilSizes(GridAxes)[0] == 3 && CeilSizes(GridAxes)[1] == 3;
    }
    LocateTwo(GridAxes, o);
    DivModUnique(o, 3, y, x);
    ModOfRange(y, 3);
  }

  lemma GridBoxAt(input: seq<real>, x: nat, y: nat)
    requires Regular(input, GridAxes) && Total(GridAxes) == 9 && |input| >= 12 && x < 3 && y < 3
    ensures Box(input, GridAxes, 1.0, 0.0, false)[3 * y + x] == input[4 * y + 1 + x]
  {
    GridLocate(x, y);
  }

  /** Output o of the box over the 4 x 3 array is the input at 1 + (o mod 3) + 4 * (o div 3). */
  lemma GridBoxFormula(input: seq<real>)
    requires |input| >= 12
    ensures Regular(input, GridAxes) && |Box(input, GridAxes, 1.0, 0.0, false)| == 9
    ensures forall o :: 0 <= o < 9 ==> Box(input, GridAxes, 1.0, 0.0, false)[o] == input[1 + o % 3 + 4 * (o / 3)]
  {
    GridAxesRegular();
    forall o | 0 <= o < 9
      ensures Box(input, GridAxes, 1.0, 0.0, false)[o] == input[1 + o % 3 + 4 * (o / 3)]
    {
      DivMod(o, 3);
      GridBoxAt(input, o % 3, o / 3);
    }
  }

  /** The box over the 4 x 3 array is the input at 1, 2, 3, 5, 6, 7, 9, 10 and 11. */
  lemma GridBox(input: seq<real>)
    requires |input| >= 12
    ensures Regular(input, GridAxes)
    ensures Box(input, GridAxes, 1.0, 0.0, false)
      == [input[1], input[2], input[3], input[5], input[6], input[7], input[9], input[10], input[11]]
  {
    GridBoxFormula(input);
    GridPositions(Box(input, GridAxes, 1.0, 0.0, false), input);
  }

  /** Nine outputs, output o at input 1 + (o mod 3) + 4 * (o div 3). */
  lemma GridPositions(b: seq<real>, input: seq<real>)
    requires |b| == 9 && |input| >= 12
    requires forall o :: 0 <= o < 9 ==> b[o] == input[1 + o % 3 + 4 * (o / 3)]
    ensures b == [input[1], input[2], input[3], input[5], input[6], input[7], input[9], input[10], input[11]]
  {
    assert b[0] == input[1] && b[1] == input[2] && b[2] == input[3];
    assert b[3] == input[5] && b[4] == input[6] && b[5] == input[7];
    assert b[6] == input[9] && b[7] == input[10] && b[8] == input[11];
  }

  /**
   * Where every stride divides its range, subset as written returns the whole
   * box: on the input 0 .. 11 it yields 1, 2, 3, 5, 6, 7, 9, 10, 11.
   */
  lemma GridSubset(input: seq<real>)
    requires |input| == 12 && forall i :: 0 <= i < 12 ==> input[i] == i as real
    ensures NonZeroStrides(GridAxes)
    ensures SubsetAsWritten(input, GridAxes, 1.0, 0.0, false)
      == Done([1.0, 2.0, 3.0, 5.0, 6.0, 7.0, 9.0, 10.0, 11.0])
  {
    GridAxesRegular();
    GridSubsetIsBox(input);
    GridBox(input);
  }

  lemma GridSubsetIsBox(input: seq<real>)
    requires |input| >= 12
    ensures NonZeroStrides(GridAxes) && Regular(input, GridAxes)
    ensures SubsetAsWritten(input, GridAxes, 1.0, 0.0, false) == Done(Box(input, GridAxes, 1.0, 0.0, false))
  {
    GridAxesRegular();
    assert [3, 3][..1] == [3] && [3, 3][..1][..0] == [];
    assert Product([3, 3][..1]) == 3;
    assert Product(SizesAsWritten(GridAxes)) == 9;
    SubsetAsWrittenIsPrefix(input, GridAxes, 1.0, 0.0, false);
    var b := Box(input, GridAxes, 1.0, 0.0, false);
    assert b[..9] == b;
  }
}
