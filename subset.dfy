/**
 * The N-dimensional strided subsetter: per-axis bounds (SubsetInfo), their
 * conversion from a request's SUBSET block, the row-major index factors, the
 * dot-product input offset, and the walk that fills the output with a
 * carry-cascading vector of current indices, scaling and offsetting each
 * element as it goes.
 *
 * The counters of the walk are `unsigned int` in the source: the current
 * indices, the index factors, the input offset and the output length are all
 * kept modulo 2^32 here as there. Start, stop and extent are `uint64_t`.
 */
module Subset {
  import opened Wrappers
  import opened UdaTypes
  import opened DataBlocks
  import opened UdaHelpers
  import ScaleOffset

  const U32: nat := 0x1_0000_0000
  const U64: nat := 0x1_0000_0000_0000_0000

  /** One axis of a subset: `[start, stop)` in steps of `stride` over an axis of `dimSize` elements. */
  datatype SubsetInfo = SubsetInfo(start: nat, stop: nat, stride: int, dimSize: nat)

  /**
   * SubsetInfo(size): the whole of an axis of `size` elements, walked index
   * by index. An axis of one element fails validate(), its stride 1 not
   * being below its size.
   */
  function FullRange(size: nat): (a: SubsetInfo)
    requires size < U64
    ensures a.start == 0 && a.stop == a.dimSize == size && a.stride == 1
    ensures Size(a) == CeilSize(a) == size
    ensures forall d: nat :: Inside(a, d) <==> d < size
    ensures Validate(a) <==> size > 1
  {
    SubsetInfo(0, size, 1, size)
  }

  /**
   * size() as written: `stop - start` in uint64, divided by the stride
   * converted to uint64, rounding down. An inverted range wraps around to a
   * huge size; a negative stride becomes a huge divisor and gives 0.
   */
  function Size(a: SubsetInfo): (n: nat)
    requires a.stride % U64 != 0
    ensures a.start <= a.stop < a.start + U64 && 0 < a.stride < U64 ==> n == (a.stop - a.start) / a.stride
    ensures a.stop < a.start < a.stop + U64 && a.stride == 1 ==> n == U64 - (a.start - a.stop)
    ensures a.start <= a.stop < a.start + U64 / 2 && a.stride < 0 && a.stride + U64 / 2 >= 0 ==> n == 0
  {
    SizeCases(a);
    ((a.stop - a.start) % U64) / (a.stride % U64)
  }

  lemma SizeCases(a: SubsetInfo)
    requires a.stride % U64 != 0
    ensures a.start <= a.stop < a.start + U64 && 0 < a.stride < U64 ==>
      ((a.stop - a.start) % U64) / (a.stride % U64) == (a.stop - a.start) / a.stride
    ensures a.stop < a.start < a.stop + U64 && a.stride == 1 ==>
      ((a.stop - a.start) % U64) / (a.stride % U64) == U64 - (a.start - a.stop)
    ensures a.start <= a.stop < a.start + U64 / 2 && a.stride < 0 && a.stride + U64 / 2 >= 0 ==>
      ((a.stop - a.start) % U64) / (a.stride % U64) == 0
  {
    var range := a.stop - a.start;
    ModOfRange(range, U64);
    ModOfRange(a.stride, U64);
    if a.start <= a.stop < a.start + U64 / 2 && a.stride < 0 && a.stride + U64 / 2 >= 0 {
      DivOfSmaller(range, a.stride + U64);
    }
  }

  /** The remainder of a value less than one modulus away from [0, m). */
  lemma ModOfRange(x: int, m: nat)
    requires m > 0
    ensures 0 <= x < m ==> x % m == x
    ensures x < 0 && x + m >= 0 ==> x % m == x + m
  {
  }

  lemma DivOfSmaller(x: nat, y: nat)
    requires x < y
    ensures x / y == 0
  {
  }

  /**
   * validate(): the bounds lie within the axis and the stride is shorter
   * than it, the stride being compared as a uint64.
   */
  predicate Validate(a: SubsetInfo) {
    a.stop <= a.dimSize && a.stride % U64 < a.dimSize
  }

  /**
   * What validate() guarantees: every index a forward walk visits lies inside
   * the axis, and a negative stride (which wraps to a huge uint64) is refused
   * on any axis of fewer than 2^63 elements.
   */
  lemma ValidateMeans(a: SubsetInfo)
    ensures Validate(a) && a.stride > 0 ==> forall d: nat :: Inside(a, d) ==> a.start + d * a.stride < a.dimSize
    ensures -(U64 / 2) <= a.stride < 0 && a.dimSize <= U64 / 2 ==> !Validate(a)
  {
    if -(U64 / 2) <= a.stride < 0 {
      assert a.stride % U64 == a.stride + U64;
    }
  }

  /** Step `d` of an axis still lies before its stop. */
  predicate Inside(a: SubsetInfo, d: nat) {
    a.start + d * a.stride < a.stop
  }

  /**
   * The number of steps the walk actually takes along an axis before its
   * index reaches the stop: the range divided by the stride, rounding up.
   * This is the size the walk is consistent with (see Findings).
   */
  function CeilSize(a: SubsetInfo): (n: nat)
    ensures a.stride > 0 ==> forall d: nat :: d < n <==> Inside(a, d)
    ensures a.stride <= 0 ==> n == 0
  {
    if a.stride <= 0 || a.stop <= a.start then 0
    else
      CeilSizeSteps(a);
      (a.stop - a.start + a.stride - 1) / a.stride
  }

  lemma MulLe(x: nat, y: nat, s: nat)
    requires x <= y
    ensures x * s <= y * s
  {
  }

  lemma CeilSizeSteps(a: SubsetInfo)
    requires 0 < a.stride && a.start < a.stop
    ensures forall d: nat :: d < (a.stop - a.start + a.stride - 1) / a.stride <==> Inside(a, d)
  {
    var range := a.stop - a.start;
    var s: nat := a.stride;
    var q: nat := (range + s - 1) / s;
    assert q * s <= range + s - 1 < q * s + s;
    forall d: nat
      ensures d < q <==> Inside(a, d)
    {
      if d < q {
        MulLe(d, q - 1, s);
        assert (q - 1) * s == q * s - s;
      } else {
        MulLe(q, d, s);
      }
    }
  }

  /** One bound of a request's SUBSET block; an unset value is None. */
  datatype Bound = Bound(dimid: int, lower: Option<int>, upper: Option<int>, stride: Option<int>)

  /**
   * One SubsetInfo from one bound: an unset lower or upper bound is 0, an
   * unset or zero stride is 1, and the extent is that of the chosen dimension.
   * The stride is narrowed to the constructor's `int` after the zero test, so
   * a non-zero multiple of 2^32 becomes a zero stride.
   */
  function ConvertBound(bd: Bound, dims: seq<Dim>): (a: SubsetInfo)
    requires 0 <= bd.dimid < |dims|
    ensures a.dimSize == dims[bd.dimid].dimN
    ensures a.start == (if bd.lower.Some? then bd.lower.value % U64 else 0)
    ensures a.stop == (if bd.upper.Some? then bd.upper.value % U64 else 0)
    ensures a.stride == Int32Of(if bd.stride.Some? && bd.stride.value != 0 then bd.stride.value else 1)
  {
    var start := if bd.lower.Some? then bd.lower.value % U64 else 0;
    var stop := if bd.upper.Some? then bd.upper.value % U64 else 0;
    var stride := if bd.stride.Some? then bd.stride.value else 1;
    SubsetInfo(start, stop, Int32Of(if stride == 0 then 1 else stride), dims[bd.dimid].dimN)
  }

  /**
   * A requested stride that an `int` holds is kept; one that does not keeps
   * only its low 32 bits, so a non-zero multiple of 2^32 slips past the zero
   * test and becomes a zero stride.
   */
  lemma StrideNarrowing(bd: Bound, dims: seq<Dim>, s: int)
    requires 0 <= bd.dimid < |dims| && bd.stride == Some(s) && s != 0
    ensures -0x8000_0000 <= s < 0x8000_0000 ==> ConvertBound(bd, dims).stride == s
    ensures s % U32 == 0 ==> ConvertBound(bd, dims).stride == 0
    ensures (ConvertBound(bd, dims).stride - s) % U32 == 0
  {
    var r := Int32Of(s);
    if s % U32 == 0 {
      assert r % U32 == 0 by {
        assert s == s / U32 * U32 && s - r == (s - r) / U32 * U32;
      }
    }
  }

  /**
   * The per-bound loop of subset_info_converter as written: a dimension id
   * above the rank throws, but one equal to it passes the guard and reads
   * the dimension one past the last.
   */
  function ConvertBoundsAsWritten(bounds: seq<Bound>, b: Block): (r: Outcome<seq<SubsetInfo>>)
    ensures r.Done? <==> forall i :: 0 <= i < |bounds| ==> 0 <= bounds[i].dimid <= b.rank && bounds[i].dimid < |b.dims|
    ensures r.Done? ==> |r.value| == |bounds|
    ensures r.Done? ==> forall i :: 0 <= i < |bounds| ==>
      0 <= bounds[i].dimid < |b.dims| && r.value[i] == ConvertBound(bounds[i], b.dims)
    decreases |bounds|
  {
    if bounds == [] then Done([])
    else
      var bd := bounds[0];
      if bd.dimid < 0 || bd.dimid > b.rank then Threw("Specified subset dimension exceeds dimensions of data")
      else if bd.dimid >= |b.dims| then Undefined("dims read past the last dimension")
      else match ConvertBoundsAsWritten(bounds[1..], b)
        case Done(rest) => Done([ConvertBound(bd, b.dims)] + rest)
        case Threw(w) => Threw(w)
        case Undefined(w) => Undefined(w)
  }

  /**
   * subset_info_converter as written: one bound per dimension is demanded,
   * and each converts as the corrected converter does, but a dimension id
   * equal to the rank gets through the guard.
   */
  function SubsetInfoConverterAsWritten(bounds: seq<Bound>, b: Block): (r: Outcome<seq<SubsetInfo>>)
    ensures |bounds| != b.rank ==> r.Threw?
    ensures r.Done? <==> (|bounds| == b.rank &&
      forall i :: 0 <= i < |bounds| ==> 0 <= bounds[i].dimid <= b.rank && bounds[i].dimid < |b.dims|)
    ensures r.Done? ==> |r.value| == b.rank && forall i :: 0 <= i < |bounds| ==> r.value[i] == ConvertBound(bounds[i], b.dims)
  {
    if |bounds| != b.rank then Threw("Number of subset dimensions specified must equal dimensions of data")
    else ConvertBoundsAsWritten(bounds, b)
  }

  /** The per-bound loop with the guard the converter needs: a dimension id must be below the rank. */
  function ConvertBounds(bounds: seq<Bound>, b: Block): (r: Outcome<seq<SubsetInfo>>)
    ensures |b.dims| >= b.rank ==> (r.Done? <==> forall i :: 0 <= i < |bounds| ==> 0 <= bounds[i].dimid < b.rank)
    ensures |b.dims| >= b.rank ==> !r.Undefined?
    ensures r.Done? ==> |r.value| == |bounds|
    ensures r.Done? ==> forall i :: 0 <= i < |bounds| ==>
      0 <= bounds[i].dimid < |b.dims| && r.value[i] == ConvertBound(bounds[i], b.dims)
    decreases |bounds|
  {
    if bounds == [] then Done([])
    else
      var bd := bounds[0];
      if bd.dimid < 0 || bd.dimid >= b.rank then Threw("Specified subset dimension exceeds dimensions of data")
      else if bd.dimid >= |b.dims| then Undefined("dims read past the last dimension")
      else match ConvertBounds(bounds[1..], b)
        case Done(rest) => Done([ConvertBound(bd, b.dims)] + rest)
        case Threw(w) => Threw(w)
        case Undefined(w) => Undefined(w)
  }

  /**
   * subset_info_converter: as many bounds as the block has dimensions, each
   * naming one of them.
   */
  function SubsetInfoConverter(bounds: seq<Bound>, b: Block): (r: Outcome<seq<SubsetInfo>>)
    ensures |b.dims| >= b.rank ==>
      (r.Done? <==> |bounds| == b.rank && forall i :: 0 <= i < |bounds| ==> 0 <= bounds[i].dimid < b.rank)
    ensures |b.dims| >= b.rank ==> !r.Undefined?
    ensures r.Done? ==> |r.value| == |bounds| == b.rank
    ensures r.Done? ==> forall i :: 0 <= i < |bounds| ==>
      0 <= bounds[i].dimid < |b.dims| && r.value[i] == ConvertBound(bounds[i], b.dims)
  {
    if |bounds| != b.rank then Threw("Number of subset dimensions specified must equal dimensions of data")
    else ConvertBounds(bounds, b)
  }

  /**
   * The guard as written lets a dimension id equal to the rank through: with
   * as many dimensions as the rank, the converter reads the descriptor one
   * past the last, where the corrected guard throws.
   */
  lemma ConverterReadsPastLastDim(bounds: seq<Bound>, b: Block)
    requires |bounds| == b.rank == |b.dims| && bounds != []
    requires bounds[0].dimid == b.rank
    ensures SubsetInfoConverterAsWritten(bounds, b).Undefined?
    ensures SubsetInfoConverter(bounds, b).Threw?
  {
  }

  /** `x += s` on an unsigned int. */
  function Add32(x: nat, s: int): nat {
    (x + s) % U32
  }

  /** One output element: `input * scale + offset`, truncated for an integer element type. */
  function Elem(x: real, scale: real, offset: real, integral: bool): real {
    var y := x * scale + offset;
    if integral then ScaleOffset.Trunc(y) as real else y
  }

  /**
   * An output element is the input scaled and then offset, as the plugin's
   * transforms do it, and for an integer element type a whole number within
   * one of `x * scale + offset`, truncated toward zero.
   */
  lemma ElemIsScaledThenOffset(x: real, scale: real, offset: real, integral: bool)
    ensures Elem(x, scale, offset, integral) == ScaleOffset.Apply(ScaleOffset.Offset(offset), x * scale, integral)
    ensures var r, y := Elem(x, scale, offset, integral), x * scale + offset;
      && (!integral ==> r == y)
      && (integral ==> r == r.Floor as real)
      && (integral && y >= 0.0 ==> r <= y < r + 1.0)
      && (integral && y < 0.0 ==> r - 1.0 < y <= r)
  {
  }

  /** get_index_factors: 1, then each factor the previous one times the previous extent, in unsigned int. */
  function Factors(sizes: seq<nat>): (f: seq<nat>)
    ensures |f| == if |sizes| == 0 then 1 else |sizes|
    ensures f[0] == 1
    decreases |sizes|
  {
    if |sizes| <= 1 then [1]
    else
      var p := Factors(sizes[..|sizes| - 1]);
      p + [(p[|p| - 1] * sizes[|sizes| - 2]) % U32]
  }

  /** get_input_offset over the first `m` axes: the dot product of indices and factors, in unsigned int. */
  function Dot32(cur: seq<nat>, factors: seq<nat>, m: nat): nat
    requires m <= |cur| && m <= |factors|
  {
    if m == 0 then 0 else (Dot32(cur, factors, m - 1) + (cur[m - 1] * factors[m - 1]) % U32) % U32
  }

  /** `result_length *= size()` over the axes, in unsigned int. */
  function Length32(sizes: seq<nat>): nat {
    if sizes == [] then 1 else (Length32(sizes[..|sizes| - 1]) * sizes[|sizes| - 1]) % U32
  }

  function DimSizes32(axes: seq<SubsetInfo>): (s: seq<nat>)
    ensures |s| == |axes|
  {
    seq(|axes|, i requires 0 <= i < |axes| => axes[i].dimSize % U32)
  }

  function Starts32(axes: seq<SubsetInfo>): (s: seq<nat>)
    ensures |s| == |axes|
  {
    seq(|axes|, i requires 0 <= i < |axes| => axes[i].start % U32)
  }

  predicate NonZeroStrides(axes: seq<SubsetInfo>) {
    forall i :: 0 <= i < |axes| ==> axes[i].stride % U64 != 0
  }

  function SizesAsWritten(axes: seq<SubsetInfo>): (s: seq<nat>)
    requires NonZeroStrides(axes)
    ensures |s| == |axes|
  {
    seq(|axes|, i requires 0 <= i < |axes| => Size(axes[i]))
  }

  function CeilSizes(axes: seq<SubsetInfo>): (s: seq<nat>)
    ensures |s| == |axes|
  {
    seq(|axes|, i requires 0 <= i < |axes| => CeilSize(axes[i]))
  }

  /**
   * The carry cascade from axis `k`: while the index of axis k has reached
   * its stop, it goes back to its start and axis k + 1 advances by its
   * stride; the last axis has nowhere to carry to and throws.
   */
  function Carry(axes: seq<SubsetInfo>, cur: seq<nat>, k: nat): (r: Outcome<seq<nat>>)
    requires |cur| == |axes| && k <= |axes|
    ensures r.Done? ==> |r.value| == |axes|
    ensures !r.Undefined?
    decreases |axes| - k
  {
    if k < |axes| && cur[k] >= axes[k].stop then
      if k < |axes| - 1 then
        Carry(axes, cur[k := axes[k].start % U32][k + 1 := Add32(cur[k + 1], axes[k + 1].stride)], k + 1)
      else Threw("unknown error encountered in subset function")
    else Done(cur)
  }

  function Prepend(p: seq<real>, r: Outcome<seq<real>>): Outcome<seq<real>> {
    match r
    case Done(s) => Done(p + s)
    case Threw(w) => Threw(w)
    case Undefined(w) => Undefined(w)
  }

  /**
   * The outputs `o` to `len - 1`, from the current indices at the top of the
   * loop: carry, read the input at the dot product of indices and factors,
   * then advance axis 0 by its stride.
   */
  function Walk(input: seq<real>, axes: seq<SubsetInfo>, factors: seq<nat>, cur: seq<nat>,
                o: nat, len: nat, scale: real, offset: real, integral: bool): (r: Outcome<seq<real>>)
    requires |axes| >= 1 && |cur| == |axes| && |factors| >= |axes| && o <= len
    ensures r.Done? ==> |r.value| == len - o
    decreases len - o
  {
    if o == len then Done([])
    else match Carry(axes, cur, 0)
      case Threw(w) => Threw(w)
      case Undefined(w) => Undefined(w)
      case Done(c) =>
        var id := Dot32(c, factors, |c|);
        if id >= |input| then Undefined("input read past its end")
        else
          var rest := Walk(input, axes, factors, c[0 := Add32(c[0], axes[0].stride)], o + 1, len, scale, offset, integral);
          Prepend([Elem(input[id], scale, offset, integral)], rest)
  }

  /**
   * subset with the output length given: the log reads input[0], and with no
   * axes at all the walk advances an index that does not exist.
   */
  function SubsetOfLength(input: seq<real>, axes: seq<SubsetInfo>, len: nat,
                          scale: real, offset: real, integral: bool): (r: Outcome<seq<real>>)
    ensures r.Done? ==> |r.value| == len
    ensures |input| == 0 || |axes| == 0 ==> r.Undefined?
  {
    if |input| == 0 then Undefined("input[0] read for the log")
    else if |axes| == 0 then Undefined("current_indices[0] with no axes")
    else Walk(input, axes, Factors(DimSizes32(axes)), Starts32(axes), 0, len, scale, offset, integral)
  }

  /** subset as written: the output length is the product of the rounded-down sizes. */
  function SubsetAsWritten(input: seq<real>, axes: seq<SubsetInfo>, scale: real, offset: real, integral: bool)
    : (r: Outcome<seq<real>>)
    requires NonZeroStrides(axes)
    ensures r.Done? ==> |r.value| == Length32(SizesAsWritten(axes))
  {
    SubsetOfLength(input, axes, Length32(SizesAsWritten(axes)), scale, offset, integral)
  }

  /** subset with the output length the walk takes: the product of the rounded-up sizes. */
  function SubsetSpec(input: seq<real>, axes: seq<SubsetInfo>, scale: real, offset: real, integral: bool)
    : (r: Outcome<seq<real>>)
    ensures r.Done? ==> |r.value| == Length32(CeilSizes(axes))
  {
    SubsetOfLength(input, axes, Length32(CeilSizes(axes)), scale, offset, integral)
  }

  /**
   * Which subset a caller runs: the source's, whose output length rounds
   * each size down, or the corrected one, whose length is the walk's.
   */
  datatype Variant = AsWritten | Corrected

  /** The per-axis output counts the variant multiplies into the output length. */
  function SizesBy(v: Variant, axes: seq<SubsetInfo>): (s: seq<nat>)
    requires v.AsWritten? ==> NonZeroStrides(axes)
    ensures |s| == |axes|
  {
    if v.AsWritten? then SizesAsWritten(axes) else CeilSizes(axes)
  }

  /**
   * subset under either variant. As written, size() divides by each stride
   * after input[0] is read for the log, so a zero stride is undefined there.
   */
  function SubsetBy(v: Variant, input: seq<real>, axes: seq<SubsetInfo>, scale: real, offset: real, integral: bool)
    : (r: Outcome<seq<real>>)
    ensures v.Corrected? ==> r == SubsetSpec(input, axes, scale, offset, integral)
    ensures v.AsWritten? && NonZeroStrides(axes) ==> r == SubsetAsWritten(input, axes, scale, offset, integral)
    ensures v.AsWritten? && !NonZeroStrides(axes) ==> r.Undefined?
  {
    if v.AsWritten? && !NonZeroStrides(axes) then
      if |input| == 0 then Undefined("input[0] read for the log") else Undefined("size() divides by a zero stride")
    else SubsetOfLength(input, axes, Length32(SizesBy(v, axes)), scale, offset, integral)
  }

  /** subset_info_converter under either variant. */
  function ConverterBy(v: Variant, bounds: seq<Bound>, b: Block): Outcome<seq<SubsetInfo>> {
    if v.AsWritten? then SubsetInfoConverterAsWritten(bounds, b) else SubsetInfoConverter(bounds, b)
  }

  /** Where the corrected guard lets every bound through, the guard as written converts them the same way. */
  lemma {:induction false} ConvertersAgree(bounds: seq<Bound>, b: Block)
    requires ConvertBounds(bounds, b).Done?
    ensures ConvertBoundsAsWritten(bounds, b) == ConvertBounds(bounds, b)
    decreases |bounds|
  {
    if bounds != [] {
      ConvertersAgree(bounds[1..], b);
    }
  }

  /** The two variants convert a request alike whenever the corrected converter succeeds. */
  lemma ConverterVariantsAgree(bounds: seq<Bound>, b: Block)
    requires SubsetInfoConverter(bounds, b).Done?
    ensures ConverterBy(AsWritten, bounds, b) == SubsetInfoConverter(bounds, b)
  {
    ConvertersAgree(bounds, b);
  }

  method GetIndexFactors(sizes: seq<nat>) returns (f: seq<nat>)
    ensures f == Factors(sizes)
  {
    f := [1];
    if |sizes| <= 1 {
      return;
    }
    var i := 1;
    while i < |sizes|
      invariant 1 <= i <= |sizes|
      invariant f == Factors(sizes[..i])
    {
      assert sizes[..i + 1][..i] == sizes[..i];
      f := f + [(f[i - 1] * sizes[i - 1]) % U32];
      i := i + 1;
    }
    assert sizes[..i] == sizes;
  }

  method GetInputOffset(cur: seq<nat>, factors: seq<nat>) returns (id: nat)
    requires |cur| <= |factors|
    ensures id == Dot32(cur, factors, |cur|)
  {
    id := 0;
    var i := 0;
    while i < |cur|
      invariant 0 <= i <= |cur|
      invariant id == Dot32(cur, factors, i)
    {
      id := (id + (cur[i] * factors[i]) % U32) % U32;
      i := i + 1;
    }
  }

  /** The first loop of subset: output length, extents and starting indices, in unsigned int. */
  method WalkSetup(v: Variant, axes: seq<SubsetInfo>) returns (resultLength: nat, dimLengths: seq<nat>, cur: seq<nat>)
    requires v.AsWritten? ==> NonZeroStrides(axes)
    ensures resultLength == Length32(SizesBy(v, axes))
    ensures dimLengths == DimSizes32(axes) && cur == Starts32(axes)
  {
    resultLength, dimLengths, cur := 1, [], [];
    var i := 0;
    while i < |axes|
      invariant 0 <= i <= |axes|
      invariant resultLength == Length32(SizesBy(v, axes)[..i])
      invariant dimLengths == DimSizes32(axes)[..i]
      invariant cur == Starts32(axes)[..i]
    {
      assert SizesBy(v, axes)[..i + 1][..i] == SizesBy(v, axes)[..i];
      var size := if v.AsWritten? then Size(axes[i]) else CeilSize(axes[i]);
      resultLength := (resultLength * size) % U32;
      dimLengths := dimLengths + [axes[i].dimSize % U32];
      cur := cur + [axes[i].start % U32];
      i := i + 1;
    }
    assert SizesBy(v, axes)[..i] == SizesBy(v, axes);
  }

  /** The inner loop of subset: the carry cascade, in place on the current indices. */
  method CarryIndices(axes: seq<SubsetInfo>, top: seq<nat>) returns (r: Outcome<seq<nat>>)
    requires |top| == |axes|
    ensures r == Carry(axes, top, 0)
  {
    var cur: seq<nat> := top;
    var k := 0;
    while k < |axes| && cur[k] >= axes[k].stop
      invariant 0 <= k <= |axes| && |cur| == |axes|
      invariant Carry(axes, top, 0) == Carry(axes, cur, k)
    {
      cur := cur[k := axes[k].start % U32];
      if k == |axes| - 1 {
        return Threw("unknown error encountered in subset function");
      }
      cur := cur[k + 1 := Add32(cur[k + 1], axes[k + 1].stride)];
      k := k + 1;
    }
    return Done(cur);
  }

  lemma PrependNothing(r: Outcome<seq<real>>)
    ensures Prepend([], r) == r
  {
    if r.Done? {
      assert [] + r.value == r.value;
    }
  }

  lemma PrependAssoc(p: seq<real>, x: real, r: Outcome<seq<real>>)
    ensures Prepend(p, Prepend([x], r)) == Prepend(p + [x], r)
  {
    if r.Done? {
      assert p + ([x] + r.value) == (p + [x]) + r.value;
    }
  }

  /** One turn of the walk: carry, read one element, advance axis 0. */
  lemma WalkStep(input: seq<real>, axes: seq<SubsetInfo>, factors: seq<nat>, cur: seq<nat>,
                 o: nat, len: nat, scale: real, offset: real, integral: bool)
    requires |axes| >= 1 && |cur| == |axes| && |factors| >= |axes| && o < len
    ensures Carry(axes, cur, 0).Threw? ==>
      Walk(input, axes, factors, cur, o, len, scale, offset, integral) == Threw(Carry(axes, cur, 0).what)
    ensures Carry(axes, cur, 0).Done? && Dot32(Carry(axes, cur, 0).value, factors, |axes|) >= |input| ==>
      Walk(input, axes, factors, cur, o, len, scale, offset, integral) == Undefined("input read past its end")
    ensures Carry(axes, cur, 0).Done? && Dot32(Carry(axes, cur, 0).value, factors, |axes|) < |input| ==>
      var c := Carry(axes, cur, 0).value;
      Walk(input, axes, factors, cur, o, len, scale, offset, integral)
        == Prepend([Elem(input[Dot32(c, factors, |axes|)], scale, offset, integral)],
                   Walk(input, axes, factors, c[0 := Add32(c[0], axes[0].stride)], o + 1, len, scale, offset, integral))
  {
  }

  /** The output loop of subset. */
  method FillOutputs(input: seq<real>, axes: seq<SubsetInfo>, factors: seq<nat>, start: seq<nat>,
                     len: nat, scale: real, offset: real, integral: bool) returns (r: Outcome<seq<real>>)
    requires |axes| >= 1 && |start| == |axes| && |factors| >= |axes|
    ensures r == Walk(input, axes, factors, start, 0, len, scale, offset, integral)
  {
    var result := new real[len];
    var cur: seq<nat> := start;
    var o := 0;
    assert result[..0] == [];
    PrependNothing(Walk(input, axes, factors, cur, 0, len, scale, offset, integral));
    while o < len
      invariant 0 <= o <= len && |cur| == |axes|
      invariant Walk(input, axes, factors, start, 0, len, scale, offset, integral)
        == Prepend(result[..o], Walk(input, axes, factors, cur, o, len, scale, offset, integral))
    {
      WalkStep(input, axes, factors, cur, o, len, scale, offset, integral);
      var carried := CarryIndices(axes, cur);
      if carried.Threw? {
        return Threw(carried.what);
      }
      var c := carried.value;
      var id := GetInputOffset(c, factors);
      if id >= |input| {
        return Undefined("input read past its end");
      }
      ghost var before := result[..o];
      result[o] := Elem(input[id], scale, offset, integral);
      assert result[..o + 1] == before + [result[o]];
      var next := c[0 := Add32(c[0], axes[0].stride)];
      PrependAssoc(before, result[o], Walk(input, axes, factors, next, o + 1, len, scale, offset, integral));
      cur := next;
      o := o + 1;
    }
    assert result[..o] + [] == result[..];
    return Done(result[..]);
  }

  /** subset: the loop of the source, with the output length of the variant. */
  method Subset(v: Variant, input: seq<real>, axes: seq<SubsetInfo>, scale: real, offset: real, integral: bool)
    returns (r: Outcome<seq<real>>)
    ensures r == SubsetBy(v, input, axes, scale, offset, integral)
  {
    if |input| == 0 {
      return Undefined("input[0] read for the log");
    }
    if v.AsWritten? && !NonZeroStrides(axes) {
      return Undefined("size() divides by a zero stride");
    }
    var resultLength: nat, dimLengths: seq<nat>, cur: seq<nat> := WalkSetup(v, axes);
    if |axes| == 0 {
      return Undefined("current_indices[0] with no axes");
    }
    var factors := GetIndexFactors(dimLengths);
    r := FillOutputs(input, axes, factors, cur, resultLength, scale, offset, integral);
  }
}
