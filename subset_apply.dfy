/**
 * apply_subsetting: the request's SUBSET block applied to a returned data
 * block. The payload is cut down by the N-dimensional subsetter, then each
 * of the first dimensions is cut down along its own axis by the same bounds,
 * its values written out first when it is compressed.
 *
 * The block functions are the specification; the methods do the same work on
 * a DataBlock, replacing its buffers in place.
 */
module SubsetApply {
  import opened Wrappers
  import opened UdaTypes
  import opened DataBlocks
  import opened Subset
  import opened SubsetTheory
  import opened UdaHelpers

  /** The ten element types the subsetter is instantiated for, the integer ones truncating. */
  predicate IntegralElement(tag: int) {
    Sized(tag) && tag != TypeFloat && tag != TypeDouble
  }

  function Unsupported(tag: int): string {
    "uda type not implemented for json_imas_mapping cache"
  }

  /**
   * do_dim_subset, after apply_dim_subsetting's type switch: a compressed
   * dimension is written out and marked uncompressed, then its first dimN
   * values are subset along the one axis.
   */
  function DimSubset(v: Variant, d: Dim, a: SubsetInfo, scale: real, offset: real): (r: Outcome<Dim>)
    ensures !Sized(d.dataType) ==> r.Threw?
    ensures r.Done? ==> !r.value.compressed && r.value.dimN == |r.value.values|
    ensures r.Done? ==> r.value.dataType == d.dataType && r.value.dimUnits == d.dimUnits && r.value.dimLabel == d.dimLabel
  {
    if !Sized(d.dataType) then Threw(Unsupported(d.dataType))
    else
      var e := Decompress(d);
      if e.dimN > |e.values| then Undefined("dim read past its end")
      else match SubsetBy(v, e.values[..e.dimN], [a], scale, offset, IntegralElement(d.dataType))
        case Done(out) => Done(e.(dimN := |out|, values := out))
        case Threw(w) => Threw(w)
        case Undefined(w) => Undefined(w)
  }

  /** The dimension loop of do_a_subset over its first n dimensions, dimension i with axis i. */
  function DimsSubset(v: Variant, dims: seq<Dim>, axes: seq<SubsetInfo>, n: nat): (r: Outcome<seq<Dim>>)
    requires n <= |axes|
    ensures r.Done? ==> |r.value| == |dims| && n <= |dims|
    ensures r.Done? ==> r.value[n..] == dims[n..]
    ensures r.Done? ==> forall i :: 0 <= i < n ==> DimSubset(v, dims[i], axes[i], 1.0, 0.0) == Done(r.value[i])
  {
    if n == 0 then Done(dims)
    else match DimsSubset(v, dims, axes, n - 1)
      case Done(ds) =>
        if n - 1 >= |ds| then Undefined("dims read past the last dimension")
        else (match DimSubset(v, ds[n - 1], axes[n - 1], 1.0, 0.0)
          case Done(d) => Done(ds[n - 1 := d])
          case Threw(w) => Threw(w)
          case Undefined(w) => Undefined(w))
      case Threw(w) => Threw(w)
      case Undefined(w) => Undefined(w)
  }

  /**
   * A dimension whose do_dim_subset fails: an unsupported type throws before
   * the dimension is touched; otherwise it has already been uncompressed in
   * place when the subset throws.
   */
  function DimLeft(d: Dim): (r: Dim)
    ensures !Sized(d.dataType) ==> r == d
    ensures Sized(d.dataType) ==> !r.compressed && r.dimN == d.dimN && r.dataType == d.dataType
    ensures !d.compressed ==> r == d
  {
    if Sized(d.dataType) then Decompress(d) else d
  }

  /** The dimensions when dimension i fails: that one as DimLeft leaves it. */
  function LeftAt(ds: seq<Dim>, i: nat): (r: seq<Dim>)
    ensures |r| == |ds|
    ensures forall j :: 0 <= j < |ds| && j != i ==> r[j] == ds[j]
    ensures i < |ds| ==> r[i] == DimLeft(ds[i])
  {
    if i < |ds| then ds[i := DimLeft(ds[i])] else ds
  }

  /**
   * The dimensions as the loop leaves them, whatever its outcome: its result
   * when it completes; otherwise the dimensions replaced before the first
   * one that failed, that one as DimLeft leaves it, the rest as they were.
   */
  function DimsLeft(v: Variant, dims: seq<Dim>, axes: seq<SubsetInfo>, n: nat): (ds: seq<Dim>)
    requires n <= |axes|
    ensures |ds| == |dims|
    ensures forall i :: n <= i < |dims| ==> ds[i] == dims[i]
    ensures DimsSubset(v, dims, axes, n).Done? ==> ds == DimsSubset(v, dims, axes, n).value
  {
    if n == 0 then dims
    else if DimsSubset(v, dims, axes, n).Done? then DimsSubset(v, dims, axes, n).value
    else if DimsSubset(v, dims, axes, n - 1).Done? then LeftAt(DimsSubset(v, dims, axes, n - 1).value, n - 1)
    else DimsLeft(v, dims, axes, n - 1)
  }

  /**
   * do_a_subset, after apply_subsetting's type switch: the first dataN
   * elements are subset by the converted bounds, the log reads the first
   * output, the payload is replaced, and the first min(rank, |axes|)
   * dimensions are subset with scale 1 and offset 0.
   */
  function BlockSubset(v: Variant, b: Block, bounds: seq<Bound>, scale: real, offset: real): (r: Outcome<Block>)
    ensures r.Done? ==> r.value.dataN == |r.value.data| > 0
    ensures r.Done? ==> r.value.rank == b.rank && r.value.dataType == b.dataType && r.value.order == b.order
    ensures r.Done? ==> |r.value.dims| == |b.dims|
  {
    if b.dataN > |b.data| then Undefined("data read past its end")
    else match ConverterBy(v, bounds, b)
      case Done(axes) =>
        (match SubsetBy(v, b.data[..b.dataN], axes, scale, offset, IntegralElement(b.dataType))
          case Done(out) =>
            if |out| == 0 then Undefined("transformed_data[0] read for the log")
            else
              var n := if b.rank < |axes| then b.rank else |axes|;
              (match DimsSubset(v, b.dims, axes, n)
                case Done(ds) => Done(b.(data := out, dataN := |out|, dims := ds))
                case Threw(w) => Threw(w)
                case Undefined(w) => Undefined(w))
          case Threw(w) => Threw(w)
          case Undefined(w) => Undefined(w))
      case Threw(w) => Threw(w)
      case Undefined(w) => Undefined(w)
  }

  /** apply_subsetting: nothing to do at rank 0, and only the ten sized types are subset. */
  function ApplySubsetting(v: Variant, b: Block, bounds: seq<Bound>, scale: real, offset: real): (r: Outcome<Block>)
    ensures b.rank == 0 ==> r == Done(b)
    ensures b.rank > 0 && !Sized(b.dataType) ==> r.Threw?
    ensures b.rank > 0 && r.Done? ==> r.value.dataN == |r.value.data| > 0
    ensures r.Done? ==> r.value.rank == b.rank && r.value.dataType == b.dataType
  {
    if b.rank == 0 then Done(b)
    else if !Sized(b.dataType) then Threw(Unsupported(b.dataType))
    else BlockSubset(v, b, bounds, scale, offset)
  }

  /**
   * The block apply_subsetting leaves behind, whatever its outcome: a throw
   * before the payload is replaced leaves the block as it was; a throw in the
   * dimension loop leaves the new payload and the dimensions done so far.
   */
  function SubsettingLeft(v: Variant, b: Block, bounds: seq<Bound>, scale: real, offset: real): (w: Block)
    ensures ApplySubsetting(v, b, bounds, scale, offset).Done? ==> w == ApplySubsetting(v, b, bounds, scale, offset).value
    ensures b.rank == 0 || !Sized(b.dataType) || !ConverterBy(v, bounds, b).Done? ==> w == b
    ensures w.rank == b.rank && w.dataType == b.dataType && |w.dims| == |b.dims|
  {
    if b.rank == 0 || !Sized(b.dataType) || b.dataN > |b.data| then b
    else match ConverterBy(v, bounds, b)
      case Done(axes) =>
        (match SubsetBy(v, b.data[..b.dataN], axes, scale, offset, IntegralElement(b.dataType))
          case Done(out) =>
            var n := if b.rank < |axes| then b.rank else |axes|;
            b.(data := out, dataN := |out|, dims := DimsLeft(v, b.dims, axes, n))
          case Threw(_) => b
          case Undefined(_) => b)
      case Threw(_) => b
      case Undefined(_) => b
  }

  /** Once the dimension loop has failed, it stays failed with the same outcome. */
  lemma {:induction false} DimsSubsetStops(v: Variant, dims: seq<Dim>, axes: seq<SubsetInfo>, k: nat, n: nat)
    requires k <= n <= |axes| && !DimsSubset(v, dims, axes, k).Done?
    ensures DimsSubset(v, dims, axes, n) == DimsSubset(v, dims, axes, k)
    decreases n
  {
    if n > k {
      DimsSubsetStops(v, dims, axes, k, n - 1);
      DimsSubsetHalts(v, dims, axes, n);
    }
  }

  /** A step after a failure keeps the failure. */
  lemma DimsSubsetHalts(v: Variant, dims: seq<Dim>, axes: seq<SubsetInfo>, n: nat)
    requires 0 < n <= |axes| && !DimsSubset(v, dims, axes, n - 1).Done?
    ensures DimsSubset(v, dims, axes, n) == DimsSubset(v, dims, axes, n - 1)
  {
  }

  /**
   * When dimension k is the first to fail, the loop leaves the first k
   * dimensions subset, dimension k as DimLeft leaves it and every later one
   * untouched.
   */
  lemma {:induction false} DimsLeftStops(v: Variant, dims: seq<Dim>, axes: seq<SubsetInfo>, k: nat, n: nat)
    requires k < n <= |axes| && DimsSubset(v, dims, axes, k).Done? && !DimsSubset(v, dims, axes, k + 1).Done?
    ensures DimsLeft(v, dims, axes, n) == LeftAt(DimsSubset(v, dims, axes, k).value, k)
  {
    DimsLeftAtFailure(v, dims, axes, k + 1);
    DimsLeftFrozen(v, dims, axes, k + 1, n);
  }

  /** Once the loop has failed, the later steps leave the dimensions as they are. */
  lemma {:induction false} DimsLeftFrozen(v: Variant, dims: seq<Dim>, axes: seq<SubsetInfo>, k: nat, n: nat)
    requires k <= n <= |axes| && !DimsSubset(v, dims, axes, k).Done?
    ensures DimsLeft(v, dims, axes, n) == DimsLeft(v, dims, axes, k)
    decreases n - k
  {
    if k < n {
      DimsLeftAfterFailure(v, dims, axes, k + 1);
      DimsLeftFrozen(v, dims, axes, k + 1, n);
    }
  }

  /** The step that fails leaves the dimensions the steps before it made, and its own as DimLeft leaves it. */
  lemma DimsLeftAtFailure(v: Variant, dims: seq<Dim>, axes: seq<SubsetInfo>, n: nat)
    requires 0 < n <= |axes| && DimsSubset(v, dims, axes, n - 1).Done? && !DimsSubset(v, dims, axes, n).Done?
    ensures DimsLeft(v, dims, axes, n) == LeftAt(DimsSubset(v, dims, axes, n - 1).value, n - 1)
  {
  }

  /** A step after the failing one leaves the dimensions as they were. */
  lemma DimsLeftAfterFailure(v: Variant, dims: seq<Dim>, axes: seq<SubsetInfo>, n: nat)
    requires 0 < n <= |axes| && !DimsSubset(v, dims, axes, n - 1).Done?
    ensures !DimsSubset(v, dims, axes, n).Done?
    ensures DimsLeft(v, dims, axes, n) == DimsLeft(v, dims, axes, n - 1)
  {
    DimsSubsetHalts(v, dims, axes, n);
  }

  // ---- what the subsetting yields --------------------------------------------------------

  /** One axis, taken python-style: start, start + stride, ... while below stop. */
  function Strided(input: seq<real>, a: SubsetInfo, scale: real, offset: real, integral: bool): (r: seq<real>)
    requires a.stride > 0 && a.stop <= |input|
    ensures |r| == CeilSize(a)
  {
    seq(CeilSize(a), j requires 0 <= j < CeilSize(a) =>
      assert Inside(a, j);
      Elem(input[a.start + j * a.stride], scale, offset, integral))
  }

  /** Along one axis, the box is the strided range of the input. */
  lemma OneAxisBox(input: seq<real>, a: SubsetInfo, scale: real, offset: real, integral: bool)
    requires Regular(input, [a])
    ensures a.stop <= |input|
    ensures Box(input, [a], scale, offset, integral) == Strided(input, a, scale, offset, integral)
  {
    var n := CeilSize(a);
    assert DimSizes([a]) == [a.dimSize];
    assert Product([a.dimSize]) == a.dimSize by {
      assert [a.dimSize][..0] == [];
    }
    forall o | 0 <= o < n
      ensures Locate([a], o) == a.start + o * a.stride
    {
      OneAxisLocate(a, o);
    }
  }

  lemma OneAxisLocate(a: SubsetInfo, o: nat)
    requires RegularAxes([a]) && o < CeilSize(a)
    ensures Locate([a], o) == a.start + o * a.stride
  {
    CeilSizesPositive([a]);
    var n := CeilSizes([a]);
    assert n == [CeilSize(a)];
    assert n[1..] == [];
    assert Digits(o, n) == [o] by {
      ModOfRange(o, n[0]);
      assert Digits(o, n) == [o % n[0]] + Digits(o / n[0], []);
    }
    assert BoxPoint([a], o) == [a.start + o * a.stride];
    assert DimSizes([a]) == [a.dimSize];
    assert [a.start + o * a.stride][..0] == [] && [a.dimSize][..0] == [];
  }

  /** The box of regular axes is never empty. */
  lemma TotalPositive(axes: seq<SubsetInfo>)
    requires RegularAxes(axes)
    ensures Total(axes) > 0
  {
    CeilSizesPositive(axes);
    ProductPrefixLe(CeilSizes(axes), |axes|);
    assert CeilSizes(axes)[..|axes|] == CeilSizes(axes);
  }

  /**
   * A dimension cut by a regular axis holds the strided range of its
   * written-out values, one value per step of the axis, once corrected.
   */
  lemma DimSubsetIsStrided(d: Dim, a: SubsetInfo, scale: real, offset: real)
    requires Sized(d.dataType)
    requires Decompress(d).dimN <= |Decompress(d).values|
    requires RegularAxes([a]) && a.dimSize <= d.dimN
    ensures var e := Decompress(d);
      DimSubset(Corrected, d, a, scale, offset)
        == Done(e.(dimN := CeilSize(a), values := Strided(e.values[..e.dimN], a, scale, offset, IntegralElement(d.dataType))))
  {
    var e := Decompress(d);
    var input := e.values[..e.dimN];
    var integral := IntegralElement(d.dataType);
    assert Product(DimSizes([a])) == a.dimSize by {
      assert DimSizes([a]) == [a.dimSize] && [a.dimSize][..0] == [];
    }
    SubsetSpecIsBox(input, [a], scale, offset, integral);
    OneAxisBox(input, a, scale, offset, integral);
  }

  /**
   * As written, a dimension keeps only the first size() values of that
   * strided range, the rounded-down count, so a stride that does not divide
   * the range drops the last value.
   */
  lemma DimSubsetAsWrittenIsStrided(d: Dim, a: SubsetInfo, scale: real, offset: real)
    requires Sized(d.dataType)
    requires Decompress(d).dimN <= |Decompress(d).values|
    requires RegularAxes([a]) && a.dimSize <= d.dimN
    ensures a.stride % U64 != 0 && Size(a) <= CeilSize(a)
    ensures (Size(a) == CeilSize(a)) <==> Divides(a)
    ensures var e := Decompress(d);
      DimSubset(AsWritten, d, a, scale, offset)
        == Done(e.(dimN := Size(a),
                   values := Strided(e.values[..e.dimN], a, scale, offset, IntegralElement(d.dataType))[..Size(a)]))
  {
    var e := Decompress(d);
    var input := e.values[..e.dimN];
    var integral := IntegralElement(d.dataType);
    assert Product(DimSizes([a])) == a.dimSize by {
      assert DimSizes([a]) == [a.dimSize] && [a.dimSize][..0] == [];
    }
    SizesAsWrittenBelow([a]);
    assert SizesAsWritten([a])[0] == Size(a) && CeilSizes([a])[0] == CeilSize(a);
    assert Product(SizesAsWritten([a])) == Size(a) by {
      assert SizesAsWritten([a]) == [Size(a)] && [Size(a)][..0] == [];
    }
    SubsetAsWrittenIsPrefix(input, [a], scale, offset, integral);
    OneAxisBox(input, a, scale, offset, integral);
  }

  /**
   * When the bounds convert to regular axes over the payload, a corrected
   * subsetting that completes leaves exactly the box of the payload, as many
   * elements as its points, and it completes exactly when the dimension loop
   * does.
   */
  lemma SubsetIsBox(b: Block, bounds: seq<Bound>, scale: real, offset: real)
    requires b.rank > 0 && Sized(b.dataType) && b.dataN <= |b.data|
    requires SubsetInfoConverter(bounds, b).Done?
    requires Regular(b.data[..b.dataN], SubsetInfoConverter(bounds, b).value)
    ensures var axes := SubsetInfoConverter(bounds, b).value;
      && |axes| == b.rank
      && (ApplySubsetting(Corrected, b, bounds, scale, offset).Done? <==> DimsSubset(Corrected, b.dims, axes, b.rank).Done?)
      && (ApplySubsetting(Corrected, b, bounds, scale, offset).Done? ==>
            ApplySubsetting(Corrected, b, bounds, scale, offset).value
              == b.(data := Box(b.data[..b.dataN], axes, scale, offset, IntegralElement(b.dataType)),
                    dataN := Total(axes),
                    dims := DimsSubset(Corrected, b.dims, axes, b.rank).value))
  {
    var axes := SubsetInfoConverter(bounds, b).value;
    TotalPositive(axes);
    SubsetSpecIsBox(b.data[..b.dataN], axes, scale, offset, IntegralElement(b.dataType));
  }

  /**
   * apply_subsetting as written, on the same regular requests: the payload
   * is the first Product(size()) points of the box, data_n is that product,
   * it is the whole box exactly when every stride divides its range, and
   * the call completes exactly when that product is non-zero and the
   * dimension loop completes.
   */
  lemma SubsetAsWrittenIsBoxPrefix(b: Block, bounds: seq<Bound>, scale: real, offset: real)
    requires b.rank > 0 && Sized(b.dataType) && b.dataN <= |b.data|
    requires SubsetInfoConverter(bounds, b).Done?
    requires Regular(b.data[..b.dataN], SubsetInfoConverter(bounds, b).value)
    ensures var axes := SubsetInfoConverter(bounds, b).value;
      && |axes| == b.rank && NonZeroStrides(axes)
      && Product(SizesAsWritten(axes)) <= Total(axes)
      && (Product(SizesAsWritten(axes)) == Total(axes) <==> forall k :: 0 <= k < |axes| ==> Divides(axes[k]))
      && (ApplySubsetting(AsWritten, b, bounds, scale, offset).Done? <==>
            Product(SizesAsWritten(axes)) > 0 && DimsSubset(AsWritten, b.dims, axes, b.rank).Done?)
      && (ApplySubsetting(AsWritten, b, bounds, scale, offset).Done? ==>
            ApplySubsetting(AsWritten, b, bounds, scale, offset).value
              == b.(data := Box(b.data[..b.dataN], axes, scale, offset, IntegralElement(b.dataType))[..Product(SizesAsWritten(axes))],
                    dataN := Product(SizesAsWritten(axes)),
                    dims := DimsSubset(AsWritten, b.dims, axes, b.rank).value))
  {
    var axes := SubsetInfoConverter(bounds, b).value;
    ConverterVariantsAgree(bounds, b);
    LengthAsWritten(axes);
    SubsetAsWrittenIsPrefix(b.data[..b.dataN], axes, scale, offset, IntegralElement(b.dataType));
  }

  // ---- the methods -----------------------------------------------------------------------

  /** A float block of five values along one dimension, and the request 0:5:2 on it. */
  function FiveFloats(x: seq<real>): Block {
    InitBlock.(data := x, dataN := |x|, dataType := TypeFloat, rank := 1, dims := [UnitDim(|x|)])
  }

  const StepsOfTwo: seq<Bound> := [Bound(0, Some(0), Some(5), Some(2))]

  lemma StepsOfTwoAxis(x: seq<real>)
    requires |x| == 5
    ensures SubsetInfoConverter(StepsOfTwo, FiveFloats(x)) == Done([SubsetInfo(0, 5, 2, 5)])
    ensures Regular(x, [SubsetInfo(0, 5, 2, 5)])
    ensures FiveFloats(x).data[..FiveFloats(x).dataN] == x
  {
    var a := SubsetInfo(0, 5, 2, 5);
    assert Int32Of(2) == 2;
    assert ConvertBound(StepsOfTwo[0], FiveFloats(x).dims) == a;
    assert SubsetInfoConverter(StepsOfTwo, FiveFloats(x)).value == [a];
    assert DimSizes([a]) == [5];
    assert Product([5]) == 5 by { assert [5][..0] == []; }
  }

  /** Taken python-style, 0:5:2 keeps elements 0, 2 and 4. */
  lemma StepsOfTwoStrided(x: seq<real>)
    requires |x| == 5
    ensures CeilSize(SubsetInfo(0, 5, 2, 5)) == 3
    ensures Strided(x, SubsetInfo(0, 5, 2, 5), 1.0, 0.0, false) == [x[0], x[2], x[4]]
  {
    var a := SubsetInfo(0, 5, 2, 5);
    assert Inside(a, 2) && !Inside(a, 3);
    var s := Strided(x, a, 1.0, 0.0, false);
    assert s[0] == x[0] && s[1] == x[2] && s[2] == x[4];
  }

  /**
   * On five floats, 0:5:2 as written: size() is 5 / 2 = 2, so the block
   * keeps elements 0 and 2 and drops element 4.
   */
  lemma StepsOfTwoAsWritten(x: seq<real>)
    requires |x| == 5
    ensures ApplySubsetting(AsWritten, FiveFloats(x), StepsOfTwo, 1.0, 0.0).Done?
    ensures ApplySubsetting(AsWritten, FiveFloats(x), StepsOfTwo, 1.0, 0.0).value.dataN == 2
    ensures ApplySubsetting(AsWritten, FiveFloats(x), StepsOfTwo, 1.0, 0.0).value.data == [x[0], x[2]]
  {
    var a := SubsetInfo(0, 5, 2, 5);
    StepsOfTwoAxis(x);
    StepsOfTwoStrided(x);
    assert Size(a) == 2;
    assert SizesAsWritten([a]) == [2];
    assert Product([2]) == 2 by { assert [2][..0] == []; }
    DimSubsetAsWrittenIsStrided(UnitDim(5), a, 1.0, 0.0);
    SubsetAsWrittenIsBoxPrefix(FiveFloats(x), StepsOfTwo, 1.0, 0.0);
    OneAxisBox(x, a, 1.0, 0.0, false);
  }

  /** The corrected walk keeps elements 0, 2 and 4 of the same block. */
  lemma StepsOfTwoCorrected(x: seq<real>)
    requires |x| == 5
    ensures ApplySubsetting(Corrected, FiveFloats(x), StepsOfTwo, 1.0, 0.0).Done?
    ensures ApplySubsetting(Corrected, FiveFloats(x), StepsOfTwo, 1.0, 0.0).value.dataN == 3
    ensures ApplySubsetting(Corrected, FiveFloats(x), StepsOfTwo, 1.0, 0.0).value.data == [x[0], x[2], x[4]]
  {
    var a := SubsetInfo(0, 5, 2, 5);
    StepsOfTwoAxis(x);
    StepsOfTwoStrided(x);
    DimSubsetIsStrided(UnitDim(5), a, 1.0, 0.0);
    SubsetIsBox(FiveFloats(x), StepsOfTwo, 1.0, 0.0);
    OneAxisBox(x, a, 1.0, 0.0, false);
  }

  /** do_dim_subset on one dimension. */
  method DimSubsetting(v: Variant, d: Dim, a: SubsetInfo, scale: real, offset: real) returns (r: Outcome<Dim>)
    ensures r == DimSubset(v, d, a, scale, offset)
  {
    if !Sized(d.dataType) {
      return Threw(Unsupported(d.dataType));
    }
    var e := Decompress(d);
    if e.dimN > |e.values| {
      return Undefined("dim read past its end");
    }
    var out := Subset.Subset(v, e.values[..e.dimN], [a], scale, offset, IntegralElement(d.dataType));
    match out {
      case Done(vs) => return Done(e.(dimN := |vs|, values := vs));
      case Threw(w) => return Threw(w);
      case Undefined(w) => return Undefined(w);
    }
  }

  /**
   * do_a_subset's loop over the dimensions: each one replaced in turn, and
   * the dimensions as the loop leaves them when one fails.
   */
  method DimsSubsetting(v: Variant, dims: seq<Dim>, axes: seq<SubsetInfo>, n: nat)
    returns (r: Outcome<seq<Dim>>, left: seq<Dim>)
    requires n <= |axes|
    ensures r == DimsSubset(v, dims, axes, n)
    ensures left == DimsLeft(v, dims, axes, n)
  {
    var ds := dims;
    var i := 0;
    while i < n
      invariant 0 <= i <= n
      invariant DimsSubset(v, dims, axes, i) == Done(ds)
      invariant DimsLeft(v, dims, axes, i) == ds
    {
      if i >= |ds| {
        DimsFail(v, dims, axes, i, n, ds);
        return Undefined("dims read past the last dimension"), LeftAt(ds, i);
      }
      var d := DimSubsetting(v, ds[i], axes[i], 1.0, 0.0);
      if !d.Done? {
        DimsFail(v, dims, axes, i, n, ds);
        return (if d.Threw? then Threw(d.what) else Undefined(d.what)), LeftAt(ds, i);
      }
      DimsNext(v, dims, axes, i, ds, d.value);
      ds := ds[i := d.value];
      i := i + 1;
    }
    return Done(ds), ds;
  }

  /** One completed pass of the dimension loop. */
  lemma DimsNext(v: Variant, dims: seq<Dim>, axes: seq<SubsetInfo>, i: nat, ds: seq<Dim>, d: Dim)
    requires i < |axes| && i < |ds|
    requires DimsSubset(v, dims, axes, i) == Done(ds) && DimsLeft(v, dims, axes, i) == ds
    requires DimSubset(v, ds[i], axes[i], 1.0, 0.0) == Done(d)
    ensures DimsSubset(v, dims, axes, i + 1) == Done(ds[i := d])
    ensures DimsLeft(v, dims, axes, i + 1) == ds[i := d]
  {
  }

  /** A pass of the dimension loop that fails ends it, with its outcome and the dimensions as they stand. */
  lemma DimsFail(v: Variant, dims: seq<Dim>, axes: seq<SubsetInfo>, i: nat, n: nat, ds: seq<Dim>)
    requires i < n <= |axes|
    requires DimsSubset(v, dims, axes, i) == Done(ds) && DimsLeft(v, dims, axes, i) == ds
    requires i < |ds| ==> !DimSubset(v, ds[i], axes[i], 1.0, 0.0).Done?
    ensures i >= |ds| ==> DimsSubset(v, dims, axes, n) == Undefined("dims read past the last dimension")
    ensures i < |ds| && DimSubset(v, ds[i], axes[i], 1.0, 0.0).Threw? ==>
      DimsSubset(v, dims, axes, n) == Threw(DimSubset(v, ds[i], axes[i], 1.0, 0.0).what)
    ensures i < |ds| && DimSubset(v, ds[i], axes[i], 1.0, 0.0).Undefined? ==>
      DimsSubset(v, dims, axes, n) == Undefined(DimSubset(v, ds[i], axes[i], 1.0, 0.0).what)
    ensures DimsLeft(v, dims, axes, n) == LeftAt(ds, i)
  {
    assert !DimsSubset(v, dims, axes, i + 1).Done?;
    DimsSubsetStops(v, dims, axes, i + 1, n);
    DimsLeftStops(v, dims, axes, i, n);
  }

  /**
   * do_a_subset's last steps on a DataBlock: the new payload and data_n are
   * stored, then the dimension loop runs over the first n dims.
   */
  method ReplaceSubset(v: Variant, b: DataBlock, axes: seq<SubsetInfo>, out: seq<real>, n: nat)
    returns (ds: Outcome<seq<Dim>>)
    requires n <= |axes|
    modifies b
    ensures ds == DimsSubset(v, old(b.dims), axes, n)
    ensures b.Value() == old(b.Value()).(data := out, dataN := |out|, dims := DimsLeft(v, old(b.dims), axes, n))
  {
    b.SetData(out);
    b.dataN := |out|;
    var left;
    ds, left := DimsSubsetting(v, b.dims, axes, n);
    b.dims := left;
  }

  /**
   * apply_subsetting on a DataBlock: its payload and dimensions are replaced
   * in place, and a throw leaves them as far as they got.
   */
  method ApplySubsettingTo(v: Variant, b: DataBlock, bounds: seq<Bound>, scale: real, offset: real)
    returns (r: Outcome<Block>)
    modifies b
    ensures r == ApplySubsetting(v, old(b.Value()), bounds, scale, offset)
    ensures r.Done? ==> b.Value() == r.value
    ensures !r.Undefined? ==> b.Value() == SubsettingLeft(v, old(b.Value()), bounds, scale, offset)
  {
    if b.rank == 0 {
      return Done(b.Value());
    }
    if !Sized(b.dataType) {
      return Threw(Unsupported(b.dataType));
    }
    if b.dataN > b.data.Length {
      return Undefined("data read past its end");
    }
    ghost var before := b.Value();
    var axes := ConverterBy(v, bounds, b.Value());
    if !axes.Done? {
      ConversionFails(v, before, bounds, scale, offset);
      return axes.Propagate();
    }
    var out := Subset.Subset(v, b.data[..b.dataN], axes.value, scale, offset, IntegralElement(b.dataType));
    if !out.Done? {
      WalkFails(v, before, bounds, scale, offset);
      return out.Propagate();
    }
    if |out.value| == 0 {
      WalkEmpty(v, before, bounds, scale, offset);
      return Undefined("transformed_data[0] read for the log");
    }
    // The converter gives one axis per dimension, so the loop runs over every dimension.
    var ds := ReplaceSubset(v, b, axes.value, out.value, b.rank);
    LeftOf(v, before, bounds, scale, offset, axes.value, out.value, b.Value());
    if !ds.Done? {
      DimsLoopFails(v, before, bounds, scale, offset);
      return ds.Propagate();
    }
    SubsettingOf(v, before, bounds, scale, offset, axes.value, out.value, ds.value, b.Value());
    return Done(b.Value());
  }

  /** The block apply_subsetting leaves once the payload is replaced, named field by field. */
  lemma LeftOf(v: Variant, b: Block, bounds: seq<Bound>, scale: real, offset: real,
               axes: seq<SubsetInfo>, out: seq<real>, w: Block)
    requires b.rank > 0 && Sized(b.dataType) && b.dataN <= |b.data|
    requires ConverterBy(v, bounds, b) == Done(axes)
    requires SubsetBy(v, b.data[..b.dataN], axes, scale, offset, IntegralElement(b.dataType)) == Done(out)
    requires w == b.(data := out, dataN := |out|, dims := DimsLeft(v, b.dims, axes, if b.rank < |axes| then b.rank else |axes|))
    ensures SubsettingLeft(v, b, bounds, scale, offset) == w
  {
  }

  /** A conversion that fails ends apply_subsetting with its outcome, the block untouched. */
  lemma ConversionFails(v: Variant, b: Block, bounds: seq<Bound>, scale: real, offset: real)
    requires b.rank > 0 && Sized(b.dataType) && b.dataN <= |b.data|
    requires !ConverterBy(v, bounds, b).Done?
    ensures ApplySubsetting(v, b, bounds, scale, offset) == ConverterBy(v, bounds, b).Propagate()
    ensures SubsettingLeft(v, b, bounds, scale, offset) == b
  {
  }

  /** A walk that fails ends apply_subsetting with its outcome, the block untouched. */
  lemma WalkFails(v: Variant, b: Block, bounds: seq<Bound>, scale: real, offset: real)
    requires b.rank > 0 && Sized(b.dataType) && b.dataN <= |b.data|
    requires ConverterBy(v, bounds, b).Done?
    requires !SubsetBy(v, b.data[..b.dataN], ConverterBy(v, bounds, b).value, scale, offset, IntegralElement(b.dataType)).Done?
    ensures ApplySubsetting(v, b, bounds, scale, offset)
      == SubsetBy(v, b.data[..b.dataN], ConverterBy(v, bounds, b).value, scale, offset, IntegralElement(b.dataType)).Propagate()
    ensures SubsettingLeft(v, b, bounds, scale, offset) == b
  {
  }

  /** An empty walk is undefined: the log reads its first element. */
  lemma WalkEmpty(v: Variant, b: Block, bounds: seq<Bound>, scale: real, offset: real)
    requires b.rank > 0 && Sized(b.dataType) && b.dataN <= |b.data|
    requires ConverterBy(v, bounds, b).Done?
    requires SubsetBy(v, b.data[..b.dataN], ConverterBy(v, bounds, b).value, scale, offset, IntegralElement(b.dataType)) == Done([])
    ensures ApplySubsetting(v, b, bounds, scale, offset) == Undefined("transformed_data[0] read for the log")
  {
  }

  /** A dimension that fails ends apply_subsetting with its outcome. */
  lemma DimsLoopFails(v: Variant, b: Block, bounds: seq<Bound>, scale: real, offset: real)
    requires b.rank > 0 && Sized(b.dataType) && b.dataN <= |b.data|
    requires ConverterBy(v, bounds, b).Done?
    requires var axes := ConverterBy(v, bounds, b).value;
      && SubsetBy(v, b.data[..b.dataN], axes, scale, offset, IntegralElement(b.dataType)).Done?
      && |SubsetBy(v, b.data[..b.dataN], axes, scale, offset, IntegralElement(b.dataType)).value| > 0
      && |axes| == b.rank && !DimsSubset(v, b.dims, axes, b.rank).Done?
    ensures ApplySubsetting(v, b, bounds, scale, offset)
      == DimsSubset(v, b.dims, ConverterBy(v, bounds, b).value, b.rank).Propagate()
  {
  }

  /** The block apply_subsetting leaves when every step completes, named field by field. */
  lemma SubsettingOf(v: Variant, b: Block, bounds: seq<Bound>, scale: real, offset: real,
                     axes: seq<SubsetInfo>, out: seq<real>, ds: seq<Dim>, w: Block)
    requires b.rank > 0 && Sized(b.dataType) && b.dataN <= |b.data|
    requires ConverterBy(v, bounds, b) == Done(axes)
    requires SubsetBy(v, b.data[..b.dataN], axes, scale, offset, IntegralElement(b.dataType)) == Done(out) && |out| > 0
    requires DimsSubset(v, b.dims, axes, if b.rank < |axes| then b.rank else |axes|) == Done(ds)
    requires w == b.(data := out, dataN := |out|, dims := ds)
    ensures ApplySubsetting(v, b, bounds, scale, offset) == Done(w)
  {
  }
}
