/**
 * The plugin's own helpers that fill a DATA_BLOCK: a scalar, an array of a
 * given shape, a vector (from std::vector or std::valarray), and the rewrite
 * that promotes the ordering dimension of a block to its data
 * (setReturnTimeArray). Each helper is a function on Block values, the
 * specification, and a method that does the same work on a DataBlock.
 */
module UdaHelpers {
  import opened Wrappers
  import opened UdaTypes
  import opened DataBlocks

  /** The C++ element types the helper templates are instantiated with here. */
  datatype CppType = CUnsignedInt | CInt | CFloat | CDouble | CBool

  /** UDA_TYPE_MAP.at(typeid(T).name()): only four types have an entry. */
  function TypeMapAt(t: CppType): (r: Option<int>)
    ensures r.Some? <==> !t.CBool?
    ensures r.Some? ==> r.value in {TypeUnsignedInt, TypeInt, TypeFloat, TypeDouble}
  {
    match t
    case CUnsignedInt => Some(TypeUnsignedInt)
    case CInt => Some(TypeInt)
    case CFloat => Some(TypeFloat)
    case CDouble => Some(TypeDouble)
    case CBool => None
  }

  /**
   * What ends up in data_desc: the description cut to STRING_LENGTH - 1
   * characters by strncpy and the terminator written after it.
   */
  function Description(desc: Option<string>): (s: string)
    ensures |s| < StringLength
    ensures desc.None? ==> s == ""
    ensures desc.Some? ==> |s| <= |desc.value| && s == desc.value[..|s|]
    ensures desc.Some? && |desc.value| < StringLength ==> s == desc.value
  {
    if desc.None? then ""
    else if |desc.value| < StringLength then desc.value
    else desc.value[..StringLength - 1]
  }

  /** The dimension every helper writes: compressed, from 0 in steps of 1. */
  function UnitDim(n: nat): (d: Dim)
    ensures d.dimN == n && d.compressed && d.dataType == TypeUnsignedInt
    ensures Expand(d).values == Ramp(0.0, 1.0, n)
  {
    InitDim.(dimN := n, dataType := TypeUnsignedInt, compressed := true, dim0 := 0.0, diff := 1.0, methodId := 0)
  }

  /** Multiplying by the same natural number keeps the order. */
  lemma MulMono(a: nat, b: nat, c: nat)
    requires a <= b
    ensures a * c <= b * c
  {
  }

  /** The number of elements of an array of this shape: none exactly when some extent is 0. */
  function Product(shape: seq<nat>): (n: nat)
    ensures n == 0 <==> exists i :: 0 <= i < |shape| && shape[i] == 0
  {
    if shape == [] then 1 else Product(shape[..|shape| - 1]) * shape[|shape| - 1]
  }

  function UnitDims(shape: seq<nat>): (ds: seq<Dim>)
    ensures |ds| == |shape|
    ensures forall i :: 0 <= i < |shape| ==> ds[i] == UnitDim(shape[i])
  {
    seq(|shape|, i requires 0 <= i < |shape| => UnitDim(shape[i]))
  }

  /** setReturnDataScalarType<T>: a rank-0 block holding one value. */
  function ScalarBlock(t: CppType, v: real, desc: Option<string>): (r: Outcome<Block>)
    ensures r.Done? <==> TypeMapAt(t).Some?
    ensures !r.Undefined?
    ensures r.Done? ==> r.value.rank == 0 && r.value.dataN == 1 && r.value.data == [v]
    ensures r.Done? ==> r.value.dataType == TypeMapAt(t).value && r.value.desc == Description(desc)
  {
    var tag := TypeMapAt(t);
    if tag.None? then Threw("std::out_of_range: no UDA_TYPE_MAP entry")
    else Done(InitBlock.(data := [v], dataN := 1, dataType := tag.value, rank := 0, desc := Description(desc)))
  }

  /**
   * setReturnDataArrayType<T>: one unit dimension per shape entry and as
   * many elements as the product of the shape. The values are copied into a
   * buffer of that many elements: more values than that overruns it; fewer
   * leave its tail unset, which the model does not hold.
   */
  function ArrayBlock(t: CppType, values: seq<real>, shape: seq<nat>, desc: Option<string>): (r: Outcome<Block>)
    ensures r.Undefined? <==> |values| > Product(shape)
    ensures r.Done? <==> |values| <= Product(shape) && TypeMapAt(t).Some?
    ensures r.Done? ==> r.value.rank == |shape| && r.value.dataN == Product(shape) && r.value.data == values
    ensures r.Done? ==> r.value.dims == UnitDims(shape) && r.value.dataType == TypeMapAt(t).value
    ensures r.Done? ==> r.value.order == -1 && r.value.desc == Description(desc)
  {
    if |values| > Product(shape) then Undefined("std::copy past the end of the buffer")
    else
      var tag := TypeMapAt(t);
      if tag.None? then Threw("std::out_of_range: no UDA_TYPE_MAP entry")
      else Done(InitBlock.(data := values, dataN := Product(shape), dataType := tag.value,
                           rank := |shape|, dims := UnitDims(shape), desc := Description(desc)))
  }

  /** setReturnDataArrayType_Vec<T> and setReturnDataValArray<T>: a rank-1 block of the values. */
  function VectorBlock(t: CppType, values: seq<real>, desc: Option<string>): (r: Outcome<Block>)
    ensures r.Done? <==> TypeMapAt(t).Some?
    ensures !r.Undefined?
    ensures r.Done? ==> r.value.rank == 1 && |r.value.dims| == 1 && r.value.dims[0] == UnitDim(|values|)
    ensures r.Done? ==> r.value.dataN == |values| && r.value.data == values
    ensures r.Done? ==> r.value.dataType == TypeMapAt(t).value && r.value.desc == Description(desc)
  {
    var tag := TypeMapAt(t);
    if tag.None? then Threw("std::out_of_range: no UDA_TYPE_MAP entry")
    else Done(InitBlock.(data := values, dataN := |values|, dataType := tag.value,
                         rank := 1, dims := [UnitDim(|values|)], desc := Description(desc)))
  }

  /** The vector helpers build the rank-1 case of the shaped-array helper. */
  lemma VectorIsRankOneArray(t: CppType, values: seq<real>, desc: Option<string>)
    ensures VectorBlock(t, values, desc) == ArrayBlock(t, values, [|values|], desc)
  {
    assert Product([|values|]) == Product([]) * |values|;
    assert UnitDims([|values|]) == [UnitDim(|values|)];
  }

  /** A helper given exactly as many values as its shape asks for builds a consistent block. */
  lemma ArrayBlockConsistent(t: CppType, values: seq<real>, shape: seq<nat>, desc: Option<string>)
    requires |values| == Product(shape) && !t.CBool?
    ensures ArrayBlock(t, values, shape, desc).Done?
    ensures |ArrayBlock(t, values, shape, desc).value.data| == ArrayBlock(t, values, shape, desc).value.dataN
    ensures |ArrayBlock(t, values, shape, desc).value.dims| == ArrayBlock(t, values, shape, desc).value.rank
  {
  }

  /**
   * The dimension left where the ordering dimension was: no values, unsigned
   * int, compressed from 0 in steps of 1, its length and names kept.
   */
  function UnitDescriptor(d: Dim): (r: Dim)
    ensures r.dimN == d.dimN && r.values == [] && r.compressed && r.dataType == TypeUnsignedInt
    ensures r.dimUnits == d.dimUnits && r.dimLabel == d.dimLabel
  {
    d.(values := [], dataType := TypeUnsignedInt, compressed := true, methodId := 0, dim0 := 0.0, diff := 1.0)
  }

  /**
   * setReturnTimeArray: the ordering dimension becomes the data of a rank-1
   * block with no ordering dimension. Only dims[0] is expanded first, whichever
   * dimension is the ordering one. An ordering index outside the block's
   * dimensions is read unchecked.
   */
  function TimeArray(b: Block): (r: Outcome<Block>)
    ensures r.Done? <==> 0 <= b.order < b.rank <= |b.dims|
    ensures r.Done? ==> r.value.rank == 1 && r.value.order == -1 && |r.value.dims| == |b.dims|
    ensures r.Done? ==> r.value.data == (if b.order == 0 then Expand(b.dims[0]) else b.dims[b.order]).values
    ensures r.Done? ==> r.value.dataN == b.dims[b.order].dimN && r.value.dataType == b.dims[b.order].dataType
    ensures r.Done? ==> r.value.dataUnits == b.dims[b.order].dimUnits && r.value.dataLabel == b.dims[b.order].dimLabel
    ensures r.Done? ==> r.value.dims[b.order] == UnitDescriptor(Expand(b.dims[b.order]))
    ensures r.Done? && b.order != 0 ==> r.value.dims[0] == Expand(b.dims[0])
    ensures r.Done? ==> forall i :: 0 < i < |b.dims| && i != b.order ==> r.value.dims[i] == b.dims[i]
    ensures r.Done? ==> r.value.desc == b.desc && r.value.errorType == b.errorType
    ensures !r.Threw?
  {
    if !(0 <= b.order < b.rank <= |b.dims|) then Undefined("ordering dimension outside the dims")
    else
      var t := b.order;
      var dims := b.dims[0 := Expand(b.dims[0])];
      var time := dims[t];
      Done(b.(rank := 1, order := -1, data := time.values, dataN := time.dimN, dataType := time.dataType,
              dataUnits := time.dimUnits, dataLabel := time.dimLabel, dims := dims[t := UnitDescriptor(time)]))
  }

  method SetReturnDataScalarType(b: DataBlock, t: CppType, v: real, desc: Option<string>) returns (r: Outcome<int>)
    modifies b
    ensures r.Done? <==> ScalarBlock(t, v, desc).Done?
    ensures r.Done? ==> r.value == 0 && b.Value() == ScalarBlock(t, v, desc).value
    ensures r.Threw? ==> b.Value() == InitBlock.(desc := Description(desc))
    ensures !r.Undefined?
  {
    b.Reset();
    b.desc := Description(desc);
    b.rank := 0;
    var tag := TypeMapAt(t);
    if tag.None? {
      return Threw("std::out_of_range: no UDA_TYPE_MAP entry");
    }
    b.SetData([v]);
    b.dataType := tag.value;
    b.dataN := 1;
    return Done(0);
  }

  /** The unit descriptors of an array of the given shape, and its element count. */
  method UnitShape(shape: seq<nat>) returns (dims: seq<Dim>, len: nat)
    ensures dims == UnitDims(shape) && len == Product(shape)
  {
    dims := [];
    len := 1;
    var i := 0;
    while i < |shape|
      invariant 0 <= i <= |shape|
      invariant len == Product(shape[..i])
      invariant dims == UnitDims(shape[..i])
    {
      assert shape[..i + 1][..i] == shape[..i];
      dims := dims + [UnitDim(shape[i])];
      len := len * shape[i];
      i := i + 1;
    }
    assert shape[..i] == shape;
  }

  method SetReturnDataArrayType(b: DataBlock, t: CppType, values: seq<real>, shape: seq<nat>, desc: Option<string>)
    returns (r: Outcome<int>)
    modifies b
    ensures r.Done? <==> ArrayBlock(t, values, shape, desc).Done?
    ensures r.Undefined? <==> ArrayBlock(t, values, shape, desc).Undefined?
    ensures r.Done? ==> r.value == 0 && b.Value() == ArrayBlock(t, values, shape, desc).value
    ensures r.Threw? ==> b.Value() == InitBlock.(desc := Description(desc), rank := |shape|, dims := UnitDims(shape))
  {
    b.Reset();
    b.desc := Description(desc);
    b.rank := |shape|;
    var dims, len := UnitShape(shape);
    b.dims := dims;
    if |values| > len {
      return Undefined("std::copy past the end of the buffer");
    }
    var tag := TypeMapAt(t);
    if tag.None? {
      return Threw("std::out_of_range: no UDA_TYPE_MAP entry");
    }
    b.SetData(values);
    b.dataType := tag.value;
    b.dataN := len;
    ArrayBlockOf(t, values, shape, desc, b.Value());
    return Done(0);
  }

  /** The block ArrayBlock builds, named field by field. */
  lemma ArrayBlockOf(t: CppType, values: seq<real>, shape: seq<nat>, desc: Option<string>, w: Block)
    requires |values| <= Product(shape) && TypeMapAt(t).Some?
    requires w.data == values && w.dataN == Product(shape) && w.dataType == TypeMapAt(t).value
    requires w.rank == |shape| && w.order == -1 && w.dims == UnitDims(shape) && w.desc == Description(desc)
    requires w.dataUnits == "" && w.dataLabel == "" && w.text == "" && w.errorType == TypeUnknown
    ensures ArrayBlock(t, values, shape, desc) == Done(w)
  {
  }

  method SetReturnDataArrayTypeVec(b: DataBlock, t: CppType, values: seq<real>, desc: Option<string>)
    returns (r: Outcome<int>)
    modifies b
    ensures r.Done? <==> VectorBlock(t, values, desc).Done?
    ensures r.Done? ==> r.value == 0 && b.Value() == VectorBlock(t, values, desc).value
    ensures r.Threw? ==> b.Value() == InitBlock.(desc := Description(desc), rank := 1, dims := [UnitDim(|values|)])
    ensures !r.Undefined?
  {
    b.Reset();
    b.desc := Description(desc);
    b.rank := 1;
    b.dims := [UnitDim(|values|)];
    var tag := TypeMapAt(t);
    if tag.None? {
      return Threw("std::out_of_range: no UDA_TYPE_MAP entry");
    }
    b.SetData(values);
    b.dataType := tag.value;
    b.dataN := |values|;
    return Done(0);
  }

  method SetReturnDataValArray(b: DataBlock, t: CppType, values: seq<real>, desc: Option<string>)
    returns (r: Outcome<int>)
    modifies b
    ensures r.Done? <==> VectorBlock(t, values, desc).Done?
    ensures r.Done? ==> r.value == 0 && b.Value() == VectorBlock(t, values, desc).value
    ensures r.Threw? ==> b.Value() == InitBlock.(desc := Description(desc), rank := 1, dims := [UnitDim(|values|)])
    ensures !r.Undefined?
  {
    b.Reset();
    b.desc := Description(desc);
    b.rank := 1;
    b.dims := [UnitDim(|values|)];
    var tag := TypeMapAt(t);
    if tag.None? {
      return Threw("std::out_of_range: no UDA_TYPE_MAP entry");
    }
    b.SetData(values);
    b.dataType := tag.value;
    b.dataN := |values|;
    return Done(0);
  }

  method SetReturnTimeArray(b: DataBlock) returns (r: int)
    requires 0 <= b.order < b.rank <= |b.dims|
    modifies b
    ensures r == 0
    ensures TimeArray(old(b.Value())) == Done(b.Value())
  {
    ghost var before := b.Value();
    var t := b.order;
    var dims := b.dims;
    if dims[0].compressed {
      dims := dims[0 := Expand(dims[0])];
    }
    assert dims == before.dims[0 := Expand(before.dims[0])];
    b.rank := 1;
    b.order := -1;
    b.SetData(dims[t].values);
    b.dataN := dims[t].dimN;
    b.dataType := dims[t].dataType;
    b.dataUnits := dims[t].dimUnits;
    b.dataLabel := dims[t].dimLabel;
    b.dims := dims[t := UnitDescriptor(dims[t])];
    TimeArrayOf(before, dims, b.Value());
    return 0;
  }

  /** TimeArray of a block whose ordering dimension is in range, given its expanded dims. */
  lemma TimeArrayOf(v: Block, dims: seq<Dim>, w: Block)
    requires 0 <= v.order < v.rank <= |v.dims|
    requires dims == v.dims[0 := Expand(v.dims[0])]
    requires w.rank == 1 && w.order == -1 && w.dims == dims[v.order := UnitDescriptor(dims[v.order])]
    requires w.data == dims[v.order].values && w.dataN == dims[v.order].dimN && w.dataType == dims[v.order].dataType
    requires w.dataUnits == dims[v.order].dimUnits && w.dataLabel == dims[v.order].dimLabel
    requires w.desc == v.desc && w.text == v.text && w.errorType == v.errorType
    ensures TimeArray(v) == Done(w)
  {
  }
}
