/**
 * UDA's DATA_BLOCK and DIMS, the structures every mapping writes its result
 * into. `Block` and `Dim` are snapshots of their fields; `DataBlock` is the
 * mutable structure itself, whose payload is a fixed-size buffer, for the
 * helpers that fill or rewrite a block in place.
 *
 * Element values are held as reals whatever the element type; the byte width
 * of a type matters only where the source counts bytes (UdaTypes).
 */
module DataBlocks {
  import opened UdaTypes

  /** UDA's STRING_LENGTH: the size of the description, units and label buffers. */
  const StringLength: nat := 1024

  /**
   * One DIMS record. A compressed dimension with method 0 stands for the
   * values dim0, dim0 + diff, dim0 + 2 * diff, ...; `values` is what its
   * `dim` pointer holds (nothing, for a compressed dimension not yet expanded).
   */
  datatype Dim = Dim(
    dimN: nat,
    dataType: int,
    compressed: bool,
    methodId: int,
    dim0: real,
    diff: real,
    values: seq<real>,
    dimUnits: string,
    dimLabel: string)

  /**
   * One DATA_BLOCK. `data` is what the payload buffer holds; `dataN` is the
   * element count the block declares, which a block handed over by another
   * plugin need not match. `text` is the payload of a string block.
   */
  datatype Block = Block(
    data: seq<real>,
    dataN: nat,
    dataType: int,
    rank: nat,
    order: int,
    dims: seq<Dim>,
    desc: string,
    dataUnits: string,
    dataLabel: string,
    text: string,
    errorType: int)

  /** initDimBlock: an empty, uncompressed dimension of unknown type. */
  const InitDim: Dim := Dim(0, TypeUnknown, false, 0, 0.0, 0.0, [], "", "")

  /** initDataBlock: no data, unknown type, rank 0 and no ordering dimension. */
  const InitBlock: Block := Block([], 0, TypeUnknown, 0, -1, [], "", "", "", "", TypeUnknown)

  /** The values a method-0 compressed dimension stands for. */
  function Ramp(dim0: real, diff: real, n: nat): (r: seq<real>)
    ensures |r| == n
    ensures forall i :: 0 <= i < n ==> r[i] == dim0 + (i as real) * diff
  {
    seq(n, i requires 0 <= i < n => dim0 + (i as real) * diff)
  }

  /**
   * uncompressDim: a compressed dimension gets its values written out; the
   * compression flag itself is left as it is. Only method 0 (start and step),
   * the one this plugin writes, is modelled.
   */
  function Expand(d: Dim): (r: Dim)
    ensures d.compressed ==> |r.values| == d.dimN
    ensures d.compressed ==> forall i :: 0 <= i < d.dimN ==> r.values[i] == d.dim0 + (i as real) * d.diff
    ensures !d.compressed ==> r == d
    ensures r.(values := d.values) == d
  {
    if d.compressed then d.(values := Ramp(d.dim0, d.diff, d.dimN)) else d
  }

  /**
   * The expansion the cache and the subsetter do before copying a dimension:
   * uncompressDim, then the dimension is marked uncompressed with method 0.
   */
  function Decompress(d: Dim): (r: Dim)
    ensures !r.compressed
    ensures d.compressed ==> |r.values| == d.dimN && r.methodId == 0
    ensures !d.compressed ==> r == d
    ensures r.dimN == d.dimN && r.dataType == d.dataType
  {
    if d.compressed then Expand(d).(compressed := false, methodId := 0) else d
  }

  /** The mutable DATA_BLOCK. */
  class DataBlock {
    var data: array<real>
    var dataN: nat
    var dataType: int
    var rank: nat
    var order: int
    var dims: seq<Dim>
    var desc: string
    var dataUnits: string
    var dataLabel: string
    var text: string
    var errorType: int

    function Value(): Block
      reads this, data
    {
      Block(data[..], dataN, dataType, rank, order, dims, desc, dataUnits, dataLabel, text, errorType)
    }

    /** A block as initDataBlock leaves it. */
    constructor ()
      ensures Value() == InitBlock && fresh(data)
    {
      data := new real[0];
      dataN, dataType, rank, order, dims := 0, TypeUnknown, 0, -1, [];
      desc, dataUnits, dataLabel, text, errorType := "", "", "", "", TypeUnknown;
    }

    /** initDataBlock on an existing block: every field back to its initial value. */
    method Reset()
      modifies this
      ensures Value() == InitBlock && fresh(data)
    {
      data := new real[0];
      dataN, dataType, rank, order, dims := 0, TypeUnknown, 0, -1, [];
      desc, dataUnits, dataLabel, text, errorType := "", "", "", "", TypeUnknown;
    }

    /** A fresh payload buffer holding exactly `values`. */
    method SetData(values: seq<real>)
      modifies this
      ensures data[..] == values && fresh(data)
      ensures dataN == old(dataN) && dataType == old(dataType) && rank == old(rank)
      ensures order == old(order) && dims == old(dims) && desc == old(desc)
      ensures dataUnits == old(dataUnits) && dataLabel == old(dataLabel) && text == old(text)
      ensures errorType == old(errorType)
    {
      var buffer := new real[|values|];
      var i := 0;
      while i < |values|
        modifies buffer
        invariant 0 <= i <= |values|
        invariant forall k :: 0 <= k < i ==> buffer[k] == values[k]
      {
        buffer[i] := values[i];
        i := i + 1;
      }
      assert buffer[..] == values;
      data := buffer;
    }
  }
}
