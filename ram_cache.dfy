/**
 * RamCache: a fixed-capacity cache of data blocks keyed by request string,
 * held as two parallel vectors (keys and entries). While there is room a new
 * entry is appended; once full, the entry at the current position is
 * overwritten and the position moves on round the ring. Lookup is a linear
 * scan that takes the first matching key.
 *
 * A cached entry is a deep copy of a block's payload, dimension values and
 * type tags. The payload is held as its elements; its byte length is the
 * element count times the byte width of its type, which is how the block is
 * restored from it.
 */
module RamCaches {
  import opened Wrappers
  import opened UdaTypes
  import opened DataBlocks
  import Subset
  import opened SubsetTheory

  /** ram_cache::default_size. */
  const DefaultSize: nat := 100

  /** What size_of_uda_type throws for a tag the cache cannot size. */
  const NotCacheable: string := "uda type not implemented for json_imas_mapping cache"

  /** DataEntry: copied payload, error arrays, dimension values and type tags. */
  datatype DataEntry = DataEntry(
    data: seq<real>,
    errorHigh: seq<real>,
    errorLow: seq<real>,
    dims: seq<seq<real>>,
    order: int,
    dataType: int,
    dimTypes: seq<int>,
    errorType: int)

  /** The byte width of a sized tag. */
  function Width(tag: int): (w: nat)
    requires Sized(tag)
    ensures w > 0 && HasWidth(tag, w)
  {
    SizeOfUdaType(tag).value
  }

  /** The number of bytes n elements of the given type occupy. */
  function Bytes(n: nat, tag: int): nat
    requires Sized(tag)
  {
    n * Width(tag)
  }

  // ---- make_data_entry ---------------------------------------------------------------------

  /** One dimension as the cache stores it: written out first if compressed, then dimN values copied. */
  function CachedDim(d: Dim): (r: Outcome<seq<real>>)
    ensures r.Done? <==> Sized(d.dataType) && d.dimN <= |Decompress(d).values|
    ensures !Sized(d.dataType) ==> r.Threw?
    ensures r.Done? ==> |r.value| == d.dimN
    ensures r.Done? && !d.compressed ==> r.value == d.values[..d.dimN]
    ensures r.Done? && d.compressed ==> forall i :: 0 <= i < d.dimN ==> r.value[i] == d.dim0 + (i as real) * d.diff
  {
    var e := Decompress(d);
    if !Sized(e.dataType) then Threw(NotCacheable)
    else if e.dimN > |e.values| then Undefined("dim read past its end")
    else Done(e.values[..e.dimN])
  }

  /** The dimension loop of make_data_entry over the first n dimensions. */
  function EntryDims(dims: seq<Dim>, n: nat): (r: Outcome<seq<seq<real>>>)
    ensures r.Done? <==> n <= |dims| && forall i :: 0 <= i < n ==> CachedDim(dims[i]).Done?
    ensures r.Done? ==> |r.value| == n && forall i :: 0 <= i < n ==> CachedDim(dims[i]) == Done(r.value[i])
  {
    if n == 0 then Done([])
    else match EntryDims(dims, n - 1)
      case Done(ds) =>
        if n - 1 >= |dims| then Undefined("dims read past the last dimension")
        else (match CachedDim(dims[n - 1])
          case Done(v) => Done(ds + [v])
          case Threw(w) => Threw(w)
          case Undefined(w) => Undefined(w))
      case Threw(w) => Threw(w)
      case Undefined(w) => Undefined(w)
  }

  /** The type tag of each dimension, in order. */
  function DimTypes(dims: seq<Dim>): (r: seq<int>)
    ensures |r| == |dims| && forall i :: 0 <= i < |dims| ==> r[i] == dims[i].dataType
  {
    seq(|dims|, i requires 0 <= i < |dims| => dims[i].dataType)
  }

  /**
   * make_data_entry: the payload's dataN elements, one stored dimension per
   * rank, and the order, type and error type; the error arrays stay empty.
   */
  function Entry(b: Block): (r: Outcome<DataEntry>)
    ensures r.Done? <==> Sized(b.dataType) && b.dataN <= |b.data| && b.rank <= |b.dims|
                         && forall i :: 0 <= i < b.rank ==> CachedDim(b.dims[i]).Done?
    ensures !Sized(b.dataType) ==> r.Threw?
    ensures r.Done? ==> r.value.data == b.data[..b.dataN] && r.value.errorHigh == [] && r.value.errorLow == []
    ensures r.Done? ==> |r.value.dims| == |r.value.dimTypes| == b.rank
    ensures r.Done? ==> forall i :: 0 <= i < b.rank ==>
                          CachedDim(b.dims[i]) == Done(r.value.dims[i]) && r.value.dimTypes[i] == b.dims[i].dataType
    ensures r.Done? ==> r.value.order == b.order && r.value.dataType == b.dataType && r.value.errorType == b.errorType
  {
    if !Sized(b.dataType) then Threw(NotCacheable)
    else if b.dataN > |b.data| then Undefined("data read past its end")
    else match EntryDims(b.dims, b.rank)
      case Done(ds) => Done(DataEntry(b.data[..b.dataN], [], [], ds, b.order, b.dataType, DimTypes(b.dims[..b.rank]), b.errorType))
      case Threw(w) => Threw(w)
      case Undefined(w) => Undefined(w)
  }

  // ---- copy_from_cache ---------------------------------------------------------------------

  /** One dimension written back: a fresh DIMS of the stored type, its length the bytes over the width. */
  function RestoredDim(values: seq<real>, tag: int): (r: Dim)
    requires Sized(tag)
    ensures r.dimN == |r.values| && r.values == values
    ensures r.dataType == tag && !r.compressed
  {
    ElementsFromBytes(tag, |values|);
    InitDim.(dataType := tag, dimN := Bytes(|values|, tag) / Width(tag), values := values)
  }

  /** The dimension loop of copy_from_cache over the first n stored dimensions. */
  function RestoredDims(e: DataEntry, n: nat): (r: Outcome<seq<Dim>>)
    requires n <= |e.dims|
    ensures r.Done? <==> n <= |e.dimTypes| && forall i :: 0 <= i < n ==> Sized(e.dimTypes[i])
    ensures r.Done? ==> |r.value| == n
    ensures r.Done? ==> forall i :: 0 <= i < n ==> r.value[i].values == e.dims[i] && r.value[i].dimN == |e.dims[i]|
    ensures r.Done? ==> forall i :: 0 <= i < n ==> r.value[i] == RestoredDim(e.dims[i], e.dimTypes[i])
  {
    if n == 0 then Done([])
    else match RestoredDims(e, n - 1)
      case Done(ds) =>
        if n - 1 >= |e.dimTypes| then Undefined("dim_types read past its end")
        else if !Sized(e.dimTypes[n - 1]) then Threw(NotCacheable)
        else Done(ds + [RestoredDim(e.dims[n - 1], e.dimTypes[n - 1])])
      case Threw(w) => Threw(w)
      case Undefined(w) => Undefined(w)
  }

  /**
   * The block copy_from_cache writes for a found entry: an initialised block
   * given the entry's type, element count, payload, one dimension per stored
   * dimension and its order. The error type is not restored.
   */
  function Restore(e: DataEntry): (r: Outcome<Block>)
    ensures r.Done? <==> Sized(e.dataType) && |e.dims| <= |e.dimTypes|
                         && forall i :: 0 <= i < |e.dims| ==> Sized(e.dimTypes[i])
    ensures r.Done? ==> r.value.dataN == |r.value.data| && r.value.data == e.data
    ensures r.Done? ==> r.value.rank == |r.value.dims| == |e.dims|
    ensures r.Done? ==> r.value.dataType == e.dataType && r.value.order == e.order
    ensures r.Done? ==> r.value.errorType == TypeUnknown && r.value.desc == ""
  {
    if !Sized(e.dataType) then Threw(NotCacheable)
    else
      ElementsFromBytes(e.dataType, |e.data|);
      match RestoredDims(e, |e.dims|)
        case Done(ds) =>
          Done(InitBlock.(dataType := e.dataType, dataN := Bytes(|e.data|, e.dataType) / Width(e.dataType),
                          data := e.data, rank := |e.dims|, dims := ds, order := e.order))
        case Threw(w) => Threw(w)
        case Undefined(w) => Undefined(w)
  }

  /**
   * The block as copy_from_cache leaves it once the entry is found, whether
   * or not the copy completes: initialised, its type set, and then (for a
   * sized type) its count, payload and rank; the dimensions and order only
   * when every dimension is restored.
   */
  function Restored(e: DataEntry): (w: Block)
    ensures Restore(e).Done? ==> w == Restore(e).value
    ensures !Sized(e.dataType) ==> w == InitBlock.(dataType := e.dataType)
    ensures Sized(e.dataType) ==> w.dataType == e.dataType && w.data == e.data && w.dataN == |e.data|
                                  && w.rank == |e.dims|
    ensures !Restore(e).Done? ==> w.dims == [] && w.order == -1 && w.desc == "" && w.errorType == TypeUnknown
  {
    if !Sized(e.dataType) then InitBlock.(dataType := e.dataType)
    else match Restore(e)
      case Done(c) => c
      case _ =>
        ElementsFromBytes(e.dataType, |e.data|);
        InitBlock.(dataType := e.dataType, dataN := Bytes(|e.data|, e.dataType) / Width(e.dataType),
                   data := e.data, rank := |e.dims|)
  }

  /**
   * Round trip: an entry made from a block restores that block's type,
   * element count, payload, rank, order and the type, length and written-out
   * values of each dimension; the error type comes back as unknown.
   */
  lemma RoundTrip(b: Block)
    requires Entry(b).Done?
    ensures Restore(Entry(b).value).Done?
    ensures var c := Restore(Entry(b).value).value;
      && c.dataType == b.dataType && c.dataN == b.dataN && c.data == b.data[..b.dataN]
      && c.rank == b.rank && c.order == b.order && c.errorType == TypeUnknown
      && forall i :: 0 <= i < b.rank ==>
           && c.dims[i].dataType == b.dims[i].dataType && c.dims[i].dimN == b.dims[i].dimN
           && c.dims[i].values == Decompress(b.dims[i]).values[..b.dims[i].dimN]
  {
    var e := Entry(b).value;
    assert forall i :: 0 <= i < |e.dims| ==> Sized(e.dimTypes[i]) by {
      forall i | 0 <= i < |e.dims|
        ensures Sized(e.dimTypes[i])
      {
        assert CachedDim(b.dims[i]).Done?;
      }
    }
    var c := Restore(e).value;
    assert RestoredDims(e, |e.dims|) == Done(c.dims);
  }

  /** A block whose dimensions are plain and whose buffers hold exactly their declared lengths comes back field for field. */
  lemma RoundTripPlain(b: Block)
    requires Sized(b.dataType) && b.dataN == |b.data| && b.rank == |b.dims|
    requires forall i :: 0 <= i < b.rank ==> Sized(b.dims[i].dataType) && !b.dims[i].compressed
    requires forall i :: 0 <= i < b.rank ==> b.dims[i].dimN == |b.dims[i].values|
    ensures Entry(b).Done? && Restore(Entry(b).value).Done?
    ensures var c := Restore(Entry(b).value).value;
      && c.data == b.data && c.dataN == b.dataN && c.dataType == b.dataType && c.rank == b.rank && c.order == b.order
      && forall i :: 0 <= i < b.rank ==> c.dims[i].values == b.dims[i].values && c.dims[i].dimN == b.dims[i].dimN
  {
    forall i | 0 <= i < b.rank
      ensures CachedDim(b.dims[i]).Done?
    {
      assert Decompress(b.dims[i]) == b.dims[i];
    }
    RoundTrip(b);
    assert b.data[..b.dataN] == b.data;
    forall i | 0 <= i < b.rank
      ensures Decompress(b.dims[i]).values[..b.dims[i].dimN] == b.dims[i].values
    {
      assert b.dims[i].values[..b.dims[i].dimN] == b.dims[i].values;
    }
  }

  // ---- the ring of entries ----------------------------------------------------------------

  /** The cache's state: its keys and entries, its capacity and the next slot to overwrite. */
  datatype CacheState = CacheState(keys: seq<string>, values: seq<DataEntry>, maxItems: nat, position: nat)
  {
    /** What every reachable state satisfies. */
    predicate Valid() {
      && |keys| == |values| <= maxItems < Subset.U32
      && (|keys| < maxItems ==> position == 0)
      && (maxItems > 0 ==> position < maxItems)
      && (maxItems == 0 ==> position == 0)
    }
  }

  /** A new cache of the given capacity. */
  function Empty(maxItems: nat): CacheState {
    CacheState([], [], maxItems, 0)
  }

  /**
   * add: appended while there is room; otherwise the entry at the current
   * position is overwritten and the position moves on modulo the capacity.
   * A cache of capacity zero writes past the end of its empty vectors.
   */
  function Added(s: CacheState, key: string, value: DataEntry): (r: Outcome<CacheState>)
    ensures r.Done? ==> r.value.maxItems == s.maxItems
    ensures |s.keys| == |s.values| < s.maxItems ==> r == Done(s.(keys := s.keys + [key], values := s.values + [value]))
    ensures s.Valid() ==> (r.Done? <==> s.maxItems > 0)
    ensures s.Valid() && r.Done? ==> r.value.Valid()
    ensures s.Valid() && r.Done? && |s.keys| == s.maxItems ==>
              && r.value.keys == s.keys[s.position := key] && r.value.values == s.values[s.position := value]
              && r.value.position == (s.position + 1) % s.maxItems
  {
    if |s.values| < s.maxItems then
      Done(s.(keys := s.keys + [key], values := s.values + [value]))
    else if s.maxItems == 0 || s.position >= |s.keys| || s.position >= |s.values| then
      Undefined("write past the end of an empty cache")
    else
      Done(s.(keys := s.keys[s.position := key], values := s.values[s.position := value],
              position := (s.position + 1) % s.maxItems))
  }

  /** The lowest index holding the key (std::find), if any. */
  function FirstIndex(keys: seq<string>, key: string): (r: Option<nat>)
    ensures r.None? <==> key !in keys
    ensures r.Some? ==> r.value < |keys| && keys[r.value] == key
    ensures r.Some? ==> forall j :: 0 <= j < r.value ==> keys[j] != key
  {
    if keys == [] then None
    else if keys[0] == key then Some(0)
    else match FirstIndex(keys[1..], key)
      case Some(i) => Some(i + 1)
      case None => None
  }

  /** The entry a lookup of the key finds: the one stored beside its first occurrence. */
  function Lookup(s: CacheState, key: string): (r: Option<DataEntry>)
    requires |s.keys| == |s.values|
    ensures r.None? <==> key !in s.keys
    ensures r.Some? ==> exists i :: 0 <= i < |s.keys| && s.keys[i] == key && s.values[i] == r.value && key !in s.keys[..i]
  {
    match FirstIndex(s.keys, key)
      case Some(i) => Some(s.values[i])
      case None => None
  }

  /** Adding a key not yet cached makes a lookup of it find the new entry. */
  lemma AddedThenFound(s: CacheState, key: string, value: DataEntry)
    requires s.Valid() && s.maxItems > 0 && key !in s.keys
    ensures Added(s, key, value).Done?
    ensures Lookup(Added(s, key, value).value, key) == Some(value)
  {
    var t := Added(s, key, value).value;
    var i := FirstIndex(t.keys, key);
    if |s.keys| < s.maxItems {
      assert t.keys[|s.keys|] == key;
      assert i.Some? && i.value == |s.keys|;
    } else {
      assert t.keys[s.position] == key;
      assert i.Some? && i.value == s.position;
    }
  }

  /**
   * add does not look for the key first: adding a key that is already cached,
   * while there is room, leaves a second copy behind the first, and a lookup
   * still finds the older entry.
   */
  lemma DuplicateShadowed(s: CacheState, key: string, value: DataEntry)
    requires s.Valid() && |s.keys| < s.maxItems && key in s.keys
    ensures Added(s, key, value).Done?
    ensures var t := Added(s, key, value).value;
      && multiset(t.keys)[key] == multiset(s.keys)[key] + 1
      && Lookup(t, key) == Lookup(s, key)
  {
    var t := Added(s, key, value).value;
    var i := FirstIndex(s.keys, key).value;
    assert t.keys[i] == key;
    assert forall j :: 0 <= j < i ==> t.keys[j] == s.keys[j];
    assert FirstIndex(t.keys, key) == Some(i);
  }

  /** The entries added in order to a new cache of the given capacity. */
  function Run(maxItems: nat, keys: seq<string>, values: seq<DataEntry>): (r: Outcome<CacheState>)
    requires maxItems < Subset.U32 && |keys| == |values|
    ensures r.Done? ==> r.value.Valid() && r.value.maxItems == maxItems
  {
    if keys == [] then Done(Empty(maxItems))
    else match Run(maxItems, keys[..|keys| - 1], values[..|keys| - 1])
      case Done(s) => Added(s, keys[|keys| - 1], values[|keys| - 1])
      case Threw(w) => Threw(w)
      case Undefined(w) => Undefined(w)
  }

  /** The last p elements of l moved to the front: the ring's slots after |l| + p writes. */
  function Rotated<T>(l: seq<T>, p: nat): (r: seq<T>)
    requires p <= |l|
    ensures |r| == |l|
  {
    l[|l| - p..] + l[..|l| - p]
  }

  /** A rotation holds the same elements. */
  lemma RotatedMembers<T>(l: seq<T>, p: nat, x: T)
    requires p <= |l|
    ensures x in Rotated(l, p) <==> x in l
  {
    assert l == l[..|l| - p] + l[|l| - p..];
  }

  /** Overwriting slot p of the ring and moving on is rotating the window one further. */
  lemma RotatedStep<T>(l: seq<T>, p: nat, x: T)
    requires p < |l|
    ensures Rotated(l, p)[p := x] == Rotated(l[1..] + [x], (p + 1) % |l|)
  {
    if p + 1 < |l| {
      assert (p + 1) % |l| == p + 1;
      RotatedStepInside(l, p, x);
    } else {
      assert (p + 1) % |l| == 0;
      RotatedStepWrap(l, x);
    }
  }

  lemma RotatedStepInside<T>(l: seq<T>, p: nat, x: T)
    requires p + 1 < |l|
    ensures Rotated(l, p)[p := x] == Rotated(l[1..] + [x], p + 1)
  {
    var m := |l|;
    var a, b := Rotated(l, p)[p := x], Rotated(l[1..] + [x], p + 1);
    forall i | 0 <= i < m
      ensures a[i] == b[i]
    {
      if i < p {
        assert a[i] == l[m - p + i];
      } else if i > p {
        assert a[i] == l[i - p];
      }
    }
  }

  lemma RotatedStepWrap<T>(l: seq<T>, x: T)
    requires 0 < |l|
    ensures Rotated(l, |l| - 1)[|l| - 1 := x] == Rotated(l[1..] + [x], 0)
  {
    var m := |l|;
    var a, b := Rotated(l, m - 1)[m - 1 := x], Rotated(l[1..] + [x], 0);
    forall i | 0 <= i < m
      ensures a[i] == b[i]
    {
      if i < m - 1 {
        assert a[i] == l[1 + i];
      }
    }
  }

  /**
   * What the ring holds after a run of additions to a cache of capacity
   * n > 0: the entries in order while fewer than n were added; after that,
   * exactly the last n added, rotated so that slot i holds the latest entry
   * whose insertion number is i modulo n, and the position is the number of
   * additions modulo n.
   */
  lemma {:induction false} RunHolds(n: nat, keys: seq<string>, values: seq<DataEntry>)
    requires 0 < n < Subset.U32 && |keys| == |values|
    ensures Run(n, keys, values).Done?
    ensures Holds(n, keys, values, Run(n, keys, values).value)
  {
    if keys != [] {
      var m := |keys|;
      var ks, vs, k, v := keys[..m - 1], values[..m - 1], keys[m - 1], values[m - 1];
      RunHolds(n, ks, vs);
      RunLast(n, keys, values);
      HoldsStep(n, keys, values, Run(n, ks, vs).value);
    }
  }

  /** One addition keeps RunHolds' description of the ring. */
  lemma HoldsStep(n: nat, keys: seq<string>, values: seq<DataEntry>, s: CacheState)
    requires 0 < n && 0 < |keys| == |values| && s.Valid() && s.maxItems == n
    requires Holds(n, keys[..|keys| - 1], values[..|keys| - 1], s)
    ensures Added(s, keys[|keys| - 1], values[|keys| - 1]).Done?
    ensures Holds(n, keys, values, Added(s, keys[|keys| - 1], values[|keys| - 1]).value)
  {
    var m := |keys|;
    var ks, vs, k, v := keys[..m - 1], values[..m - 1], keys[m - 1], values[m - 1];
    assert ks + [k] == keys && vs + [v] == values;
    if m - 1 < n {
      HoldsGrow(n, ks, vs, s, k, v);
    } else {
      HoldsWrap(n, ks, vs, s, k, v);
    }
  }

  /** A run is the run of all but the last entry, followed by adding the last. */
  lemma RunLast(n: nat, keys: seq<string>, values: seq<DataEntry>)
    requires n < Subset.U32 && 0 < |keys| == |values|
    requires Run(n, keys[..|keys| - 1], values[..|keys| - 1]).Done?
    ensures Run(n, keys, values)
         == Added(Run(n, keys[..|keys| - 1], values[..|keys| - 1]).value, keys[|keys| - 1], values[|keys| - 1])
  {
  }

  /** The ring's contents after the given additions, as RunHolds states them. */
  predicate Holds(n: nat, keys: seq<string>, values: seq<DataEntry>, s: CacheState)
    requires 0 < n && |keys| == |values|
  {
    if |keys| < n then s.keys == keys && s.values == values && s.position == 0
    else
      && s.position == |keys| % n
      && s.keys == Rotated(keys[|keys| - n..], |keys| % n)
      && s.values == Rotated(values[|keys| - n..], |keys| % n)
  }

  /** An addition to a cache that is not yet full. */
  lemma HoldsGrow(n: nat, ks: seq<string>, vs: seq<DataEntry>, s: CacheState, k: string, v: DataEntry)
    requires 0 < n && |ks| == |vs| < n && s.Valid() && s.maxItems == n && Holds(n, ks, vs, s)
    ensures Added(s, k, v).Done? && Holds(n, ks + [k], vs + [v], Added(s, k, v).value)
  {
    var keys, values := ks + [k], vs + [v];
    if |keys| == n {
      assert keys[|keys| - n..] == keys && values[|keys| - n..] == values;
      assert Rotated(keys, 0) == keys && Rotated(values, 0) == values;
    }
  }

  /** An addition to a full cache: one slot overwritten, the window moved on by one. */
  lemma HoldsWrap(n: nat, ks: seq<string>, vs: seq<DataEntry>, s: CacheState, k: string, v: DataEntry)
    requires 0 < n <= |ks| == |vs| && s.Valid() && s.maxItems == n && Holds(n, ks, vs, s)
    ensures Added(s, k, v).Done? && Holds(n, ks + [k], vs + [v], Added(s, k, v).value)
  {
    WrapKeys(n, ks, vs, s, k, v);
    WrapValues(n, ks, vs, s, k, v);
    assert Added(s, k, v).value.position == |ks + [k]| % n by {
      NextPosition(|ks|, n);
    }
  }

  lemma WrapKeys(n: nat, ks: seq<string>, vs: seq<DataEntry>, s: CacheState, k: string, v: DataEntry)
    requires 0 < n <= |ks| == |vs| && s.Valid() && s.maxItems == n && Holds(n, ks, vs, s)
    ensures Added(s, k, v).Done?
    ensures Added(s, k, v).value.keys == Rotated((ks + [k])[|ks + [k]| - n..], |ks + [k]| % n)
  {
    assert s.keys == Rotated(ks[|ks| - n..], |ks| % n) && s.position == |ks| % n;
    assert Added(s, k, v).value.keys == s.keys[s.position := k];
    RingWrite(s.keys, ks, n, k, s.position, |ks|, |ks + [k]|);
  }

  lemma WrapValues(n: nat, ks: seq<string>, vs: seq<DataEntry>, s: CacheState, k: string, v: DataEntry)
    requires 0 < n <= |ks| == |vs| && s.Valid() && s.maxItems == n && Holds(n, ks, vs, s)
    ensures Added(s, k, v).Done?
    ensures Added(s, k, v).value.values == Rotated((vs + [v])[|ks + [k]| - n..], |ks + [k]| % n)
  {
    assert s.values == Rotated(vs[|ks| - n..], |ks| % n) && s.position == |ks| % n;
    assert Added(s, k, v).value.values == s.values[s.position := v];
    RingWrite(s.values, vs, n, v, s.position, |ks|, |ks + [k]|);
  }

  /** Writing x at the position of a full ring over xs gives the ring over xs + [x]. */
  lemma RingWrite<T>(slots: seq<T>, xs: seq<T>, n: nat, x: T, position: nat, m: nat, m1: nat)
    requires 0 < n <= |xs| == m && m1 == m + 1
    requires slots == Rotated(xs[m - n..], m % n) && position == m % n
    ensures slots[position := x] == Rotated((xs + [x])[m1 - n..], m1 % n)
  {
    WindowStep(xs, n, x, m, m1);
  }

  /** The ring's slots after one more write to a full ring. */
  lemma WindowStep<T>(xs: seq<T>, n: nat, x: T, m: nat, m1: nat)
    requires 0 < n <= |xs| == m && m1 == m + 1
    ensures Rotated(xs[m - n..], m % n)[m % n := x] == Rotated((xs + [x])[m1 - n..], m1 % n)
  {
    var p := m % n;
    assert (p + 1) % n == (m + 1) % n by { NextPosition(m, n); }
    RotatedStep(xs[m - n..], p, x);
    assert xs[m - n..][1..] + [x] == (xs + [x])[m + 1 - n..];
  }

  /** The position after m + 1 additions is the one after m, moved on by one. */
  lemma NextPosition(m: nat, n: nat)
    requires n > 0
    ensures (m % n + 1) % n == (m + 1) % n
  {
    DivModSucc(m, n);
    if m % n + 1 < n {
      assert (m % n + 1) % n == m % n + 1;
    } else {
      assert m % n + 1 == n;
    }
  }

  /**
   * Ring eviction: once at least n entries have been added to a cache of
   * capacity n, a key is cached exactly when it is among the last n added.
   */
  lemma CachedIffRecent(n: nat, keys: seq<string>, values: seq<DataEntry>, key: string)
    requires 0 < n <= |keys| == |values| && n < Subset.U32
    ensures Run(n, keys, values).Done?
    ensures key in Run(n, keys, values).value.keys <==> key in keys[|keys| - n..]
  {
    RunHolds(n, keys, values);
    var r := Rotated(keys[|keys| - n..], |keys| % n);
    assert Run(n, keys, values).value.keys == r;
    RotatedMembers(keys[|keys| - n..], |keys| % n, key);
  }

  /** Adding n + 1 distinct keys to a cache of capacity n evicts the first and keeps the rest. */
  lemma FirstEvicted(n: nat, keys: seq<string>, values: seq<DataEntry>)
    requires 0 < n < Subset.U32 && |keys| == |values| == n + 1
    requires forall i, j :: 0 <= i < j < |keys| ==> keys[i] != keys[j]
    ensures Run(n, keys, values).Done?
    ensures keys[0] !in Run(n, keys, values).value.keys
    ensures forall i :: 1 <= i <= n ==> keys[i] in Run(n, keys, values).value.keys
  {
    CachedIffRecent(n, keys, values, keys[0]);
    forall i | 1 <= i <= n
      ensures keys[i] in Run(n, keys, values).value.keys
    {
      CachedIffRecent(n, keys, values, keys[i]);
      assert keys[1..][i - 1] == keys[i];
    }
  }

  // ---- the cache object --------------------------------------------------------------------

  /** The cache object; its methods are proved against CacheState's functions. */
  class RamCache {
    var keys: seq<string>
    var values: seq<DataEntry>
    var maxItems: nat
    var position: nat

    function State(): CacheState
      reads this
    {
      CacheState(keys, values, maxItems, position)
    }

    /** RamCache(): an empty cache of the default capacity. */
    constructor ()
      ensures State() == Empty(DefaultSize) && State().Valid()
    {
      keys, values, maxItems, position := [], [], DefaultSize, 0;
    }

    /** RamCache(max_items): an empty cache of the given capacity. */
    constructor WithCapacity(capacity: nat)
      requires capacity < Subset.U32
      ensures State() == Empty(capacity) && State().Valid()
    {
      keys, values, maxItems, position := [], [], capacity, 0;
    }

    /** add(key, entry). */
    method Add(key: string, value: DataEntry) returns (r: Outcome<CacheState>)
      requires State().Valid()
      modifies this
      ensures r == Added(old(State()), key, value)
      ensures r.Done? ==> State() == r.value && State().Valid()
      ensures !r.Done? ==> State() == old(State())
    {
      if |values| < maxItems {
        keys := keys + [key];
        values := values + [value];
      } else if position >= |keys| {
        return Undefined("write past the end of an empty cache");
      } else {
        keys := keys[position := key];
        values := values[position := value];
        position := (position + 1) % maxItems;
      }
      return Done(State());
    }

    /** std::find over the keys: the lowest index holding the key. */
    method Find(key: string) returns (r: Option<nat>)
      ensures r.None? <==> key !in keys
      ensures r.Some? ==> r.value < |keys| && keys[r.value] == key
      ensures r.Some? ==> forall j :: 0 <= j < r.value ==> keys[j] != key
    {
      var i := 0;
      while i < |keys|
        invariant 0 <= i <= |keys|
        invariant forall j :: 0 <= j < i ==> keys[j] != key
      {
        if keys[i] == key {
          return Some(i);
        }
        i := i + 1;
      }
      return None;
    }

    /** has_entry: whether some key matches. */
    method HasEntry(key: string) returns (found: bool)
      ensures found <==> key in keys
    {
      var i := Find(key);
      found := i.Some?;
    }

    /** add(key, data_block): the block is copied into a new entry, which is then added. */
    method AddBlock(key: string, b: DataBlock) returns (r: Outcome<CacheState>)
      requires State().Valid()
      modifies this
      ensures Entry(old(b.Value())).Failed() ==> r.Failed() && State() == old(State())
      ensures Entry(old(b.Value())).Done? ==> r == Added(old(State()), key, Entry(old(b.Value())).value)
      ensures r.Done? ==> State() == r.value && State().Valid()
    {
      var e := MakeDataEntry(b);
      if !e.Done? {
        return if e.Threw? then Threw(e.what) else Undefined(e.what);
      }
      r := Add(key, e.value);
    }

    /**
     * copy_from_cache: an absent key leaves the block as it was; a found
     * entry is written into the block from scratch.
     */
    method CopyFromCache(key: string, b: DataBlock) returns (r: Outcome<bool>)
      requires |keys| == |values|
      modifies b
      ensures Lookup(State(), key).None? ==> r == Done(false) && b.Value() == old(b.Value())
      ensures Lookup(State(), key).Some? ==>
                var e := Lookup(State(), key).value;
                && (r.Done? <==> Restore(e).Done?)
                && (r.Done? ==> r.value && b.Value() == Restore(e).value)
                && (!r.Undefined? ==> b.Value() == Restored(e))
    {
      var i := Find(key);
      if i.None? {
        return Done(false);
      }
      var e := values[i.value];
      assert Lookup(State(), key) == Some(e);
      r := CopyEntry(e, b);
    }
  }

  /**
   * copy_from_cache once the entry is found: the block initialised and given
   * the entry's type before the type's width is asked for, then filled from
   * the entry; a failure leaves it part-filled.
   */
  method CopyEntry(e: DataEntry, b: DataBlock) returns (r: Outcome<bool>)
    modifies b
    ensures r.Done? <==> Restore(e).Done?
    ensures r.Done? ==> r.value && b.Value() == Restore(e).value
    ensures !r.Undefined? ==> b.Value() == Restored(e)
  {
    b.Reset();
    b.dataType := e.dataType;
    if !Sized(e.dataType) {
      return Threw(NotCacheable);
    }
    ElementsFromBytes(e.dataType, |e.data|);
    b.dataN := Bytes(|e.data|, e.dataType) / Width(e.dataType);
    b.SetData(e.data);
    b.rank := |e.dims|;
    var ds := RestoreDims(e);
    if !ds.Done? {
      return if ds.Threw? then Threw(ds.what) else Undefined(ds.what);
    }
    b.dims := ds.value;
    b.order := e.order;
    return Done(true);
  }

  /** make_data_entry on a DataBlock: the payload copied, then each dimension in turn. */
  method MakeDataEntry(b: DataBlock) returns (r: Outcome<DataEntry>)
    ensures r == Entry(b.Value())
  {
    var v := b.Value();
    if !Sized(v.dataType) {
      return Threw(NotCacheable);
    }
    if v.dataN > |v.data| {
      return Undefined("data read past its end");
    }
    var ds: seq<seq<real>> := [];
    var i := 0;
    while i < v.rank
      invariant 0 <= i <= v.rank
      invariant EntryDims(v.dims, i) == Done(ds)
    {
      if i >= |v.dims| {
        EntryDimsStops(v.dims, i + 1, v.rank);
        return Undefined("dims read past the last dimension");
      }
      var d := CachedDim(v.dims[i]);
      if !d.Done? {
        EntryDimsStops(v.dims, i + 1, v.rank);
        return if d.Threw? then Threw(d.what) else Undefined(d.what);
      }
      ds := ds + [d.value];
      i := i + 1;
    }
    return Done(DataEntry(v.data[..v.dataN], [], [], ds, v.order, v.dataType, DimTypes(v.dims[..v.rank]), v.errorType));
  }

  /** Once make_data_entry's dimension loop has failed, it stays failed with the same outcome. */
  lemma {:induction false} EntryDimsStops(dims: seq<Dim>, k: nat, n: nat)
    requires k <= n && !EntryDims(dims, k).Done?
    ensures EntryDims(dims, n) == EntryDims(dims, k)
    decreases n
  {
    if n > k {
      EntryDimsStops(dims, k, n - 1);
    }
  }

  /** Once copy_from_cache's dimension loop has failed, it stays failed with the same outcome. */
  lemma {:induction false} RestoredDimsStops(e: DataEntry, k: nat, n: nat)
    requires k <= n <= |e.dims| && !RestoredDims(e, k).Done?
    ensures RestoredDims(e, n) == RestoredDims(e, k)
    decreases n
  {
    if n > k {
      RestoredDimsStops(e, k, n - 1);
    }
  }

  /** copy_from_cache's loop over the stored dimensions. */
  method RestoreDims(e: DataEntry) returns (r: Outcome<seq<Dim>>)
    ensures r == RestoredDims(e, |e.dims|)
  {
    var ds: seq<Dim> := [];
    var i := 0;
    while i < |e.dims|
      invariant 0 <= i <= |e.dims|
      invariant RestoredDims(e, i) == Done(ds)
    {
      if i >= |e.dimTypes| {
        RestoredDimsStops(e, i + 1, |e.dims|);
        return Undefined("dim_types read past its end");
      }
      if !Sized(e.dimTypes[i]) {
        RestoredDimsStops(e, i + 1, |e.dims|);
        return Threw(NotCacheable);
      }
      ds := ds + [RestoredDim(e.dims[i], e.dimTypes[i])];
      i := i + 1;
    }
    return Done(ds);
  }
}
