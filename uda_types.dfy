/**
 * UDA's element-type tags and the byte size of each supported tag
 * (size_of_uda_type). Tags are plain integers, as in DATA_BLOCK::data_type;
 * their values are those of UDA's UDA_TYPE enumeration.
 */
module UdaTypes {
  import opened Wrappers

  const TypeUnknown: int := 0
  const TypeChar: int := 1
  const TypeShort: int := 2
  const TypeInt: int := 3
  const TypeUnsignedInt: int := 4
  const TypeLong: int := 5
  const TypeFloat: int := 6
  const TypeDouble: int := 7
  const TypeUnsignedChar: int := 8
  const TypeUnsignedShort: int := 9
  const TypeUnsignedLong: int := 10
  const TypeLong64: int := 11
  const TypeUnsignedLong64: int := 12
  const TypeString: int := 17
  /** The last tag of the enumeration; MapArguments rejects anything above it. */
  const TypeCapnp: int := 22

  /**
   * An integer converted to a 32-bit `int`: its low 32 bits read in two's
   * complement.
   */
  function Int32Of(x: int): (r: int)
    ensures -0x8000_0000 <= r < 0x8000_0000
    ensures (x - r) % 0x1_0000_0000 == 0
    ensures -0x8000_0000 <= x < 0x8000_0000 ==> r == x
  {
    var low := (x + 0x8000_0000) % 0x1_0000_0000;
    assert x + 0x8000_0000 == (x + 0x8000_0000) / 0x1_0000_0000 * 0x1_0000_0000 + low;
    low - 0x8000_0000
  }

  /** An integer converted to a 32-bit `unsigned int`: its low 32 bits. */
  function UInt32Of(x: int): (r: nat)
    ensures r < 0x1_0000_0000
    ensures (x - r) % 0x1_0000_0000 == 0
    ensures 0 <= x < 0x1_0000_0000 ==> r == x
  {
    var low := x % 0x1_0000_0000;
    assert x == x / 0x1_0000_0000 * 0x1_0000_0000 + low;
    low
  }

  /** The ten tags the cache and the subsetter know how to size. */
  predicate Sized(tag: int) {
    tag in {TypeShort, TypeInt, TypeLong, TypeLong64, TypeUnsignedShort,
            TypeUnsignedInt, TypeUnsignedLong, TypeUnsignedLong64, TypeFloat, TypeDouble}
  }

  /** Byte width of one element of the given type on an LP64 platform. */
  predicate HasWidth(tag: int, width: nat) {
    || (width == 2 && tag in {TypeShort, TypeUnsignedShort})
    || (width == 4 && tag in {TypeInt, TypeUnsignedInt, TypeFloat})
    || (width == 8 && tag in {TypeLong, TypeLong64, TypeUnsignedLong, TypeUnsignedLong64, TypeDouble})
  }

  /**
   * size_of_uda_type: sizeof of the C++ type behind each supported tag;
   * any other tag throws (None here).
   */
  function SizeOfUdaType(tag: int): (r: Option<nat>)
    ensures r.Some? <==> Sized(tag)
    ensures r.Some? ==> r.value > 0 && HasWidth(tag, r.value)
  {
    if tag == TypeShort then Some(2)
    else if tag == TypeInt then Some(4)
    else if tag == TypeLong then Some(8)
    else if tag == TypeLong64 then Some(8)
    else if tag == TypeUnsignedShort then Some(2)
    else if tag == TypeUnsignedInt then Some(4)
    else if tag == TypeUnsignedLong then Some(8)
    else if tag == TypeUnsignedLong64 then Some(8)
    else if tag == TypeFloat then Some(4)
    else if tag == TypeDouble then Some(8)
    else None
  }

  /** The signed and unsigned tag of one width report the same size. */
  lemma SignedUnsignedSameSize()
    ensures SizeOfUdaType(TypeShort) == SizeOfUdaType(TypeUnsignedShort) == Some(2)
    ensures SizeOfUdaType(TypeInt) == SizeOfUdaType(TypeUnsignedInt) == Some(4)
    ensures SizeOfUdaType(TypeLong) == SizeOfUdaType(TypeUnsignedLong) == Some(8)
    ensures SizeOfUdaType(TypeLong64) == SizeOfUdaType(TypeUnsignedLong64) == Some(8)
  {
  }

  /** A byte count made of whole elements gives back the element count. */
  lemma {:induction false} ElementsFromBytes(tag: int, n: nat)
    requires Sized(tag)
    ensures (n * SizeOfUdaType(tag).value) / SizeOfUdaType(tag).value == n
  {
    var w := SizeOfUdaType(tag).value;
    if w == 2 {
      assert (n * 2) / 2 == n;
    } else if w == 4 {
      assert (n * 4) / 4 == n;
    } else {
      assert w == 8;
      assert (n * 8) / 8 == n;
    }
  }
}
