/**
 * The OFFSET and SCALE transforms a plugin mapping applies to the block its
 * plugin returned: the span templates (`offset_span`, `scale_span`), the
 * single-value templates (`offset_value`, `scale_value`) and their dispatch
 * on the block's rank and element type (`transform_offset`,
 * `transform_scale`).
 *
 * Elements are reals. An element of an integer type is written back
 * truncated toward zero, as the C++ conversion from float does.
 */
module ScaleOffset {
  import opened Wrappers
  import opened UdaTypes
  import opened DataBlocks

  /** The two transforms; each is applied element by element. */
  datatype Transform = Offset(amount: real) | Scale(amount: real)

  /** The conversion of a float back to an integer: truncation toward zero. */
  function Trunc(x: real): (n: int)
    ensures x >= 0.0 ==> n as real <= x < n as real + 1.0
    ensures x < 0.0 ==> n as real - 1.0 < x <= n as real
  {
    if x >= 0.0 then x.Floor else -((-x).Floor)
  }

  /** An integral value is its own truncation; NeutralTransforms uses it for integer element types. */
  lemma TruncOfInt(k: int)
    ensures Trunc(k as real) == k
  {
  }

  /** `elem += offset` or `elem *= scale` on one element. */
  function Apply(t: Transform, x: real, integral: bool): (r: real)
    ensures var y := if t.Offset? then x + t.amount else x * t.amount;
      && (!integral ==> r == y)
      && (integral ==> r == r.Floor as real)
      && (integral && y >= 0.0 ==> r <= y < r + 1.0)
      && (integral && y < 0.0 ==> r - 1.0 < y <= r)
  {
    var y := match t
      case Offset(o) => x + o
      case Scale(s) => x * s;
    if integral then Trunc(y) as real else y
  }

  /** The span after std::for_each has applied the transform to each element. */
  function Mapped(t: Transform, s: seq<real>, integral: bool): (r: seq<real>)
    ensures |r| == |s|
    ensures forall i :: 0 <= i < |s| ==> r[i] == Apply(t, s[i], integral)
  {
    seq(|s|, i requires 0 <= i < |s| => Apply(t, s[i], integral))
  }

  /** The types the transforms dispatch on; every other tag is refused. */
  predicate Handled(tag: int) {
    tag in {TypeShort, TypeInt, TypeLong, TypeFloat, TypeDouble}
  }

  /** short, int and long: the handled types whose elements are truncated. */
  predicate Integral(tag: int) {
    tag in {TypeShort, TypeInt, TypeLong}
  }

  /**
   * transform_offset / transform_scale on a block, with the code returned.
   * A block of rank > 0 is transformed as one span of `dataN` elements, an
   * empty span giving 1; a block of rank 0 has only its first element
   * transformed. An unhandled type gives 1 and changes nothing. A span longer
   * than the buffer, or a scalar with no buffer, is read out of bounds.
   */
  function TransformBlock(b: Block, t: Transform): (r: Outcome<(int, Block)>)
    ensures !r.Threw?
    ensures r.Undefined? <==> Handled(b.dataType) && (if b.rank > 0 then b.dataN > |b.data| else |b.data| == 0)
    ensures r.Done? ==> r.value.0 in {0, 1}
    ensures r.Done? ==> r.value.1 == b.(data := r.value.1.data) && |r.value.1.data| == |b.data|
    ensures r.Done? && r.value.0 == 1 ==> r.value.1 == b
    ensures r.Done? && !Handled(b.dataType) ==> r.value == (1, b)
    ensures r.Done? && b.rank > 0 && Handled(b.dataType) ==> (r.value.0 == 1 <==> b.dataN == 0)
    ensures r.Done? && b.rank == 0 && Handled(b.dataType) ==> r.value.0 == 0
  {
    var integral := Integral(b.dataType);
    if !Handled(b.dataType) then Done((1, b))
    else if b.rank > 0 then
      if b.dataN > |b.data| then Undefined("span past the end of the buffer")
      else if b.dataN == 0 then Done((1, b))
      else Done((0, b.(data := Mapped(t, b.data[..b.dataN], integral) + b.data[b.dataN..])))
    else
      if |b.data| == 0 then Undefined("scalar read through a null buffer")
      else Done((0, b.(data := b.data[0 := Apply(t, b.data[0], integral)])))
  }

  /**
   * On a block of rank > 0, each of the `dataN` elements is transformed and
   * the rest of the buffer is left alone.
   */
  lemma TransformSpanElements(b: Block, t: Transform)
    requires Handled(b.dataType) && b.rank > 0 && 0 < b.dataN <= |b.data|
    ensures TransformBlock(b, t).Done? && TransformBlock(b, t).value.0 == 0
    ensures forall i :: 0 <= i < b.dataN ==>
      TransformBlock(b, t).value.1.data[i] == Apply(t, b.data[i], Integral(b.dataType))
    ensures forall i :: b.dataN <= i < |b.data| ==> TransformBlock(b, t).value.1.data[i] == b.data[i]
  {
  }

  /**
   * On short, int and long blocks every transformed element is a whole
   * number: the result is truncated toward zero, as the element type's
   * conversion does.
   */
  lemma IntegralTransformsAreWhole(b: Block, t: Transform)
    requires Integral(b.dataType)
    requires TransformBlock(b, t).Done? && TransformBlock(b, t).value.0 == 0
    ensures var n := if b.rank > 0 then b.dataN else 1;
      forall i :: 0 <= i < n ==> TransformBlock(b, t).value.1.data[i] == TransformBlock(b, t).value.1.data[i].Floor as real
  {
    var w := TransformBlock(b, t).value.1;
    if b.rank > 0 {
      TransformSpanElements(b, t);
    }
  }

  /**
   * What a plugin mapping with both SCALE and OFFSET does to a floating-point
   * block: every element becomes `x * scale + offset`.
   */
  lemma ScaleThenOffset(b: Block, scale: real, offset: real)
    requires b.dataType in {TypeFloat, TypeDouble} && b.rank > 0 && 0 < b.dataN <= |b.data|
    ensures TransformBlock(b, Scale(scale)).Done?
    ensures TransformBlock(TransformBlock(b, Scale(scale)).value.1, Offset(offset)).Done?
    ensures forall i :: 0 <= i < b.dataN ==>
      TransformBlock(TransformBlock(b, Scale(scale)).value.1, Offset(offset)).value.1.data[i] == b.data[i] * scale + offset
  {
    TransformSpanElements(b, Scale(scale));
    TransformSpanElements(TransformBlock(b, Scale(scale)).value.1, Offset(offset));
  }

  /** Two offsets of a floating-point span add up. */
  lemma OffsetsCompose(s: seq<real>, a: real, c: real)
    ensures Mapped(Offset(c), Mapped(Offset(a), s, false), false) == Mapped(Offset(a + c), s, false)
  {
  }

  /**
   * The neutral transforms (offset 0, scale 1) change nothing, on integer
   * spans too as long as their elements are whole numbers.
   */
  lemma NeutralTransforms(s: seq<real>, integral: bool)
    requires integral ==> forall i :: 0 <= i < |s| ==> s[i] == s[i].Floor as real
    ensures Mapped(Offset(0.0), s, integral) == s
    ensures Mapped(Scale(1.0), s, integral) == s
  {
    forall i | 0 <= i < |s|
      ensures Apply(Offset(0.0), s[i], integral) == s[i] && Apply(Scale(1.0), s[i], integral) == s[i]
    {
      if integral {
        TruncOfInt(s[i].Floor);
      }
    }
  }

  /** std::for_each over the first `n` elements with the transform's lambda. */
  method ForEach(a: array<real>, n: nat, t: Transform, integral: bool)
    requires n <= a.Length
    modifies a
    ensures a[..] == Mapped(t, old(a[..n]), integral) + old(a[n..])
  {
    var i := 0;
    while i < n
      invariant 0 <= i <= n
      invariant forall k :: 0 <= k < i ==> a[k] == Apply(t, old(a[k]), integral)
      invariant forall k :: i <= k < a.Length ==> a[k] == old(a[k])
    {
      a[i] := Apply(t, a[i], integral);
      i := i + 1;
    }
    assert a[..] == Mapped(t, old(a[..n]), integral) + old(a[n..]);
  }

  /** offset_span over the first `n` elements: 1 for an empty span. */
  method OffsetSpan(a: array<real>, n: nat, offset: real, integral: bool) returns (err: int)
    requires n <= a.Length
    modifies a
    ensures n == 0 ==> err == 1 && a[..] == old(a[..])
    ensures n > 0 ==> err == 0 && a[..] == Mapped(Offset(offset), old(a[..n]), integral) + old(a[n..])
  {
    if n == 0 {
      return 1;
    }
    ForEach(a, n, Offset(offset), integral);
    return 0;
  }

  /** scale_span over the first `n` elements: 1 for an empty span. */
  method ScaleSpan(a: array<real>, n: nat, scale: real, integral: bool) returns (err: int)
    requires n <= a.Length
    modifies a
    ensures n == 0 ==> err == 1 && a[..] == old(a[..])
    ensures n > 0 ==> err == 0 && a[..] == Mapped(Scale(scale), old(a[..n]), integral) + old(a[n..])
  {
    if n == 0 {
      return 1;
    }
    ForEach(a, n, Scale(scale), integral);
    return 0;
  }

  /** offset_value: the pointed-to element only. */
  method OffsetValue(a: array<real>, offset: real, integral: bool) returns (err: int)
    requires a.Length > 0
    modifies a
    ensures err == 0 && a[..] == old(a[..])[0 := Apply(Offset(offset), old(a[0]), integral)]
  {
    a[0] := Apply(Offset(offset), a[0], integral);
    return 0;
  }

  /** scale_value: the pointed-to element only. */
  method ScaleValue(a: array<real>, scale: real, integral: bool) returns (err: int)
    requires a.Length > 0
    modifies a
    ensures err == 0 && a[..] == old(a[..])[0 := Apply(Scale(scale), old(a[0]), integral)]
  {
    a[0] := Apply(Scale(scale), a[0], integral);
    return 0;
  }

  /** transform_offset on a DataBlock: its buffer is changed in place. */
  method TransformOffset(b: DataBlock, offset: real) returns (err: int)
    requires Handled(b.dataType) ==> if b.rank > 0 then b.dataN <= b.data.Length else b.data.Length > 0
    modifies b.data
    ensures TransformBlock(old(b.Value()), Offset(offset)) == Done((err, b.Value()))
  {
    var integral := Integral(b.dataType);
    if !Handled(b.dataType) {
      return 1;
    }
    if b.rank > 0 {
      err := OffsetSpan(b.data, b.dataN, offset, integral);
    } else {
      err := OffsetValue(b.data, offset, integral);
    }
  }

  /** transform_scale on a DataBlock, case for case as transform_offset. */
  method TransformScale(b: DataBlock, scale: real) returns (err: int)
    requires Handled(b.dataType) ==> if b.rank > 0 then b.dataN <= b.data.Length else b.data.Length > 0
    modifies b.data
    ensures TransformBlock(old(b.Value()), Scale(scale)) == Done((err, b.Value()))
  {
    var integral := Integral(b.dataType);
    if !Handled(b.dataType) {
      return 1;
    }
    if b.rank > 0 {
      err := ScaleSpan(b.data, b.dataN, scale, integral);
    } else {
      err := ScaleValue(b.data, scale, integral);
    }
  }
}
