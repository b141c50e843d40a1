/**
 * The mapping variants a mapping file can declare (VALUE, PLUGIN, DIMENSION,
 * SLICE, EXPR, CUSTOM) and what each one's `map` does to the data block of
 * the request. A mapping is a value; its `map` is a function from the request
 * context (the arguments and the block as it stands) to the code returned and
 * the block left behind, or to the exception or undefined behaviour met on
 * the way.
 *
 * The calls into code outside the plugin (template rendering, other plugins,
 * UDA's string and int-scalar setters, std::stof, expression evaluation) are
 * the fields of an `External` value passed in.
 */
module Mappings {
  import opened Wrappers
  import opened UdaTypes
  import opened DataBlocks
  import opened Json
  import opened CText
  import opened UdaHelpers
  import opened ScaleOffset

  /** The code RAISE_PLUGIN_ERROR returns from the enclosing function. */
  const PluginError: int := 999

  /** What std::stoi throws on a number beyond int's range. */
  const StoiOutOfRange: string := "std::out_of_range from std::stoi"

  /** SignalType: what the last token of the requested path asks for. */
  datatype SignalType = Default | Data | Time | Error | DimSignal | Invalid

  /** MappingType, as nlohmann reads it: a string it does not know reads as the first pair, VALUE. */
  datatype MapType = AsValue | AsPlugin | AsSlice | AsExpr | AsCustom | AsDimension

  function MapTypeOf(j: Json): (t: MapType)
    ensures j == JStr("PLUGIN") <==> t == AsPlugin
    ensures j == JStr("SLICE") <==> t == AsSlice
    ensures j == JStr("EXPR") <==> t == AsExpr
    ensures j == JStr("CUSTOM") <==> t == AsCustom
    ensures j == JStr("DIMENSION") <==> t == AsDimension
  {
    if j == JStr("PLUGIN") then AsPlugin
    else if j == JStr("SLICE") then AsSlice
    else if j == JStr("EXPR") then AsExpr
    else if j == JStr("CUSTOM") then AsCustom
    else if j == JStr("DIMENSION") then AsDimension
    else AsValue
  }

  /** CustomMapType_t; its first pair is INVALID, so anything unrecognised reads as INVALID. */
  datatype CustomKind = MastuHelloWorld | DraftHelloWorld | InvalidKind

  function CustomKindOf(j: Json): (k: CustomKind)
    ensures k == MastuHelloWorld <==> j == JStr("MASTU_helloworld")
    ensures k == DraftHelloWorld <==> j == JStr("DRAFT_helloworld")
  {
    if j == JStr("MASTU_helloworld") then MastuHelloWorld
    else if j == JStr("DRAFT_helloworld") then DraftHelloWorld
    else InvalidKind
  }

  /**
   * One registered mapping. A plugin mapping keeps its SLICE and FUNCTION
   * strings, which its `map` does not use.
   */
  datatype Mapping =
    | ValueMapping(value: Json)
    | PluginMapping(plugin: string, args: map<string, Json>, offset: Option<real>, scale: Option<real>,
                    slice: Option<string>, functionName: Option<string>)
    | DimMapping(probe: string)
    | SliceMapping(indices: seq<string>, key: string)
    | ExprMapping(expr: string, parameters: map<string, string>)
    | CustomMapping(kind: CustomKind)

  /** What std::stof does with a string. */
  datatype RealParse = RealParsed(value: real) | RealInvalid | RealOutOfRange

  /**
   * The code outside the plugin. `argOrder` is the order an unordered_map of
   * plugin arguments is walked in (keys it lists that are not in the map are
   * passed over); `floatsOf` is what a buffer that does not hold floats reads
   * as when reinterpreted as floats; `callPlugin` runs a request and leaves its
   * result in the block.
   */
  datatype External = External(
    render: (string, Json) -> string,
    argOrder: map<string, Json> -> seq<string>,
    callPlugin: (string, Block) -> (int, Block),
    setString: (Block, string) -> (int, Block),
    setIntScalar: (Block, int) -> (int, Block),
    floatsOf: Block -> seq<real>,
    stof: string -> RealParse,
    evalExpr: (string, map<string, string>, Json, Block) -> Outcome<(int, Block)>)

  /**
   * MapArguments: the IDS's mappings, its globals, the signal type and the
   * datatype the request names (UNKNOWN when it names none or an invalid one).
   */
  datatype MapArguments = MapArguments(entries: map<string, Mapping>, globals: Json, sigType: SignalType, dataType: int)

  /**
   * extract_interface_arguments: the code and the datatype stored. A
   * datatype outside UNKNOWN..CAPNP raises the plugin error and leaves the
   * stored datatype as it was, UNKNOWN.
   */
  function ExtractDatatype(requested: Option<int>): (r: (int, int))
    ensures r.0 == 0 <==> requested.None? || TypeUnknown <= requested.value <= TypeCapnp
    ensures r.0 != 0 ==> r == (PluginError, TypeUnknown)
    ensures r.0 == 0 && requested.Some? ==> r.1 == requested.value
    ensures requested.None? ==> r.1 == TypeUnknown
  {
    var requestedType := if requested.Some? then requested.value else TypeUnknown;
    if requestedType < 0 || requestedType > TypeCapnp then (PluginError, TypeUnknown)
    else (0, requestedType)
  }

  /** The MapArguments constructor; the code of extract_interface_arguments is dropped. */
  function NewMapArguments(entries: map<string, Mapping>, globals: Json, sigType: SignalType, requested: Option<int>)
    : (a: MapArguments)
    ensures a.entries == entries && a.globals == globals && a.sigType == sigType
    ensures TypeUnknown <= a.dataType <= TypeCapnp
    ensures requested.Some? && TypeUnknown <= requested.value <= TypeCapnp ==> a.dataType == requested.value
    ensures requested.None? || !(TypeUnknown <= requested.value <= TypeCapnp) ==> a.dataType == TypeUnknown
  {
    MapArguments(entries, globals, sigType, ExtractDatatype(requested).1)
  }

  // ---------------------------------------------------------------- VALUE

  /**
   * The element type type_deduce_array reads an array into, chosen by its
   * first element.
   */
  function ArrayType(first: Json): CppType {
    match first
    case JFloat(_) => CFloat
    case JInt(_) => CInt
    case _ => CUnsignedInt
  }

  /**
   * Whether an element converts to the element type without undefined
   * behaviour: a float read into an integer type must truncate to a value
   * that type holds. Integers always convert, by keeping their low 32 bits.
   */
  predicate Fits(t: CppType, j: Json) {
    j.JFloat? && t != CFloat ==>
      if t == CInt then IntMin <= Trunc(j.r) <= IntMax else 0 <= Trunc(j.r) < 0x1_0000_0000
  }

  predicate AllFit(t: CppType, elems: seq<Json>) {
    forall i :: 0 <= i < |elems| ==> Fits(t, elems[i])
  }

  /**
   * An array element as the element type of the vector it is read into:
   * an integer read into `int` or `unsigned int` keeps its low 32 bits
   * (two's complement for `int`), and a float read into either is truncated
   * toward zero.
   */
  function Element(t: CppType, j: Json): (r: real)
    requires j.IsNumber()
    ensures t == CFloat && j.JFloat? ==> r == j.r
    ensures (t == CInt || t == CUnsignedInt) && Fits(t, j) ==> InRange(t, r) && r == r.Floor as real
    ensures (t == CInt || t == CUnsignedInt) && j.JInt? ==> (j.i - r.Floor) % 0x1_0000_0000 == 0 && (InRange(t, j.i as real) ==> r == j.i as real)
    ensures (t == CInt || t == CUnsignedInt) && j.JUInt? ==> (j.u - r.Floor) % 0x1_0000_0000 == 0 && (InRange(t, j.u as real) ==> r == j.u as real)
    ensures (t == CInt || t == CUnsignedInt) && j.JFloat? ==> (j.r >= 0.0 ==> r <= j.r < r + 1.0) && (j.r < 0.0 ==> r - 1.0 < j.r <= r)
  {
    match j
    case JInt(i) => if t == CInt then Int32Of(i) as real else if t == CUnsignedInt then UInt32Of(i) as real else i as real
    case JUInt(u) => if t == CInt then Int32Of(u) as real else if t == CUnsignedInt then UInt32Of(u) as real else u as real
    case JFloat(x) => if t == CFloat then x else Trunc(x) as real
  }

  function Elements(t: CppType, elems: seq<Json>): (r: seq<real>)
    requires forall i :: 0 <= i < |elems| ==> elems[i].IsNumber()
    ensures |r| == |elems|
    ensures forall i :: 0 <= i < |elems| ==> r[i] == Element(t, elems[i])
  {
    seq(|elems|, i requires 0 <= i < |elems| => Element(t, elems[i]))
  }

  /**
   * type_deduce_array: the element type comes from the first element alone.
   * front() of an empty array is undefined, and so is a float element out of
   * the range of an integer element type.
   */
  function TypeDeduceArray(elems: seq<Json>, b: Block): (r: Outcome<(int, Block)>)
    requires forall i :: 0 <= i < |elems| ==> elems[i].IsNumber()
    ensures !r.Threw?
    ensures r.Undefined? <==> elems == [] || !AllFit(ArrayType(elems[0]), elems)
    ensures r.Done? ==> var t := ArrayType(elems[0]);
      r.value.0 == 0 && r.value.1.rank == 1 && r.value.1.dataN == |elems| &&
      r.value.1.dataType == TypeMapAt(t).value && r.value.1.data == Elements(t, elems)
  {
    if elems == [] then Undefined("front() of an empty array")
    else
      var t := ArrayType(elems[0]);
      if !AllFit(t, elems) then Undefined("float element out of the range of the integer element type")
      else Done((0, VectorBlock(t, Elements(t, elems), None).value))
  }

  /**
   * type_deduce_prim. An integer is read by get<int> or get<unsigned int>,
   * keeping its low 32 bits. A string is rendered twice against the globals
   * and then read by std::stoi: a number becomes an int scalar, a string
   * that does not start with one is returned as a string, and a number too
   * large for an int throws out of the mapping.
   */
  function TypeDeducePrim(v: Json, globals: Json, ext: External, b: Block): (r: Outcome<(int, Block)>)
    ensures v.IsNumber() ==> r.Done? && r.value.0 == 0 && r.value.1.rank == 0 && r.value.1.dataN == 1
    ensures v.JFloat? ==> r.Done? && r.value.1.dataType == TypeFloat && r.value.1.data == [v.r]
    ensures v.JInt? ==> r.Done? && r.value.1.dataType == TypeInt && r.value.1.data == [Int32Of(v.i) as real]
    ensures v.JUInt? ==> r.Done? && r.value.1.dataType == TypeUnsignedInt && r.value.1.data == [UInt32Of(v.u) as real]
    ensures v.JBool? ==> r.Threw?
    ensures v.JStr? ==> var text := ext.render(ext.render(v.s, globals), globals);
      (r.Done? <==> !Stoi(text).OutOfRange?) && !r.Undefined? &&
      (Stoi(text).Parsed? ==> r == Done((0, ScalarBlock(CInt, Stoi(text).value as real, None).value)))
    ensures !v.IsPrimitive() ==> r == Done((1, b))
  {
    match v
    case JFloat(x) => Done((0, ScalarBlock(CFloat, x, None).value))
    case JInt(i) => Done((0, ScalarBlock(CInt, Int32Of(i) as real, None).value))
    case JUInt(u) => Done((0, ScalarBlock(CUnsignedInt, UInt32Of(u) as real, None).value))
    case JBool(x) => ScalarBlock(CBool, if x then 1.0 else 0.0, None).Propagate()
    case JStr(s) =>
      var text := ext.render(ext.render(s, globals), globals);
      (match Stoi(text)
       case Parsed(i) => Done((0, ScalarBlock(CInt, i as real, None).value))
       case InvalidArgument => Done((0, ext.setString(b, text).1))
       case OutOfRange => Threw(StoiOutOfRange))
    case _ => Done((1, b))
  }

  predicate AllNumbers(elems: seq<Json>) {
    forall i :: 0 <= i < |elems| ==> elems[i].IsNumber()
  }

  /** ValueMapping::map. */
  function ValueMap(v: Json, globals: Json, ext: External, b: Block): (r: Outcome<(int, Block)>)
    ensures v.JNull? || v.JDiscarded? || v.JBinary? || v.JObj? ==> r == Done((1, b))
    ensures v.JArr? && !AllNumbers(v.elems) ==> r == Done((1, b))
    ensures v.JArr? && AllNumbers(v.elems) ==>
      (r.Undefined? <==> v.elems == [] || !AllFit(ArrayType(v.elems[0]), v.elems))
    ensures v.JArr? && AllNumbers(v.elems) && r.Done? ==>
      var t := ArrayType(v.elems[0]);
      r.value.0 == 0 && r.value.1 == VectorBlock(t, Elements(t, v.elems), None).value
    ensures v.IsNumber() ==> r.Done? && r.value.0 == 0 && r.value.1.rank == 0 && r.value.1.dataN == 1
    ensures v.JFloat? ==> r.Done? && r.value.1.dataType == TypeFloat && r.value.1.data == [v.r]
    ensures v.JInt? ==> r.Done? && r.value.1.dataType == TypeInt && r.value.1.data == [Int32Of(v.i) as real]
    ensures v.JUInt? ==> r.Done? && r.value.1.dataType == TypeUnsignedInt && r.value.1.data == [UInt32Of(v.u) as real]
    ensures v.JBool? ==> r.Threw?
    ensures v.JStr? ==> var text := ext.render(ext.render(v.s, globals), globals);
      (r.Done? <==> !Stoi(text).OutOfRange?) && !r.Undefined? &&
      (Stoi(text).Parsed? ==> r == Done((0, ScalarBlock(CInt, Stoi(text).value as real, None).value))) &&
      (Stoi(text).InvalidArgument? ==> r == Done((0, ext.setString(b, text).1)))
  {
    if v.JDiscarded? || v.JBinary? || v.JNull? then Done((1, b))
    else if v.JArr? then
      if AllNumbers(v.elems) then TypeDeduceArray(v.elems, b) else Done((1, b))
    else if v.IsPrimitive() then TypeDeducePrim(v, globals, ext, b)
    else Done((1, b))
  }

  /** The value an integral element type holds: `int`'s range, or `unsigned int`'s. */
  predicate InRange(t: CppType, x: real) {
    if t == CInt then IntMin as real <= x <= IntMax as real else 0.0 <= x < 0x1_0000_0000 as real
  }

  /**
   * A VALUE array read into `int` or `unsigned int` stores only values that
   * type holds; each integer element is stored as the value congruent to it
   * modulo 2^32, and as itself when the type holds it.
   */
  lemma IntegerArrayNarrows(v: Json, globals: Json, ext: External, b: Block, i: nat)
    requires v.JArr? && AllNumbers(v.elems) && ValueMap(v, globals, ext, b).Done?
    requires ArrayType(v.elems[0]) != CFloat && i < |v.elems|
    ensures var t, x := ArrayType(v.elems[0]), ValueMap(v, globals, ext, b).value.1.data[i];
      && InRange(t, x)
      && (v.elems[i].JInt? ==> x == x.Floor as real && (v.elems[i].i - x.Floor) % 0x1_0000_0000 == 0)
      && (v.elems[i].JUInt? ==> x == x.Floor as real && (v.elems[i].u - x.Floor) % 0x1_0000_0000 == 0)
      && (v.elems[i].JInt? && InRange(t, v.elems[i].i as real) ==> x == v.elems[i].i as real)
      && (v.elems[i].JUInt? && InRange(t, v.elems[i].u as real) ==> x == v.elems[i].u as real)
  {
    var t := ArrayType(v.elems[0]);
    assert Fits(t, v.elems[i]);
    assert ValueMap(v, globals, ext, b).value.1.data[i] == Element(t, v.elems[i]);
  }

  /**
   * The narrowing on three small inputs: [1, -1] is read as unsigned and
   * stores 2^32 - 1, the scalar 5000000000 stores 705032704, and the int
   * array [-1, 3000000000] stores -1294967296 for its second element.
   */
  lemma NarrowingExamples(globals: Json, ext: External, b: Block)
    ensures ValueMap(JArr([JUInt(1), JInt(-1)]), globals, ext, b).Done?
    ensures ValueMap(JArr([JUInt(1), JInt(-1)]), globals, ext, b).value.1.data == [1.0, 4294967295.0]
    ensures ValueMap(JUInt(5000000000), globals, ext, b).Done?
    ensures ValueMap(JUInt(5000000000), globals, ext, b).value.1.data == [705032704.0]
    ensures ValueMap(JArr([JInt(-1), JUInt(3000000000)]), globals, ext, b).Done?
    ensures ValueMap(JArr([JInt(-1), JUInt(3000000000)]), globals, ext, b).value.1.data == [-1.0, -1294967296.0]
  {
    UnsignedArrayWraps(globals, ext, b);
    IntArrayWraps(globals, ext, b);
  }

  /** `[1, -1]` is read as `vector<unsigned int>`, so -1 wraps to 2^32 - 1. */
  lemma UnsignedArrayWraps(globals: Json, ext: External, b: Block)
    ensures ValueMap(JArr([JUInt(1), JInt(-1)]), globals, ext, b).Done?
    ensures ValueMap(JArr([JUInt(1), JInt(-1)]), globals, ext, b).value.1.data == [1.0, 4294967295.0]
  {
    assert Elements(CUnsignedInt, [JUInt(1), JInt(-1)]) == [1.0, 4294967295.0];
  }

  /** `[-1, 3000000000]` is read as `vector<int>`, so 3000000000 wraps below zero. */
  lemma IntArrayWraps(globals: Json, ext: External, b: Block)
    ensures ValueMap(JArr([JInt(-1), JUInt(3000000000)]), globals, ext, b).Done?
    ensures ValueMap(JArr([JInt(-1), JUInt(3000000000)]), globals, ext, b).value.1.data == [-1.0, -1294967296.0]
  {
    assert Elements(CInt, [JInt(-1), JUInt(3000000000)]) == [-1.0, -1294967296.0];
  }

  /**
   * A templated VALUE string that renders to a number followed by anything
   * that does not continue it gives that number as an int scalar.
   */
  lemma RenderedNumberIsInt(v: Json, globals: Json, ext: External, b: Block, n: nat, rest: string)
    requires v.JStr? && n <= IntMax
    requires ext.render(ext.render(v.s, globals), globals) == NatToString(n) + rest
    requires rest == [] || !IsDigit(rest[0])
    ensures ValueMap(v, globals, ext, b).Done?
    ensures ValueMap(v, globals, ext, b).value.0 == 0
    ensures ValueMap(v, globals, ext, b).value.1.dataType == TypeInt
    ensures ValueMap(v, globals, ext, b).value.1.data == [n as real]
  {
    StoiReadsNumericPrefix(n, rest);
  }

  /** A templated VALUE string that renders to text with no leading number is returned as text. */
  lemma RenderedTextIsString(v: Json, globals: Json, ext: External, b: Block)
    requires v.JStr?
    requires var text := ext.render(ext.render(v.s, globals), globals);
      text == [] || (!IsDigit(text[0]) && !IsSpace(text[0]) && text[0] != '-' && text[0] != '+')
    ensures ValueMap(v, globals, ext, b) == Done((0, ext.setString(b, ext.render(ext.render(v.s, globals), globals)).1))
  {
    StoiRejectsText(ext.render(ext.render(v.s, globals), globals));
  }

  // --------------------------------------------------------------- PLUGIN

  /** What one plugin argument adds to the request. */
  function ArgText(key: string, field: Json, globals: Json, ext: External): (s: string)
    ensures field.JStr? ==> s == key + "=" + ext.render(ext.render(field.s, globals), globals) + ", "
    ensures field.JBool? ==> s == key + ", "
    ensures !field.JStr? && !field.JBool? ==> s == ""
  {
    if field.JStr? then key + "=" + ext.render(ext.render(field.s, globals), globals) + ", "
    else if field.JBool? then key + ", "
    else ""
  }

  /** The arguments' text, the keys taken in the given order. */
  function ArgsText(keys: seq<string>, args: map<string, Json>, globals: Json, ext: External): string {
    if keys == [] then ""
    else
      var k := keys[|keys| - 1];
      ArgsText(keys[..|keys| - 1], args, globals, ext) + (if k in args then ArgText(k, args[k], globals, ext) else "")
  }

  /** get_request_str: `<plugin>::get(` and the text of each argument. */
  function RequestString(plugin: string, args: map<string, Json>, globals: Json, ext: External): string {
    plugin + "::get(" + ArgsText(ext.argOrder(args), args, globals, ext)
  }

  /** The arguments' text is empty or ends with the separator ", ". */
  lemma {:induction false} ArgsTextEndsWithSeparator(keys: seq<string>, args: map<string, Json>, globals: Json, ext: External)
    ensures var t := ArgsText(keys, args, globals, ext);
      t == [] || (|t| >= 2 && t[|t| - 2..] == ", ")
  {
    if keys != [] {
      ArgsTextEndsWithSeparator(keys[..|keys| - 1], args, globals, ext);
    }
  }

  /**
   * The request begins with `<plugin>::get(`, so it is never empty, and it
   * ends with that opening or with ", ": no closing parenthesis is added.
   */
  lemma RequestShape(plugin: string, args: map<string, Json>, globals: Json, ext: External)
    ensures var r := RequestString(plugin, args, globals, ext);
      |r| >= |plugin| + 6 && r[..|plugin| + 6] == plugin + "::get(" &&
      (r == plugin + "::get(" || r[|r| - 2..] == ", ") && r[|r| - 1] != ')'
  {
    var t := ArgsText(ext.argOrder(args), args, globals, ext);
    ArgsTextEndsWithSeparator(ext.argOrder(args), args, globals, ext);
    var r := RequestString(plugin, args, globals, ext);
    assert r == (plugin + "::get(") + t;
    assert r[..|plugin| + 6] == plugin + "::get(";
  }

  /** Arguments that are neither strings nor booleans add nothing to the request. */
  lemma {:induction false} OtherArgsSkipped(keys: seq<string>, args: map<string, Json>, globals: Json, ext: External)
    requires forall k :: k in args ==> !args[k].JStr? && !args[k].JBool?
    ensures ArgsText(keys, args, globals, ext) == ""
  {
    if keys != [] {
      OtherArgsSkipped(keys[..|keys| - 1], args, globals, ext);
    }
  }

  /** The request string, built with `+=` over the arguments in their walking order. */
  method BuildRequest(plugin: string, args: map<string, Json>, globals: Json, ext: External) returns (r: string)
    ensures r == RequestString(plugin, args, globals, ext)
  {
    var keys := ext.argOrder(args);
    r := plugin + "::get(";
    var i := 0;
    while i < |keys|
      invariant 0 <= i <= |keys|
      invariant r == plugin + "::get(" + ArgsText(keys[..i], args, globals, ext)
    {
      var key := keys[i];
      var piece := "";
      if key in args {
        var field := args[key];
        if field.JStr? {
          piece := key + "=" + ext.render(ext.render(field.s, globals), globals) + ", ";
        } else if field.JBool? {
          piece := key + ", ";
        }
      }
      ArgsTextSnoc(keys, i, args, globals, ext);
      r := r + piece;
      i := i + 1;
    }
    assert keys[..i] == keys;
  }

  /** The text of the first i + 1 keys: that of the first i, then the (i+1)-th key's own. */
  lemma ArgsTextSnoc(keys: seq<string>, i: nat, args: map<string, Json>, globals: Json, ext: External)
    requires i < |keys|
    ensures ArgsText(keys[..i + 1], args, globals, ext)
      == ArgsText(keys[..i], args, globals, ext) + (if keys[i] in args then ArgText(keys[i], args[keys[i]], globals, ext) else "")
  {
    assert keys[..i + 1][..i] == keys[..i];
  }

  /**
   * The transforms after a successful plugin call: scale, if set, then
   * offset, if set; the code is that of the last one applied, or `err` when
   * neither is.
   */
  function Transforms(b: Block, scale: Option<real>, offset: Option<real>, err: int): (r: Outcome<(int, Block)>)
    ensures scale.None? && offset.None? ==> r == Done((err, b))
    ensures scale.Some? && offset.None? ==> r == TransformBlock(b, Scale(scale.value))
    ensures scale.None? && offset.Some? ==> r == TransformBlock(b, Offset(offset.value))
    ensures scale.Some? && offset.Some? ==>
      r == (if TransformBlock(b, Scale(scale.value)).Done?
            then TransformBlock(TransformBlock(b, Scale(scale.value)).value.1, Offset(offset.value))
            else TransformBlock(b, Scale(scale.value)))
  {
    var scaled := if scale.Some? then TransformBlock(b, Scale(scale.value)) else Done((err, b));
    if scaled.Failed() then scaled
    else if offset.Some? then TransformBlock(scaled.value.1, Offset(offset.value))
    else scaled
  }

  /** PluginMapping::map (call_plugins). */
  function PluginMap(m: Mapping, a: MapArguments, ext: External, b: Block): (r: Outcome<(int, Block)>)
    requires m.PluginMapping?
    ensures var called := ext.callPlugin(RequestString(m.plugin, m.args, a.globals, ext), b);
      (called.0 != 0 ==> r == Done(called)) &&
      (called.0 == 0 && a.sigType == Time ==>
         (r.Done? <==> TimeArray(called.1).Done?) && (r.Done? ==> r.value == (0, TimeArray(called.1).value))) &&
      (called.0 == 0 && a.sigType != Time ==> r == Transforms(called.1, m.scale, m.offset, 0))
  {
    var request := RequestString(m.plugin, m.args, a.globals, ext);
    if request == [] then Done((1, b))
    else
      var called := ext.callPlugin(request, b);
      if called.0 != 0 then Done(called)
      else if a.sigType == Time then
        var t := TimeArray(called.1);
        if t.Failed() then t.Propagate() else Done((0, t.value))
      else Transforms(called.1, m.scale, m.offset, 0)
  }

  /**
   * With both SCALE and OFFSET set and a floating-point result from the
   * plugin, every element of the result is `x * scale + offset`.
   */
  lemma PluginScalesThenOffsets(m: Mapping, a: MapArguments, ext: External, b: Block)
    requires m.PluginMapping? && m.scale.Some? && m.offset.Some? && a.sigType != Time
    requires var called := ext.callPlugin(RequestString(m.plugin, m.args, a.globals, ext), b);
      called.0 == 0 && called.1.dataType in {TypeFloat, TypeDouble} && called.1.rank > 0 &&
      0 < called.1.dataN <= |called.1.data|
    ensures var called := ext.callPlugin(RequestString(m.plugin, m.args, a.globals, ext), b);
      var r := PluginMap(m, a, ext, b);
      r.Done? && r.value.0 == 0 && |r.value.1.data| == |called.1.data| &&
      forall i :: 0 <= i < called.1.dataN ==> r.value.1.data[i] == called.1.data[i] * m.scale.value + m.offset.value
  {
    var called := ext.callPlugin(RequestString(m.plugin, m.args, a.globals, ext), b);
    ScaleThenOffset(called.1, m.scale.value, m.offset.value);
    TransformSpanElements(called.1, Scale(m.scale.value));
    TransformSpanElements(TransformBlock(called.1, Scale(m.scale.value)).value.1, Offset(m.offset.value));
  }

  // ---------------------------------------------------------------- SLICE

  /** The slice (start, rows, stride) lies inside a buffer of n elements. */
  predicate SliceInside(start: int, rows: nat, stride: nat, n: nat) {
    rows == 0 || (0 <= start && start + (rows - 1) * stride < n)
  }

  /**
   * get_slice2D: `rows` elements of `orig`, from `start` in steps of
   * `stride`; element j is `orig[start + j * stride]`, which lies inside the
   * buffer whenever the slice does.
   */
  function GetSlice2D(orig: seq<real>, start: int, rows: nat, stride: nat): (r: seq<real>)
    requires SliceInside(start, rows, stride, |orig|)
    ensures |r| == rows
    ensures forall j :: 0 <= j < rows ==> 0 <= start + j * stride < |orig| && r[j] == orig[start + j * stride]
  {
    SliceIndicesInside(start, rows, stride, |orig|);
    seq(rows, j requires 0 <= j < rows => orig[start + j * stride])
  }

  lemma SliceIndicesInside(start: int, rows: nat, stride: nat, n: nat)
    requires SliceInside(start, rows, stride, n)
    ensures forall j :: 0 <= j < rows ==> 0 <= start + j * stride < n
  {
    forall j | 0 <= j < rows
      ensures 0 <= start + j * stride < n
    {
      MulMono(j, rows - 1, stride);
    }
  }

  /** What std::stoi makes of each slice index once it is rendered against the globals. */
  function IndexParses(indices: seq<string>, globals: Json, ext: External): (ps: seq<IntParse>)
    ensures |ps| == |indices|
    ensures forall i :: 0 <= i < |indices| ==> ps[i] == Stoi(ext.render(indices[i], globals))
  {
    seq(|indices|, i requires 0 <= i < |indices| => Stoi(ext.render(indices[i], globals)))
  }

  /** The converted indices, in order; the first index that does not convert throws. */
  function Converted(ps: seq<IntParse>): (r: Outcome<seq<int>>)
    ensures !r.Undefined?
    ensures r.Done? <==> forall i :: 0 <= i < |ps| ==> ps[i].Parsed?
    ensures r.Done? ==> |r.value| == |ps|
    ensures r.Done? ==> forall i :: 0 <= i < |ps| ==> r.value[i] == ps[i].value
  {
    if ps == [] then Done([])
    else
      var init := Converted(ps[..|ps| - 1]);
      var last := ps[|ps| - 1];
      if init.Failed() then init
      else if last.InvalidArgument? then Threw("std::invalid_argument from std::stoi")
      else if last.OutOfRange? then Threw(StoiOutOfRange)
      else Done(init.value + [last.value])
  }

  /** The slice indices rendered against the globals and read by std::stoi. */
  function SliceIndices(indices: seq<string>, globals: Json, ext: External): (r: Outcome<seq<int>>)
    ensures !r.Undefined?
    ensures r.Done? <==> forall i :: 0 <= i < |indices| ==> Stoi(ext.render(indices[i], globals)).Parsed?
    ensures r.Done? ==> |r.value| == |indices|
    ensures r.Done? ==> forall i :: 0 <= i < |indices| ==> r.value[i] == Stoi(ext.render(indices[i], globals)).value
  {
    Converted(IndexParses(indices, globals, ext))
  }

  /** The data read as floats: a float buffer as it is, any other through the reinterpretation. */
  function FloatView(b: Block, ext: External): seq<real> {
    if b.dataType == TypeFloat then b.data else ext.floatsOf(b)
  }

  /** The number of rows map_slice takes: data_n / dims[0].dim_n. */
  function Rows(b: Block): nat
    requires |b.dims| > 0 && b.dims[0].dimN > 0
  {
    b.dataN / b.dims[0].dimN
  }

  /**
   * The rank-2 part of map_slice: the `data_n` elements read as floats, the
   * column at `start` taken with get_slice2D, and the result set as a rank-1
   * float vector. Reading past the buffer or the valarray is undefined.
   */
  function SliceColumn(b: Block, start: int, ext: External): (r: Outcome<Block>)
    requires |b.dims| > 0 && b.dims[0].dimN > 0
    ensures r.Done? <==> b.dataN <= |FloatView(b, ext)| && SliceInside(start, Rows(b), b.dims[0].dimN, b.dataN)
    ensures !r.Threw?
    ensures r.Done? ==>
      r.value == VectorBlock(CFloat, GetSlice2D(FloatView(b, ext)[..b.dataN], start, Rows(b), b.dims[0].dimN), None).value
  {
    var view := FloatView(b, ext);
    if b.dataN > |view| then Undefined("valarray read past the end of the buffer")
    else if !SliceInside(start, Rows(b), b.dims[0].dimN, b.dataN) then Undefined("slice outside the valarray")
    else Done(VectorBlock(CFloat, GetSlice2D(view[..b.dataN], start, Rows(b), b.dims[0].dimN), None).value)
  }

  /**
   * map_slice. The row count is read before the rank is looked at (a block
   * with no dims or an empty first dim is undefined there), and so are the
   * indices converted. Only a rank-2 block is sliced, at the first index;
   * any other rank gives 1.
   */
  function MapSlice(indices: seq<string>, globals: Json, ext: External, b: Block): (r: Outcome<(int, Block)>)
    ensures r.Done? ==> |b.dims| > 0 && b.dims[0].dimN > 0 && SliceIndices(indices, globals, ext).Done?
    ensures r.Done? && b.rank != 2 ==> r.value == (1, b)
    ensures r.Done? && b.rank == 2 ==>
      |indices| > 0 &&
      SliceColumn(b, SliceIndices(indices, globals, ext).value[0], ext).Done? &&
      r.value == (0, SliceColumn(b, SliceIndices(indices, globals, ext).value[0], ext).value)
  {
    if |b.dims| == 0 then Undefined("dims is a null pointer")
    else if b.dims[0].dimN == 0 then Undefined("integer division by zero")
    else
      var idx := SliceIndices(indices, globals, ext);
      if idx.Failed() then idx.Propagate()
      else if b.rank != 2 then Done((1, b))
      else if |idx.value| == 0 then Threw("std::out_of_range from vector::at")
      else
        var column := SliceColumn(b, idx.value[0], ext);
        if column.Failed() then column.Propagate() else Done((0, column.value))
  }

  /** A rank-2 slice is a rank-1 float vector of data_n / dims[0].dim_n elements, with code 0. */
  lemma SliceShape(indices: seq<string>, globals: Json, ext: External, b: Block)
    requires b.rank == 2 && MapSlice(indices, globals, ext, b).Done?
    ensures |b.dims| > 0 && b.dims[0].dimN > 0
    ensures var r := MapSlice(indices, globals, ext, b).value;
      r.0 == 0 && r.1.rank == 1 && r.1.dataType == TypeFloat &&
      |r.1.data| == r.1.dataN == b.dataN / b.dims[0].dimN
  {
    var column := SliceColumn(b, SliceIndices(indices, globals, ext).value[0], ext);
    assert column.Done?;
  }

  /** Element j of a sliced column is the float at `start + j * dims[0].dim_n`, inside the data. */
  lemma ColumnElements(b: Block, start: int, ext: External)
    requires |b.dims| > 0 && b.dims[0].dimN > 0 && SliceColumn(b, start, ext).Done?
    ensures var c := SliceColumn(b, start, ext).value;
      forall j :: 0 <= j < |c.data| ==>
        0 <= start + j * b.dims[0].dimN < b.dataN <= |FloatView(b, ext)| &&
        c.data[j] == FloatView(b, ext)[start + j * b.dims[0].dimN]
  {
  }

  /**
   * Element j of a rank-2 slice is the float at `start + j * dims[0].dim_n`,
   * `start` being the first index, and that position lies inside the data.
   */
  lemma SliceElements(indices: seq<string>, globals: Json, ext: External, b: Block)
    requires b.rank == 2 && MapSlice(indices, globals, ext, b).Done?
    ensures |b.dims| > 0 && |indices| > 0 && Stoi(ext.render(indices[0], globals)).Parsed?
    ensures var r := MapSlice(indices, globals, ext, b).value.1;
      var start := Stoi(ext.render(indices[0], globals)).value;
      forall j :: 0 <= j < |r.data| ==>
        0 <= start + j * b.dims[0].dimN < b.dataN <= |FloatView(b, ext)| &&
        r.data[j] == FloatView(b, ext)[start + j * b.dims[0].dimN]
  {
    var start := SliceIndices(indices, globals, ext).value[0];
    assert start == Stoi(ext.render(indices[0], globals)).value;
    ColumnElements(b, start, ext);
  }

  // --------------------------------------------------------------- CUSTOM

  /** CustomMapping::map and its two hello-world routines. */
  function CustomMap(kind: CustomKind, ext: External, b: Block): (r: (int, Block))
    ensures kind == MastuHelloWorld ==> r == ext.setString(b, "Hello World from MASTU")
    ensures kind == DraftHelloWorld ==> r == ext.setString(b, "Hello World from DRAFT")
    ensures kind == InvalidKind ==> r == (1, b)
  {
    match kind
    case MastuHelloWorld => ext.setString(b, "Hello World from MASTU")
    case DraftHelloWorld => ext.setString(b, "Hello World from DRAFT")
    case InvalidKind => (1, b)
  }

  /** A CUSTOM_TYPE that is not one of the two names does nothing and returns 1. */
  lemma UnknownCustomTypeReturnsOne(j: Json, ext: External, b: Block)
    requires j != JStr("MASTU_helloworld") && j != JStr("DRAFT_helloworld")
    ensures CustomMap(CustomKindOf(j), ext, b) == (1, b)
  {
  }

  // ----------------------------------------------------------- DISPATCHER

  /**
   * Mapping::map for every variant. DIMENSION and SLICE evaluate another
   * mapping of the same IDS; `fuel` bounds that nesting, and running out of it
   * stands for the unbounded recursion of a mapping that refers to itself.
   */
  function Map(m: Mapping, a: MapArguments, ext: External, b: Block, fuel: nat): Outcome<(int, Block)>
    decreases fuel, 1
  {
    match m
    case ValueMapping(v) => ValueMap(v, a.globals, ext, b)
    case PluginMapping(_, _, _, _, _, _) => PluginMap(m, a, ext, b)
    case DimMapping(probe) => DimMap(probe, a, ext, b, fuel)
    case SliceMapping(indices, key) => SliceMap(indices, key, a, ext, b, fuel)
    case ExprMapping(expr, parameters) => ext.evalExpr(expr, parameters, a.globals, b)
    case CustomMapping(kind) => Done(CustomMap(kind, ext, b))
  }

  /**
   * DimMapping::map: the probe is evaluated with the signal type DIM; on
   * success its data is dropped and its element count becomes an int scalar,
   * a count of 0 giving 1.
   */
  function DimMap(probe: string, a: MapArguments, ext: External, b: Block, fuel: nat): (r: Outcome<(int, Block)>)
    decreases fuel, 0
  {
    if probe !in a.entries then Done((1, b))
    else if fuel == 0 then Undefined("stack overflow: the mapping refers to itself")
    else
      var probed := Map(a.entries[probe], a.(sigType := DimSignal), ext, b, fuel - 1);
      if probed.Failed() then probed
      else
        var (err, pb) := probed.value;
        if err != 0 then probed
        else if pb.dataN == 0 then Done((1, pb.(data := [])))
        else Done((0, ext.setIntScalar(pb.(data := []), pb.dataN).1))
  }

  /** SliceMapping::map: the wrapped mapping, then map_slice if it returned 0. */
  function SliceMap(indices: seq<string>, key: string, a: MapArguments, ext: External, b: Block, fuel: nat)
    : (r: Outcome<(int, Block)>)
    decreases fuel, 0
  {
    if key !in a.entries then Threw("std::out_of_range from unordered_map::at")
    else if fuel == 0 then Undefined("stack overflow: the mapping refers to itself")
    else
      SliceAfter(Map(a.entries[key], a, ext, b, fuel - 1), indices, a.globals, ext)
  }

  /** What SliceMapping::map makes of the wrapped mapping's outcome. */
  function SliceAfter(inner: Outcome<(int, Block)>, indices: seq<string>, globals: Json, ext: External)
    : Outcome<(int, Block)>
  {
    if inner.Failed() || inner.value.0 != 0 then inner
    else MapSlice(indices, globals, ext, inner.value.1)
  }

  /** A DIMENSION mapping whose probe is not registered returns 1 and evaluates nothing. */
  lemma DimProbeAbsent(probe: string, a: MapArguments, ext: External, b: Block, fuel: nat)
    requires probe !in a.entries
    ensures Map(DimMapping(probe), a, ext, b, fuel) == Done((1, b))
  {
  }

  /**
   * A DIMENSION mapping evaluates its probe with the signal type DIM and the
   * caller's other arguments; a non-zero probe code comes back as it is, and
   * a successful probe of n > 0 elements gives the int scalar n with code 0.
   */
  lemma DimProbeResult(probe: string, a: MapArguments, ext: External, b: Block, fuel: nat)
    requires probe in a.entries && fuel > 0
    requires Map(a.entries[probe], a.(sigType := DimSignal), ext, b, fuel - 1).Done?
    ensures var p := Map(a.entries[probe], a.(sigType := DimSignal), ext, b, fuel - 1).value;
      var r := Map(DimMapping(probe), a, ext, b, fuel);
      r.Done? &&
      (p.0 != 0 ==> r.value == p) &&
      (p.0 == 0 && p.1.dataN == 0 ==> r.value == (1, p.1.(data := []))) &&
      (p.0 == 0 && p.1.dataN > 0 ==> r.value == (0, ext.setIntScalar(p.1.(data := []), p.1.dataN).1))
  {
  }

  /** A SLICE mapping whose wrapped mapping fails passes the code on and slices nothing. */
  lemma SliceInnerCodePassedOn(indices: seq<string>, key: string, a: MapArguments, ext: External, b: Block, fuel: nat)
    requires key in a.entries && fuel > 0
    requires Map(a.entries[key], a, ext, b, fuel - 1).Done? && Map(a.entries[key], a, ext, b, fuel - 1).value.0 != 0
    ensures Map(SliceMapping(indices, key), a, ext, b, fuel) == Map(a.entries[key], a, ext, b, fuel - 1)
  {
  }

  /**
   * More fuel changes nothing once a mapping has been evaluated: the fuel
   * only cuts off chains that never end.
   */
  lemma {:induction false} MapFuelMonotone(m: Mapping, a: MapArguments, ext: External, b: Block, fuel: nat)
    requires Map(m, a, ext, b, fuel).Done?
    ensures Map(m, a, ext, b, fuel + 1) == Map(m, a, ext, b, fuel)
    decreases fuel, 1
  {
    match m
    case DimMapping(probe) => DimFuelMonotone(probe, a, ext, b, fuel);
    case SliceMapping(indices, key) => SliceFuelMonotone(indices, key, a, ext, b, fuel);
    case _ =>
  }

  lemma {:induction false} DimFuelMonotone(probe: string, a: MapArguments, ext: External, b: Block, fuel: nat)
    requires DimMap(probe, a, ext, b, fuel).Done?
    ensures DimMap(probe, a, ext, b, fuel + 1) == DimMap(probe, a, ext, b, fuel)
    decreases fuel, 0
  {
    if probe in a.entries {
      MapFuelMonotone(a.entries[probe], a.(sigType := DimSignal), ext, b, fuel - 1);
    }
  }

  lemma {:induction false} SliceFuelMonotone(indices: seq<string>, key: string, a: MapArguments, ext: External, b: Block, fuel: nat)
    requires SliceMap(indices, key, a, ext, b, fuel).Done?
    ensures SliceMap(indices, key, a, ext, b, fuel + 1) == SliceMap(indices, key, a, ext, b, fuel)
    decreases fuel, 0
  {
    var inner := Map(a.entries[key], a, ext, b, fuel - 1);
    assert SliceMap(indices, key, a, ext, b, fuel) == SliceAfter(inner, indices, a.globals, ext);
    SliceAfterDone(inner, indices, a.globals, ext);
    MapFuelMonotone(a.entries[key], a, ext, b, fuel - 1);
  }

  /** The slice completes only after the wrapped mapping does. */
  lemma SliceAfterDone(inner: Outcome<(int, Block)>, indices: seq<string>, globals: Json, ext: External)
    requires SliceAfter(inner, indices, globals, ext).Done?
    ensures inner.Done?
  {
  }
}
