/**
 * The character-string operations the plugin takes from the C and C++
 * libraries and from boost: number parsing (std::stoi, std::strtol),
 * std::to_string, boost::split / join / replace_last_copy / to_upper /
 * to_lower and std::string::find. Characters are ASCII.
 */
module CText {

  const IntMin: int := -0x8000_0000
  const IntMax: int := 0x7fff_ffff
  const LongMin: int := -0x8000_0000_0000_0000
  const LongMax: int := 0x7fff_ffff_ffff_ffff

  predicate IsDigit(c: char) { '0' <= c <= '9' }

  /** isspace in the C locale. */
  predicate IsSpace(c: char) { c in {' ', '\t', '\n', '\r', '\U{000b}', '\U{000c}'} }

  predicate AllDigits(s: string) { forall i :: 0 <= i < |s| ==> IsDigit(s[i]) }

  function DigitValue(c: char): nat
    requires IsDigit(c)
  {
    (c as int) - ('0' as int)
  }

  /** The decimal value of a string of digits. */
  function DigitsValue(d: string): nat
    requires AllDigits(d)
  {
    if d == [] then 0 else DigitsValue(d[..|d| - 1]) * 10 + DigitValue(d[|d| - 1])
  }

  /** The input without its leading white space. */
  function SkipSpaces(s: string): (r: string)
    ensures |r| <= |s| && r == s[|s| - |r|..]
    ensures r == [] || !IsSpace(r[0])
  {
    if s != [] && IsSpace(s[0]) then SkipSpaces(s[1..]) else s
  }

  /** The longest prefix made of digits. */
  function DigitPrefix(s: string): (d: string)
    ensures |d| <= |s| && d == s[..|d|] && AllDigits(d)
    ensures |d| == |s| || !IsDigit(s[|d|])
  {
    if s != [] && IsDigit(s[0]) then [s[0]] + DigitPrefix(s[1..]) else []
  }

  /** What std::stoi does with a string: a value, or the exception it throws. */
  datatype IntParse = Parsed(value: int) | InvalidArgument | OutOfRange

  /** The number read by strtol, before any range check, if there is one. */
  datatype Scan = Scan(sign: int, digits: string, end: nat)

  /**
   * The part of a string strtol reads in base 10: white space, an optional
   * sign, then digits. `end` is where reading stops; with no digits nothing
   * is consumed and `end` is 0.
   */
  function ScanLong(s: string): (r: Scan)
    ensures r.end <= |s| && AllDigits(r.digits) && r.sign in {-1, 1}
    ensures r.digits == [] ==> r.end == 0
    ensures r.digits != [] ==> r.end == |s| || !IsDigit(s[r.end])
  {
    var t := SkipSpaces(s);
    var signed := t != [] && (t[0] == '-' || t[0] == '+');
    var u := if signed then t[1..] else t;
    var d := DigitPrefix(u);
    var sign := if t != [] && t[0] == '-' then -1 else 1;
    if d == [] then Scan(sign, d, 0)
    else Scan(sign, d, |s| - |u| + |d|)
  }

  /** std::stoi: the leading number of the string; trailing text is ignored. */
  function Stoi(s: string): (r: IntParse)
    ensures r.Parsed? ==> IntMin <= r.value <= IntMax
    ensures r == InvalidArgument <==> ScanLong(s).digits == []
  {
    var sc := ScanLong(s);
    if sc.digits == [] then InvalidArgument
    else
      var v := sc.sign * DigitsValue(sc.digits);
      if IntMin <= v <= IntMax then Parsed(v) else OutOfRange
  }

  /** What strtol(s, &end, 10) returns, and whether `*end == '\0'` afterwards. */
  datatype LongParse = LongParse(value: int, consumedAll: bool)

  /** strtol in base 10: the value is clamped to the range of long. */
  function Strtol(s: string): (r: LongParse)
    ensures LongMin <= r.value <= LongMax
    ensures r.consumedAll <==> ScanLong(s).end == |s|
  {
    var sc := ScanLong(s);
    var v := sc.sign * DigitsValue(sc.digits);
    var clamped := if v < LongMin then LongMin else if v > LongMax then LongMax else v;
    LongParse(clamped, sc.end == |s|)
  }

  function DigitChar(n: nat): (c: char)
    requires n < 10
    ensures IsDigit(c) && DigitValue(c) == n
  {
    ('0' as int + n) as char
  }

  /** std::to_string of a non-negative number. */
  function NatToString(n: nat): (s: string)
    ensures s != [] && AllDigits(s)
  {
    if n < 10 then [DigitChar(n)] else NatToString(n / 10) + [DigitChar(n % 10)]
  }

  /** Printing then reading a number gives it back. */
  lemma {:induction false} DigitsValueOfNatToString(n: nat)
    ensures DigitsValue(NatToString(n)) == n
  {
    if n >= 10 {
      var s := NatToString(n);
      assert s[..|s| - 1] == NatToString(n / 10);
      DigitsValueOfNatToString(n / 10);
    }
  }

  lemma {:induction false} DigitPrefixOfDigits(d: string, rest: string)
    requires AllDigits(d)
    requires rest == [] || !IsDigit(rest[0])
    ensures DigitPrefix(d + rest) == d
  {
    if d != [] {
      assert (d + rest)[1..] == d[1..] + rest;
      DigitPrefixOfDigits(d[1..], rest);
    }
  }

  /** A run of digits followed by a non-digit is read whole, as a positive number. */
  lemma ScanOfDigits(d: string, rest: string)
    requires d != [] && AllDigits(d)
    requires rest == [] || !IsDigit(rest[0])
    ensures ScanLong(d + rest) == Scan(1, d, |d|)
  {
    var s := d + rest;
    assert s[0] == d[0] && IsDigit(s[0]);
    assert !IsSpace(s[0]);
    assert SkipSpaces(s) == s;
    DigitPrefixOfDigits(d, rest);
  }

  /**
   * std::stoi reads a printed number back even when text that does not
   * start with a digit follows it: "a numeric prefix suffices".
   */
  lemma StoiReadsNumericPrefix(n: nat, rest: string)
    requires n <= IntMax
    requires rest == [] || !IsDigit(rest[0])
    ensures Stoi(NatToString(n) + rest) == Parsed(n)
  {
    ScanOfDigits(NatToString(n), rest);
    DigitsValueOfNatToString(n);
    StoiOfScan(NatToString(n) + rest);
  }

  /** A minus sign and a run of digits are read whole, as a negative number. */
  lemma ScanOfNegative(d: string)
    requires d != [] && AllDigits(d)
    ensures ScanLong("-" + d) == Scan(-1, d, |d| + 1)
  {
    var s := "-" + d;
    assert !IsSpace(s[0]);
    assert SkipSpaces(s) == s;
    assert s[1..] == d + [];
    DigitPrefixOfDigits(d, []);
  }

  /** std::stoi reads a printed negative number in the int range back. */
  lemma StoiReadsNegative(n: nat)
    requires 0 < n <= -IntMin
    ensures Stoi("-" + NatToString(n)) == Parsed(-(n as int))
  {
    ScanOfNegative(NatToString(n));
    DigitsValueOfNatToString(n);
  }

  /** Unsigned digits in range are read as their value. */
  lemma StoiOfScan(s: string)
    requires ScanLong(s).digits != [] && ScanLong(s).sign == 1 && DigitsValue(ScanLong(s).digits) <= IntMax
    ensures Stoi(s) == Parsed(DigitsValue(ScanLong(s).digits))
  {
  }

  /**
   * Text that starts with neither white space, a sign nor a digit holds no
   * number: std::stoi throws std::invalid_argument.
   */
  lemma StoiRejectsText(s: string)
    requires s == [] || (!IsDigit(s[0]) && !IsSpace(s[0]) && s[0] != '-' && s[0] != '+')
    ensures Stoi(s) == InvalidArgument
  {
    if s != [] {
      assert SkipSpaces(s) == s;
      assert DigitPrefix(s) == [];
    }
  }

  /** strtol consumes all of a printed number. */
  lemma StrtolReadsNatToString(n: nat)
    requires n <= LongMax
    ensures Strtol(NatToString(n)) == LongParse(n, true)
  {
    var s := NatToString(n);
    ScanOfDigits(s, []);
    assert s + [] == s;
    DigitsValueOfNatToString(n);
  }

  /** std::string::find(sub) != npos. */
  predicate Contains(s: string, sub: string) {
    exists i | 0 <= i <= |s| :: OccursAt(s, sub, i)
  }

  predicate OccursAt(s: string, sub: string, i: int) {
    0 <= i && i + |sub| <= |s| && s[i..i + |sub|] == sub
  }

  /** boost::algorithm::join(tokens, sep). */
  function Join(tokens: seq<string>, sep: string): string {
    if tokens == [] then ""
    else if |tokens| == 1 then tokens[0]
    else tokens[0] + sep + Join(tokens[1..], sep)
  }

  function IndexOf(s: string, c: char): (i: nat)
    ensures i <= |s|
    ensures i < |s| ==> s[i] == c
    ensures forall j :: 0 <= j < i ==> s[j] != c
  {
    if s == [] || s[0] == c then 0 else 1 + IndexOf(s[1..], c)
  }

  /**
   * boost::split(tokens, s, is_any_of([c])): every occurrence of `c` ends a
   * token, so there is always at least one token and empty tokens are kept.
   */
  function Split(s: string, c: char): (tokens: seq<string>)
    ensures |tokens| >= 1
    ensures forall k :: 0 <= k < |tokens| ==> c !in tokens[k]
    decreases |s|
  {
    var i := IndexOf(s, c);
    if i == |s| then
      assert c !in s;
      [s]
    else [s[..i]] + Split(s[i + 1..], c)
  }

  /** Splitting and joining again on the same character gives the input back. */
  lemma {:induction false} JoinSplit(s: string, c: char)
    ensures Join(Split(s, c), [c]) == s
    decreases |s|
  {
    var i := IndexOf(s, c);
    if i < |s| {
      JoinSplit(s[i + 1..], c);
      var rest := Split(s[i + 1..], c);
      assert Split(s, c) == [s[..i]] + rest;
      assert s == s[..i] + [c] + s[i + 1..];
    }
  }

  function LastIndexOf(s: string, c: char): (i: int)
    ensures -1 <= i < |s|
    ensures i >= 0 ==> s[i] == c
    ensures forall j :: i < j < |s| ==> s[j] != c
  {
    if s == [] then -1
    else if s[|s| - 1] == c then |s| - 1
    else LastIndexOf(s[..|s| - 1], c)
  }

  /** boost::replace_last_copy(s, [c], r): the last `c`, if any, becomes `r`. */
  function ReplaceLast(s: string, c: char, r: string): (t: string)
    ensures c !in s ==> t == s
    ensures c in s ==> exists i | 0 <= i < |s| ::
      s[i] == c && (forall j :: i < j < |s| ==> s[j] != c) && t == s[..i] + r + s[i + 1..]
  {
    var i := LastIndexOf(s, c);
    if i < 0 then s
    else s[..i] + r + s[i + 1..]
  }

  function UpperChar(c: char): char {
    if 'a' <= c <= 'z' then (c as int - 32) as char else c
  }

  function LowerChar(c: char): char {
    if 'A' <= c <= 'Z' then (c as int + 32) as char else c
  }

  /** boost::to_upper in the C locale. */
  function ToUpper(s: string): (t: string)
    ensures |t| == |s|
    ensures forall i :: 0 <= i < |s| ==> t[i] == UpperChar(s[i])
    ensures forall i :: 0 <= i < |t| ==> !('a' <= t[i] <= 'z')
  {
    seq(|s|, i requires 0 <= i < |s| => UpperChar(s[i]))
  }

  /** boost::to_lower in the C locale. */
  function ToLower(s: string): (t: string)
    ensures |t| == |s|
    ensures forall i :: 0 <= i < |s| ==> t[i] == LowerChar(s[i])
  {
    seq(|s|, i requires 0 <= i < |s| => LowerChar(s[i]))
  }

  /** Two names that differ at most in the case of their ASCII letters. */
  predicate SameIgnoringCase(a: string, b: string) {
    |a| == |b| && forall i :: 0 <= i < |a| ==> LowerChar(a[i]) == LowerChar(b[i])
  }

  /**
   * Lower-casing identifies exactly the names that differ only in case:
   * "JET", "Jet" and "jet" name one machine, "jet" and "jets" do not.
   */
  lemma {:induction false} ToLowerFoldsCase(a: string, b: string)
    ensures ToLower(a) == ToLower(b) <==> SameIgnoringCase(a, b)
  {
    if SameIgnoringCase(a, b) {
      assert forall i :: 0 <= i < |a| ==> ToLower(a)[i] == ToLower(b)[i];
    }
    if ToLower(a) == ToLower(b) {
      assert forall i :: 0 <= i < |a| ==> LowerChar(a[i]) == ToLower(b)[i];
    }
  }
}
