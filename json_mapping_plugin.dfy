/**
 * JSONMappingPlugin: the UDA plugin that answers a request for an IDS path
 * of a machine. The path is split on '/', every `[n]` index in it is replaced
 * by `[#]` and collected, and the generalised path is looked up among the
 * mappings of the IDS, with the fallbacks described at `FindMapping` and
 * `GenerateMapPath`. The request's name/value pairs are written into the
 * IDS's globals, and the mapping found fills the data block.
 *
 * UDA's request structures are values here: the name/value list is a
 * sequence of pairs, and the FIND_* lookups into it and the ABI information
 * functions (help, version, ...) are the fields of a `Host` value.
 */
module JsonMappingPlugins {
  import opened Wrappers
  import opened Json
  import CText
  import opened DataBlocks
  import opened Mappings
  import opened MappingHandlers

  // ------------------------------------------------------------ index extraction

  /** The start of a match of the regular expression `\[\d+\]`: '[', a run of digits, ']'. */
  predicate IndexAt(s: string) {
    |s| >= 3 && s[0] == '[' &&
    var d := CText.DigitPrefix(s[1..]);
    d != [] && 1 + |d| < |s| && s[1 + |d|] == ']'
  }

  /**
   * What the regular expression walk over one token gives: the token with
   * every match replaced by "[#]", the digits of each match and what std::stoi
   * reads from the text that follows the match's '[', left to right.
   */
  datatype Matched = Matched(processed: string, digits: seq<string>, parses: seq<CText.IntParse>)

  /** What std::stoi makes of a run of digits followed by a non-digit. */
  function DigitsParse(d: string): CText.IntParse
    requires CText.AllDigits(d)
  {
    if CText.DigitsValue(d) <= CText.IntMax then CText.Parsed(CText.DigitsValue(d)) else CText.OutOfRange
  }

  /** std::stoi from just after the '[' of a match reads the match's digits and stops at the ']'. */
  lemma MatchParse(s: string)
    requires IndexAt(s)
    ensures CText.Stoi(s[1..]) == DigitsParse(CText.DigitPrefix(s[1..]))
  {
    var d := CText.DigitPrefix(s[1..]);
    assert s[1..] == d + s[1 + |d|..];
    CText.ScanOfDigits(d, s[1 + |d|..]);
  }

  /** Each recorded match is a non-empty run of digits, paired with what std::stoi makes of it. */
  predicate WellParsed(m: Matched) {
    |m.digits| == |m.parses| &&
    forall i :: 0 <= i < |m.digits| ==>
      m.digits[i] != [] && CText.AllDigits(m.digits[i]) && m.parses[i] == DigitsParse(m.digits[i])
  }

  /** A match recorded in front of well-parsed ones keeps them well parsed. */
  lemma WellParsedCons(processed: string, d: string, rest: Matched)
    requires d != [] && CText.AllDigits(d) && WellParsed(rest)
    ensures WellParsed(Matched(processed, [d] + rest.digits, [DigitsParse(d)] + rest.parses))
  {
    var m := Matched(processed, [d] + rest.digits, [DigitsParse(d)] + rest.parses);
    forall i | 1 <= i < |m.digits|
      ensures m.digits[i] == rest.digits[i - 1] && m.parses[i] == rest.parses[i - 1]
    {
    }
  }

  /**
   * The search for `\[\d+\]` from the left: a match is replaced and skipped
   * whole, any other character is kept. std::stoi reads the rest of the token
   * from after the '[' and stops at the ']', so an index within int's range
   * reads as its digits and a larger one throws out_of_range.
   */
  function Scanned(s: string): (r: Matched)
    ensures WellParsed(r)
    ensures '[' !in s ==> r.processed == s && r.digits == []
    decreases |s|
  {
    if s == [] then Matched([], [], [])
    else if IndexAt(s) then
      var d := CText.DigitPrefix(s[1..]);
      var rest := Scanned(s[|d| + 2..]);
      MatchParse(s);
      WellParsedCons("[#]" + rest.processed, d, rest);
      Matched("[#]" + rest.processed, [d] + rest.digits, [CText.Stoi(s[1..])] + rest.parses)
    else
      var rest := Scanned(s[1..]);
      assert '[' !in s ==> s == [s[0]] + s[1..];
      Matched([s[0]] + rest.processed, rest.digits, rest.parses)
  }

  /** The token as regex_replace leaves it. */
  function Processed(s: string): string {
    Scanned(s).processed
  }

  /** Every token as regex_replace leaves it. */
  function ProcessedAll(tokens: seq<string>): (r: seq<string>)
    ensures |r| == |tokens| && forall k :: 0 <= k < |tokens| ==> r[k] == Processed(tokens[k])
  {
    if tokens == [] then [] else ProcessedAll(tokens[..|tokens| - 1]) + [Processed(tokens[|tokens| - 1])]
  }

  /** What std::stoi reads for each index of every token, tokens in order. */
  function AllParses(tokens: seq<string>): seq<CText.IntParse> {
    if tokens == [] then []
    else AllParses(tokens[..|tokens| - 1]) + Scanned(tokens[|tokens| - 1]).parses
  }

  /**
   * extract_indices: the indices of every token in order, and one processed
   * token per token; the first index beyond int's range throws.
   */
  function Extracted(tokens: seq<string>): (r: Outcome<(seq<int>, seq<string>)>)
    ensures r.Failed() ==> r == Threw(StoiOutOfRange)
    ensures r.Done? ==> forall i :: 0 <= i < |AllParses(tokens)| ==> AllParses(tokens)[i].Parsed?
    ensures (forall i :: 0 <= i < |AllParses(tokens)| ==> AllParses(tokens)[i].Parsed?) ==> r.Done?
    ensures r.Done? ==> |r.value.1| == |tokens| && forall i :: 0 <= i < |tokens| ==> r.value.1[i] == Processed(tokens[i])
    ensures r.Done? ==> (|r.value.0| == |AllParses(tokens)| &&
                         forall i :: 0 <= i < |r.value.0| ==> r.value.0[i] == AllParses(tokens)[i].value)
  {
    var parses := AllParses(tokens);
    var indices := Converted(parses);
    if indices.Failed() then
      IndicesAreNeverInvalid(tokens);
      OnlyOutOfRangeThrows(parses);
      indices.Propagate()
    else Done((indices.value, ProcessedAll(tokens)))
  }

  /** A run of digits always gives std::stoi something to read. */
  lemma {:induction false} IndicesAreNeverInvalid(tokens: seq<string>)
    ensures forall i :: 0 <= i < |AllParses(tokens)| ==> !AllParses(tokens)[i].InvalidArgument?
  {
    if tokens != [] {
      IndicesAreNeverInvalid(tokens[..|tokens| - 1]);
    }
  }

  /** Where no parse is an invalid argument, the conversion can only fail on an out-of-range one. */
  lemma {:induction false} OnlyOutOfRangeThrows(ps: seq<CText.IntParse>)
    requires forall i :: 0 <= i < |ps| ==> !ps[i].InvalidArgument?
    ensures Converted(ps).Failed() ==> Converted(ps) == Threw(StoiOutOfRange)
  {
    if ps != [] {
      OnlyOutOfRangeThrows(ps[..|ps| - 1]);
    }
  }

  /** The loops of extract_indices: over the tokens, and within a token over its matches. */
  method ExtractIndices(tokens: seq<string>) returns (r: Outcome<(seq<int>, seq<string>)>)
    ensures r == Extracted(tokens)
  {
    var indices: seq<int> := [];
    var processed: seq<string> := [];
    for i := 0 to |tokens|
      invariant Converted(AllParses(tokens[..i])) == Done(indices)
      invariant processed == ProcessedAll(tokens[..i])
    {
      var parses := Scanned(tokens[i]).parses;
      var read := ReadIndices(parses, AllParses(tokens[..i]), indices);
      if read.None? {
        var j :| 0 <= j < |parses| && !parses[j].Parsed?;
        UnreadIndexThrows(tokens, i, j);
        return Threw(StoiOutOfRange);
      }
      indices := read.value;
      AllParsesSnoc(tokens, i);
      processed := processed + [Processed(tokens[i])];
    }
    assert tokens[..|tokens|] == tokens;
    return Done((indices, processed));
  }

  /**
   * The inner loop of extract_indices: the indices of one token appended in
   * order, or nothing once std::stoi throws on one of them.
   */
  method ReadIndices(parses: seq<CText.IntParse>, ghost before: seq<CText.IntParse>, indices: seq<int>)
    returns (r: Option<seq<int>>)
    requires Converted(before) == Done(indices)
    ensures r.Some? ==> Converted(before + parses) == Done(r.value)
    ensures r.None? ==> exists j :: 0 <= j < |parses| && !parses[j].Parsed?
  {
    var read := indices;
    assert before + parses[..0] == before;
    for j := 0 to |parses|
      invariant Converted(before + parses[..j]) == Done(read)
    {
      if !parses[j].Parsed? {
        return None;
      }
      ConvertedNext(before, parses, j);
      read := read + [parses[j].value];
    }
    assert parses[..|parses|] == parses;
    return Some(read);
  }

  /** The inner loop's step: the parses up to j + 1 convert to those up to j and one more index. */
  lemma ConvertedNext(before: seq<CText.IntParse>, parses: seq<CText.IntParse>, j: nat)
    requires j < |parses| && Converted(before + parses[..j]).Done? && parses[j].Parsed?
    ensures Converted(before + parses[..j + 1]) == Done(Converted(before + parses[..j]).value + [parses[j].value])
  {
    assert before + parses[..j + 1] == (before + parses[..j]) + [parses[j]];
    ConvertedSnoc(before + parses[..j], parses[j]);
  }

  /** One more parse that reads converts to one more index. */
  lemma ConvertedSnoc(ps: seq<CText.IntParse>, p: CText.IntParse)
    requires Converted(ps).Done? && p.Parsed?
    ensures Converted(ps + [p]) == Done(Converted(ps).value + [p.value])
  {
    assert (ps + [p])[..|ps|] == ps;
  }

  /** The parses and the processed form of one more token follow those of the tokens before it. */
  lemma AllParsesSnoc(tokens: seq<string>, i: nat)
    requires i < |tokens|
    ensures AllParses(tokens[..i + 1]) == AllParses(tokens[..i]) + Scanned(tokens[i]).parses
    ensures ProcessedAll(tokens[..i + 1]) == ProcessedAll(tokens[..i]) + [Processed(tokens[i])]
  {
    assert tokens[..i + 1][..i] == tokens[..i];
  }

  /** An index of some token that std::stoi cannot read makes the whole extraction throw. */
  lemma UnreadIndexThrows(tokens: seq<string>, i: nat, j: nat)
    requires i < |tokens| && j < |Scanned(tokens[i]).parses|
    requires !Scanned(tokens[i]).parses[j].Parsed?
    ensures Extracted(tokens).Failed()
  {
    UnreadParseAt(tokens, i, j);
  }

  /** Where that unread index sits among the parses of all the tokens. */
  lemma UnreadParseAt(tokens: seq<string>, i: nat, j: nat)
    requires i < |tokens| && j < |Scanned(tokens[i]).parses|
    requires !Scanned(tokens[i]).parses[j].Parsed?
    ensures |AllParses(tokens[..i])| + j < |AllParses(tokens)|
    ensures !AllParses(tokens)[|AllParses(tokens[..i])| + j].Parsed?
  {
    ParsesPrefix(tokens, i);
    PrefixAt(AllParses(tokens[..i]), Scanned(tokens[i]).parses, AllParses(tokens), j);
  }

  /** Element j of b sits at |a| + j in anything that a + b begins. */
  lemma PrefixAt<T>(a: seq<T>, b: seq<T>, c: seq<T>, j: nat)
    requires a + b <= c && j < |b|
    ensures |a| + j < |c| && c[|a| + j] == b[j]
  {
    assert (a + b)[|a| + j] == b[j];
  }

  /** The parses of the first tokens, then those of the next one, begin the parses of all of them. */
  lemma {:induction false} ParsesPrefix(tokens: seq<string>, i: nat)
    requires i < |tokens|
    ensures AllParses(tokens[..i]) + Scanned(tokens[i]).parses <= AllParses(tokens)
    decreases |tokens|
  {
    var front := tokens[..|tokens| - 1];
    if i < |tokens| - 1 {
      ParsesPrefix(front, i);
      assert front[..i] == tokens[..i] && front[i] == tokens[i];
    } else {
      assert front == tokens[..i];
    }
  }

  /**
   * The inverse of the replacement: every "[#]" gets back, in order, the
   * digits that were taken out of it.
   */
  function Restore(p: string, digits: seq<string>): (s: string)
    decreases |p|
  {
    if p == [] then []
    else if |p| >= 3 && p[..3] == "[#]" && digits != [] then "[" + digits[0] + "]" + Restore(p[3..], digits[1..])
    else [p[0]] + Restore(p[1..], digits)
  }

  /** A suffix of a string without "[#]" has none either. */
  lemma SuffixHasNoMarker(s: string, k: nat)
    requires k <= |s| && !CText.Contains(s, "[#]")
    ensures !CText.Contains(s[k..], "[#]")
  {
    if CText.Contains(s[k..], "[#]") {
      var j :| 0 <= j <= |s[k..]| && CText.OccursAt(s[k..], "[#]", j);
      assert s[k + j..k + j + 3] == s[k..][j..j + 3];
      assert CText.OccursAt(s, "[#]", k + j);
    }
  }

  /** A processed token that does not begin with '[' begins with the token's own first character. */
  lemma FirstCharKept(t: string)
    requires Processed(t) != [] && Processed(t)[0] != '['
    ensures t != [] && !IndexAt(t) && t[0] == Processed(t)[0] && Processed(t)[1..] == Processed(t[1..])
  {
  }

  /** A processed token can start with "#]" only where the token itself does. */
  lemma HashBracketKept(t: string)
    requires |Processed(t)| >= 2 && Processed(t)[..2] == "#]"
    ensures |t| >= 2 && t[..2] == "#]"
  {
    FirstCharKept(t);
    FirstCharKept(t[1..]);
  }

  /** Where a token does not start with an index, its first character is kept. */
  lemma KeptHead(s: string)
    requires s != [] && !IndexAt(s)
    ensures Processed(s) == [s[0]] + Processed(s[1..])
  {
  }

  /** A processed token that starts with "[#]" where the token has no index there comes from a literal "[#]". */
  lemma MarkerKept(s: string)
    requires s != [] && !IndexAt(s)
    requires |Processed(s)| >= 3 && Processed(s)[..3] == "[#]"
    ensures CText.OccursAt(s, "[#]", 0)
  {
    var p := Processed(s);
    KeptHead(s);
    var q := Processed(s[1..]);
    assert q[..2] == p[1..3];
    HashBracketKept(s[1..]);
    assert s[..3] == "[#]";
  }

  /** A token without "[#]" that does not start with an index gives a processed token not starting with "[#]". */
  lemma NoMarkerHead(s: string)
    requires s != [] && !IndexAt(s) && !CText.Contains(s, "[#]")
    ensures !(|Processed(s)| >= 3 && Processed(s)[..3] == "[#]")
  {
    if |Processed(s)| >= 3 && Processed(s)[..3] == "[#]" {
      MarkerKept(s);
    }
  }

  /** Where a token starts with an index, the processed token starts with "[#]" and its first digits are the index's. */
  lemma IndexHead(s: string)
    requires IndexAt(s)
    ensures var d := CText.DigitPrefix(s[1..]);
      s == "[" + d + "]" + s[|d| + 2..] &&
      Processed(s) == "[#]" + Processed(s[|d| + 2..]) &&
      Scanned(s).digits == [d] + Scanned(s[|d| + 2..]).digits
  {
    var d := CText.DigitPrefix(s[1..]);
    assert s == "[" + d + "]" + s[|d| + 2..] by {
      assert s[1..|d| + 1] == s[1..][..|d|] == d;
      assert s == [s[0]] + s[1..|d| + 1] + [s[|d| + 1]] + s[|d| + 2..];
    }
  }

  /**
   * Putting the collected digits back into the processed token gives the
   * token again, when the token held no literal "[#]" of its own.
   */
  lemma {:induction false} RestoreProcessed(s: string)
    requires !CText.Contains(s, "[#]")
    ensures Restore(Processed(s), Scanned(s).digits) == s
    decreases |s|
  {
    if s != [] {
      if IndexAt(s) {
        var d := CText.DigitPrefix(s[1..]);
        IndexHead(s);
        SuffixHasNoMarker(s, |d| + 2);
        RestoreProcessed(s[|d| + 2..]);
        assert ("[#]" + Processed(s[|d| + 2..]))[3..] == Processed(s[|d| + 2..]);
      } else {
        KeptHead(s);
        NoMarkerHead(s);
        SuffixHasNoMarker(s, 1);
        RestoreProcessed(s[1..]);
      }
    }
  }

  // ------------------------------------------------------------ signal type

  /**
   * deduce_signal_type: the empty token is INVALID, "data" and "time" are
   * DATA and TIME, any other token holding "error" is ERROR, and the rest is
   * DEFAULT.
   */
  function SignalTypeOf(e: string): (t: SignalType)
    ensures t == Invalid <==> e == []
    ensures t == Data <==> e == "data"
    ensures t == Time <==> e == "time"
    ensures t == Error <==> e != [] && e != "data" && e != "time" && CText.Contains(e, "error")
    ensures t == Default <==> e != [] && e != "data" && e != "time" && !CText.Contains(e, "error")
  {
    if e == [] then Invalid
    else if e == "data" then Data
    else if e == "time" then Time
    else if CText.Contains(e, "error") then Error
    else Default
  }

  // ------------------------------------------------------------ map path

  /** std::to_string of an int. */
  function IntToString(i: int): string {
    if i < 0 then "-" + CText.NatToString(-i) else CText.NatToString(i)
  }
  /**
   * The last index, printed by std::to_string, reads back through std::stoi
   * as the same index: the path it is substituted into names that index.
   */
  lemma IntToStringReadsBack(i: int)
    requires CText.IntMin <= i <= CText.IntMax
    ensures CText.Stoi(IntToString(i)) == CText.Parsed(i)
  {
    if i >= 0 {
      assert IntToString(i) == CText.NatToString(i) + [];
      CText.StoiReadsNumericPrefix(i, []);
    } else {
      CText.StoiReadsNegative(-i);
    }
  }


  /**
   * The keys find_mapping tries, in order: the generalised path, the path as
   * requested, and, when there are indices, the generalised path with its
   * last '#' replaced by the last index.
   */
  function Candidates(path: string, indices: seq<int>, fullPath: string): (c: seq<string>)
    ensures 2 <= |c| <= 3 && c[0] == path && c[1] == fullPath
    ensures |c| == 3 <==> indices != []
  {
    [path, fullPath] +
    if indices == [] then [] else [CText.ReplaceLast(path, '#', IntToString(indices[|indices| - 1]))]
  }

  /** find_mapping: the first candidate that is a key, or "" when there is none. */
  function FindMapping(keys: set<string>, path: string, indices: seq<int>, fullPath: string): (r: string)
    ensures var c := Candidates(path, indices, fullPath);
      forall i :: 0 <= i < |c| && c[i] in keys && (forall j :: 0 <= j < i ==> c[j] !in keys) ==> r == c[i]
    ensures var c := Candidates(path, indices, fullPath);
      (forall i :: 0 <= i < |c| ==> c[i] !in keys) ==> r == []
    ensures r == [] || r in keys
  {
    var c := Candidates(path, indices, fullPath);
    assert c[0] == path && c[1] == fullPath;
    if path in keys then path
    else if fullPath in keys then fullPath
    else if indices == [] then []
    else
      var replaced := CText.ReplaceLast(path, '#', IntToString(indices[|indices| - 1]));
      assert c[2] == replaced;
      if replaced in keys then replaced else []
  }

  /**
   * generate_map_path: nothing for an empty last token; the tokens joined
   * with '/' when that is a key; otherwise find_mapping on the join, after the
   * last token is dropped when it asks for "data" or "time". The tokens are
   * returned as the call leaves them.
   */
  function GenerateMapPath(tokens: seq<string>, indices: seq<int>, keys: set<string>, fullPath: string)
    : (r: (string, seq<string>))
    requires tokens != []
    ensures r.0 == [] || r.0 in keys
    ensures SignalTypeOf(tokens[|tokens| - 1]) == Invalid ==> r == ([], tokens)
    ensures SignalTypeOf(tokens[|tokens| - 1]) != Invalid && CText.Join(tokens, "/") in keys ==>
      r == (CText.Join(tokens, "/"), tokens)
    ensures SignalTypeOf(tokens[|tokens| - 1]) in {Data, Time} && CText.Join(tokens, "/") !in keys ==>
      r.1 == tokens[..|tokens| - 1] && r.0 == FindMapping(keys, CText.Join(r.1, "/"), indices, fullPath)
    ensures SignalTypeOf(tokens[|tokens| - 1]) in {Default, Error} && CText.Join(tokens, "/") !in keys ==>
      r.1 == tokens && r.0 == FindMapping(keys, CText.Join(tokens, "/"), indices, fullPath)
  {
    var sigType := SignalTypeOf(tokens[|tokens| - 1]);
    if sigType == Invalid then ([], tokens)
    else
      var mapPath := CText.Join(tokens, "/");
      if mapPath in keys then (mapPath, tokens)
      else if sigType == Time || sigType == Data then
        var front := tokens[..|tokens| - 1];
        (FindMapping(keys, CText.Join(front, "/"), indices, fullPath), front)
      else (FindMapping(keys, mapPath, indices, fullPath), tokens)
  }

  // ------------------------------------------------------------ request attributes

  /** A request value as add_machine_specific_attributes stores it: a long when strtol reads all of it, else the text. */
  function AttrValue(v: string): (j: Json)
    ensures j.JInt? <==> CText.ScanLong(v).end == |v|
    ensures j.JInt? ==> j.i == CText.Strtol(v).value
    ensures j.JStr? ==> j.s == v
  {
    var parsed := CText.Strtol(v);
    if parsed.consumedAll then JInt(parsed.value) else JStr(v)
  }

  /** An empty value is the integer 0. */
  lemma EmptyValueIsZero()
    ensures AttrValue("") == JInt(0)
  {
    assert CText.SkipSpaces("") == "";
    assert CText.DigitPrefix("") == "";
  }

  /** A printed number is stored as that number. */
  lemma NumberValueIsInt(n: nat)
    requires n <= CText.LongMax
    ensures AttrValue(CText.NatToString(n)) == JInt(n)
  {
    CText.StrtolReadsNatToString(n);
  }

  /** A value starting with a letter is stored as text. */
  lemma WordValueIsText(v: string)
    requires v != [] && ('a' <= v[0] <= 'z' || 'A' <= v[0] <= 'Z')
    ensures AttrValue(v) == JStr(v)
  {
    assert CText.SkipSpaces(v) == v;
    assert CText.DigitPrefix(v) == [];
  }

  /** The names the request's pairs carry. */
  function Names(pairs: seq<(string, string)>): (names: set<string>)
    ensures forall i :: 0 <= i < |pairs| ==> pairs[i].0 in names
    ensures forall k :: k in names ==> exists i :: 0 <= i < |pairs| && pairs[i].0 == k
  {
    if pairs == [] then {} else Names(pairs[..|pairs| - 1]) + {pairs[|pairs| - 1].0}
  }

  /** The members after every pair in turn is assigned with `attributes[name] = value`. */
  function Attributed(fields: map<string, Json>, pairs: seq<(string, string)>): (r: map<string, Json>)
    ensures r.Keys == fields.Keys + Names(pairs)
    ensures forall k :: k in fields && k !in Names(pairs) ==> r[k] == fields[k]
  {
    if pairs == [] then fields
    else
      var last := pairs[|pairs| - 1];
      var front := Attributed(fields, pairs[..|pairs| - 1]);
      front[last.0 := AttrValue(last.1)]
  }

  /** One more pair is one more assignment. */
  lemma AttributedSnoc(fields: map<string, Json>, pairs: seq<(string, string)>, i: nat)
    requires i < |pairs|
    ensures Attributed(fields, pairs[..i + 1]) == Attributed(fields, pairs[..i])[pairs[i].0 := AttrValue(pairs[i].1)]
  {
    var p := pairs[..i + 1];
    assert p[..|p| - 1] == pairs[..i] && p[|p| - 1] == pairs[i];
  }

  /** When a name comes more than once, the last pair with it wins. */
  lemma {:induction false} LastPairWins(fields: map<string, Json>, pairs: seq<(string, string)>, j: nat)
    requires j < |pairs|
    requires forall i :: j < i < |pairs| ==> pairs[i].0 != pairs[j].0
    ensures pairs[j].0 in Attributed(fields, pairs)
    ensures Attributed(fields, pairs)[pairs[j].0] == AttrValue(pairs[j].1)
  {
    if j < |pairs| - 1 {
      var front := pairs[..|pairs| - 1];
      LastPairWins(fields, front, j);
    }
  }

  /** add_machine_specific_attributes: the pairs assigned into the members in order. */
  method AddMachineAttributes(fields: map<string, Json>, pairs: seq<(string, string)>) returns (r: map<string, Json>)
    ensures r == Attributed(fields, pairs)
  {
    r := fields;
    for i := 0 to |pairs|
      invariant r == Attributed(fields, pairs[..i])
    {
      AttributedSnoc(fields, pairs, i);
      var parsed := CText.Strtol(pairs[i].1);
      if parsed.consumedAll {
        r := r[pairs[i].0 := JInt(parsed.value)];
      } else {
        r := r[pairs[i].0 := JStr(pairs[i].1)];
      }
    }
    assert pairs[..|pairs|] == pairs;
  }

  // ------------------------------------------------------------ the request

  /**
   * The UDA code the plugin calls: FIND_STRING_VALUE and FIND_INT_VALUE on
   * the request's name/value list, and the ABI information functions (help,
   * version, builddate, defaultmethod, maxinterfaceversion), which fill the
   * data block and return a code.
   */
  datatype Host = Host(
    findString: (seq<(string, string)>, string) -> Option<string>,
    findInt: (seq<(string, string)>, string) -> Option<int>,
    about: (string, Block) -> (int, Block))

  /** The environment variables read during init: the mapping directory and the handler's cache settings. */
  datatype Environment =
    Environment(mappingDir: Option<string>, cacheSize: Option<string>, useCache: Option<string>, cacheLogging: Option<string>)

  /** What the plugin reads of a request: the function named, the housekeeping flag and the name/value pairs. */
  datatype Request = Request(functionName: string, housekeeping: bool, pairs: seq<(string, string)>)

  /**
   * What get asks for once the path is read: the lower-cased machine, the IDS
   * (the first token), the remaining processed tokens, the indices and the
   * path as requested.
   */
  datatype Target = Target(machine: string, ids: string, tokens: seq<string>, indices: seq<int>, path: string)

  /**
   * The first part of get: the required "mapping" and "path" values (either
   * missing raises the plugin error), the path split on '/' and its indices
   * extracted.
   */
  function TargetOf(pairs: seq<(string, string)>, host: Host): (r: Outcome<Option<Target>>)
    ensures !r.Undefined?
    ensures r == Done(None) <==> host.findString(pairs, "mapping").None? || host.findString(pairs, "path").None?
    ensures r.Failed() ==> Extracted(CText.Split(host.findString(pairs, "path").value, '/')).Failed()
    ensures r.Done? && r.value.Some? ==>
      (var path := host.findString(pairs, "path").value;
       var e := Extracted(CText.Split(path, '/'));
       var t := r.value.value;
       e.Done? && t.machine == CText.ToLower(host.findString(pairs, "mapping").value) &&
       [t.ids] + t.tokens == e.value.1 && t.indices == e.value.0 && t.path == path)
  {
    var mapping := host.findString(pairs, "mapping");
    var path := host.findString(pairs, "path");
    if mapping.None? || path.None? then Done(None)
    else
      var t := PathTarget(mapping.value, path.value);
      if t.Failed() then t.Propagate() else Done(Some(t.value))
  }

  /** The target of a request whose "mapping" and "path" are both given. */
  function PathTarget(mapping: string, path: string): (r: Outcome<Target>)
    ensures !r.Undefined?
    ensures r.Failed() <==> Extracted(CText.Split(path, '/')).Failed()
    ensures r.Done? ==>
      (var e := Extracted(CText.Split(path, '/'));
       e.Done? && r.value.machine == CText.ToLower(mapping) &&
       [r.value.ids] + r.value.tokens == e.value.1 && r.value.indices == e.value.0 && r.value.path == path)
  {
    var tokens := CText.Split(path, '/');
    var e := Extracted(tokens);
    if e.Failed() then e.Propagate()
    else
      var processed := e.value.1;
      assert |processed| == |tokens| >= 1;
      assert processed == [processed[0]] + processed[1..];
      Done(Target(CText.ToLower(mapping), processed[0], processed[1..], e.value.0, path))
  }

  /** The indices as the JSON array `attributes["indices"] = indices` stores. */
  function IndicesJson(indices: seq<int>): (j: Json)
    ensures j.JArr? && |j.elems| == |indices|
    ensures forall i :: 0 <= i < |indices| ==> j.elems[i] == JInt(indices[i])
  {
    JArr(seq(|indices|, i requires 0 <= i < |indices| => JInt(indices[i])))
  }

  /**
   * The rest of get, on the register as read_mappings leaves it: nothing
   * when the IDS has no mappings or globals; undefined when the path held the
   * IDS name alone; 1 when no key is found. Otherwise the indices and the
   * request's pairs are written into the IDS's globals, which stay in the
   * register, and the mapping under the key found fills a fresh data block.
   */
  function Served(reg: Register, t: Target, pairs: seq<(string, string)>, host: Host, ext: External, fuel: nat)
    : (r: (Register, Outcome<(int, Block)>))
    ensures r.0.Keys == reg.Keys
    ensures forall m :: m in reg && m != t.machine ==> r.0[m] == reg[m]
    ensures t.machine in reg ==> (r.0[t.machine].mappings == reg[t.machine].mappings &&
                                  r.0[t.machine].attributes.Keys == reg[t.machine].attributes.Keys)
    ensures t.machine in reg ==> forall ids :: ids in reg[t.machine].attributes && ids != t.ids ==>
      r.0[t.machine].attributes[ids] == reg[t.machine].attributes[ids]
  {
    if t.machine !in reg || t.ids !in reg[t.machine].mappings || t.ids !in reg[t.machine].attributes then
      (reg, Done((PluginError, InitBlock)))
    else if t.tokens == [] then (reg, Undefined("back() of an empty deque"))
    else
      var mm := reg[t.machine];
      var mappings := mm.mappings[t.ids];
      var found := GenerateMapPath(t.tokens, t.indices, mappings.Keys, t.path).0;
      if found == [] then (reg, Done((1, InitBlock)))
      else
        var withIndices := Assign(mm.attributes[t.ids], "indices", IndicesJson(t.indices));
        if withIndices.Failed() then (reg, withIndices.Propagate())
        else
          var globals := JObj(Attributed(withIndices.value.fields, pairs));
          var sigType := SignalTypeOf(t.tokens[|t.tokens| - 1]);
          var args := NewMapArguments(mappings, globals, sigType, host.findInt(pairs, "datatype"));
          (reg[t.machine := mm.(attributes := mm.attributes[t.ids := globals])],
           Map(mappings[found], args, ext, InitBlock, fuel))
  }

  /** When no key is found, get returns 1 and the globals stay as they were. */
  lemma NoKeyReturnsOne(reg: Register, t: Target, pairs: seq<(string, string)>, host: Host, ext: External, fuel: nat)
    requires t.machine in reg && t.ids in reg[t.machine].mappings && t.ids in reg[t.machine].attributes
    requires t.tokens != []
    requires GenerateMapPath(t.tokens, t.indices, reg[t.machine].mappings[t.ids].Keys, t.path).0 == []
    ensures Served(reg, t, pairs, host, ext, fuel) == (reg, Done((1, InitBlock)))
  {
  }

  /** The globals change only once a key is found, and then the mapping run is the one under that key. */
  lemma GlobalsWrittenOnlyWhenFound(reg: Register, t: Target, pairs: seq<(string, string)>, host: Host, ext: External,
                                   fuel: nat)
    requires Served(reg, t, pairs, host, ext, fuel).0 != reg
    ensures t.machine in reg && t.ids in reg[t.machine].mappings && t.tokens != []
    ensures var mappings := reg[t.machine].mappings[t.ids];
      var found := GenerateMapPath(t.tokens, t.indices, mappings.Keys, t.path).0;
      found in mappings && exists a :: Served(reg, t, pairs, host, ext, fuel).1 == Map(mappings[found], a, ext, InitBlock, fuel)
  {
    var mm := reg[t.machine];
    var mappings := mm.mappings[t.ids];
    var found := GenerateMapPath(t.tokens, t.indices, mappings.Keys, t.path).0;
    var withIndices := Assign(mm.attributes[t.ids], "indices", IndicesJson(t.indices));
    var globals := JObj(Attributed(withIndices.value.fields, pairs));
    var a := NewMapArguments(mappings, globals, SignalTypeOf(t.tokens[|t.tokens| - 1]), host.findInt(pairs, "datatype"));
    assert Served(reg, t, pairs, host, ext, fuel).1 == Map(mappings[found], a, ext, InitBlock, fuel);
  }

  /**
   * Once a key is found, the IDS's globals hold the indices under "indices"
   * (unless a request pair of that name overwrote them), every request pair
   * and every earlier global, and are what the mapping is given.
   */
  lemma GlobalsAfterGet(reg: Register, t: Target, pairs: seq<(string, string)>, host: Host, ext: External, fuel: nat)
    requires t.machine in reg && t.ids in reg[t.machine].mappings && t.ids in reg[t.machine].attributes
    requires t.tokens != []
    requires GenerateMapPath(t.tokens, t.indices, reg[t.machine].mappings[t.ids].Keys, t.path).0 != []
    requires reg[t.machine].attributes[t.ids].JObj?
    ensures var g := Served(reg, t, pairs, host, ext, fuel).0[t.machine].attributes[t.ids];
      var before := reg[t.machine].attributes[t.ids].fields;
      g.JObj? && g.fields.Keys == before.Keys + {"indices"} + Names(pairs) &&
      ("indices" !in Names(pairs) ==> g.fields["indices"] == IndicesJson(t.indices)) &&
      (forall k :: k in before && k != "indices" && k !in Names(pairs) ==> g.fields[k] == before[k])
  {
  }

  /**
   * What get does to the handler and what it returns, given the handler's
   * register and config before the call (`reg0`, `config0`) and after it
   * (`reg1`, `config1`): a request without a mapping or path, or whose path
   * does not parse, touches nothing; otherwise the machine is loaded, and
   * either loading fails or the rest is `Served`.
   */
  predicate Answered(reg0: Register, config0: Json, dir: string, dd: string, reg1: Register, config1: Json,
                     pairs: seq<(string, string)>, host: Host, files: Files, ext: External, fuel: nat,
                     r: Outcome<(int, Block)>)
  {
    var t := TargetOf(pairs, host);
    if t.Failed() then r == t.Propagate() && reg1 == reg0 && config1 == config0
    else if t.value.None? then r == Done((PluginError, InitBlock)) && reg1 == reg0 && config1 == config0
    else
      var loaded := MachineLoaded(reg0, config0, dir, dd, t.value.value.machine, files, ext);
      config1 == loaded.0 &&
      if loaded.1.code.None? then r.Failed() && reg1 == loaded.1.register
      else (reg1, r) == Served(loaded.1.register, t.value.value, pairs, host, ext, fuel)
  }

  /** What execute does with a function name. */
  datatype Call = About | Fetch | Close | Unsupported

  /**
   * execute's dispatch: the ABI information functions, "read" and "get"
   * alike, "close", and anything else, which raises the plugin error.
   */
  function CallOf(name: string): (c: Call)
    ensures c == About <==> name in {"help", "version", "builddate", "defaultmethod", "maxinterfaceversion"}
    ensures c == Fetch <==> name == "read" || name == "get"
    ensures c == Close <==> name == "close"
  {
    if name in {"help", "version", "builddate", "defaultmethod", "maxinterfaceversion"} then About
    else if name == "read" || name == "get" then Fetch
    else if name == "close" then Close
    else Unsupported
  }

  /** Whether init runs through to execute: the map directory is set and the handler's init does not throw. */
  predicate InitPasses(env: Environment, handlerReady: bool) {
    env.mappingDir.Some? &&
    (env.mappingDir.value == [] || handlerReady || CacheSetting(env.cacheSize, env.useCache, env.cacheLogging).Done?)
  }

  /** JSONMappingPlugin: the handler it owns, whether it is initialised and the function last asked for. */
  class JsonMappingPlugin {
    var initialised: bool
    var functionName: string
    const handler: MappingHandler

    /** A plugin as first constructed: not initialised, with a fresh handler. */
    constructor ()
      ensures !initialised && functionName == [] && fresh(handler)
      ensures handler.machineRegister == map[] && !handler.initialised && handler.ddVersion == DefaultDdVersion
      ensures handler.mappingDir == [] && handler.mappingConfig == JNull && handler.ramCache == null
    {
      initialised := false;
      functionName := [];
      handler := new MappingHandler();
    }

    /** reset: only the initialised flag is cleared; the handler keeps every machine it loaded. */
    method Reset() returns (r: int)
      modifies this
      ensures r == 0 && !initialised && functionName == old(functionName)
    {
      initialised := false;
      return 0;
    }

    /**
     * init: resets when not initialised or when asked to (re)initialise; an
     * unset UDA_JSON_MAPPING_DIR is undefined behaviour (a std::string built
     * from a null pointer); an empty one raises the plugin error before the
     * handler is touched. Otherwise the handler gets the directory and is
     * initialised, and its exceptions pass through. Only a successful init
     * sets the initialised flag: after any failure it is as the reset left it.
     */
    method Init(env: Environment) returns (r: Outcome<int>)
      modifies this, handler
      ensures functionName == old(functionName)
      ensures handler.machineRegister == old(handler.machineRegister) && handler.mappingConfig == old(handler.mappingConfig)
      ensures handler.ddVersion == old(handler.ddVersion)
      ensures env.mappingDir.None? ==> r.Undefined?
      ensures env.mappingDir == Some([]) ==> r == Done(PluginError)
      ensures env.mappingDir.None? || env.mappingDir == Some([]) ==>
        (initialised == (old(initialised) && old(functionName) != "init" && old(functionName) != "initialise") &&
         handler.Settings() == old(handler.Settings()))
      ensures env.mappingDir.Some? && env.mappingDir.value != [] ==>
        (handler.mappingDir == env.mappingDir.value &&
         (r.Done? <==> InitPasses(env, old(handler.initialised) || old(handler.machineRegister) != map[])) &&
         (r.Done? ==> r == Done(0) && initialised) &&
         (r.Failed() ==> r == CacheSetting(env.cacheSize, env.useCache, env.cacheLogging).Propagate<int>()))
      ensures r != Done(0) ==>
        initialised == (old(initialised) && old(functionName) != "init" && old(functionName) != "initialise")
    {
      if !initialised || functionName == "init" || functionName == "initialise" {
        var _ := Reset();
      }
      if env.mappingDir.None? {
        return Undefined("std::string constructed from a null pointer");
      }
      var dir := env.mappingDir.value;
      if dir == [] {
        return Done(PluginError);
      }
      var _ := handler.SetMapDir(dir);
      var h := handler.Init(env.cacheSize, env.useCache, env.cacheLogging);
      if h.Failed() {
        return h;
      }
      initialised := true;
      return Done(0);
    }

    /** get: the data for the requested path, left in a fresh data block. */
    method Get(pairs: seq<(string, string)>, host: Host, files: Files, ext: External, fuel: nat)
      returns (r: Outcome<(int, Block)>)
      modifies handler
      ensures Answered(old(handler.machineRegister), old(handler.mappingConfig), handler.mappingDir, handler.ddVersion,
                       handler.machineRegister, handler.mappingConfig, pairs, host, files, ext, fuel, r)
      ensures handler.Settings() == old(handler.Settings())
    {
      var mapping := host.findString(pairs, "mapping");
      if mapping.None? {
        return Done((PluginError, InitBlock));
      }
      var path := host.findString(pairs, "path");
      if path.None? {
        return Done((PluginError, InitBlock));
      }
      var extracted := ExtractIndices(CText.Split(path.value, '/'));
      if extracted.Failed() {
        return extracted.Propagate();
      }
      var processed := extracted.value.1;
      assert processed == [processed[0]] + processed[1..];
      var target := Target(CText.ToLower(mapping.value), processed[0], processed[1..], extracted.value.0, path.value);
      assert TargetOf(pairs, host) == Done(Some(target));
      r := Serve(target, pairs, host, files, ext, fuel);
    }

    /** get once the path is read: the machine loaded through read_mappings, then the rest of the request. */
    method Serve(t: Target, pairs: seq<(string, string)>, host: Host, files: Files, ext: External, fuel: nat)
      returns (r: Outcome<(int, Block)>)
      modifies handler
      ensures var loaded := MachineLoaded(old(handler.machineRegister), old(handler.mappingConfig), handler.mappingDir,
                                          handler.ddVersion, t.machine, files, ext);
        handler.mappingConfig == loaded.0 &&
        if loaded.1.code.None? then r.Failed() && handler.machineRegister == loaded.1.register
        else (handler.machineRegister, r) == Served(loaded.1.register, t, pairs, host, ext, fuel)
      ensures handler.Settings() == old(handler.Settings())
    {
      var found := handler.ReadMappings(t.machine, t.ids, files, ext);
      if found.Failed() {
        return found.Propagate();
      }
      r := ServeLoaded(t, found.value, pairs, host, ext, fuel);
    }

    /** The rest of get, on the mappings and globals read_mappings found, if any. */
    method ServeLoaded(t: Target, found: Option<(Json, map<string, Mapping>)>, pairs: seq<(string, string)>, host: Host,
                       ext: External, fuel: nat)
      returns (r: Outcome<(int, Block)>)
      requires found.Some? <==> (t.machine in handler.machineRegister &&
                                 t.ids in handler.machineRegister[t.machine].mappings &&
                                 t.ids in handler.machineRegister[t.machine].attributes)
      requires found.Some? ==> found.value == (handler.machineRegister[t.machine].attributes[t.ids],
                                               handler.machineRegister[t.machine].mappings[t.ids])
      modifies handler
      ensures (handler.machineRegister, r) == Served(old(handler.machineRegister), t, pairs, host, ext, fuel)
      ensures handler.mappingConfig == old(handler.mappingConfig) && handler.Settings() == old(handler.Settings())
    {
      if found.None? {
        return Done((PluginError, InitBlock));
      }
      var attributes := found.value.0;
      var mappings := found.value.1;
      if t.tokens == [] {
        return Undefined("back() of an empty deque");
      }
      var sigType := SignalTypeOf(t.tokens[|t.tokens| - 1]);
      var mapPath := GenerateMapPath(t.tokens, t.indices, mappings.Keys, t.path).0;
      if mapPath == [] {
        return Done((1, InitBlock));
      }
      var withIndices := Assign(attributes, "indices", IndicesJson(t.indices));
      if withIndices.Failed() {
        return withIndices.Propagate();
      }
      var fields := AddMachineAttributes(withIndices.value.fields, pairs);
      var mm := handler.machineRegister[t.machine];
      handler.machineRegister := handler.machineRegister[t.machine := mm.(attributes := mm.attributes[t.ids := JObj(fields)])];
      var args := NewMapArguments(mappings, JObj(fields), sigType, host.findInt(pairs, "datatype"));
      return Map(mappings[mapPath], args, ext, InitBlock, fuel);
    }

    /** execute: the function last asked for, dispatched. */
    method Execute(pairs: seq<(string, string)>, b: Block, host: Host, files: Files, ext: External, fuel: nat)
      returns (r: Outcome<(int, Block)>)
      modifies handler
      ensures CallOf(functionName) == About ==> r == Done(host.about(functionName, b))
      ensures CallOf(functionName) == Close ==> r == Done((0, b))
      ensures CallOf(functionName) == Unsupported ==> r == Done((PluginError, b))
      ensures CallOf(functionName) != Fetch ==>
        handler.machineRegister == old(handler.machineRegister) && handler.mappingConfig == old(handler.mappingConfig)
      ensures CallOf(functionName) == Fetch ==>
        Answered(old(handler.machineRegister), old(handler.mappingConfig), handler.mappingDir, handler.ddVersion,
                 handler.machineRegister, handler.mappingConfig, pairs, host, files, ext, fuel, r)
      ensures handler.Settings() == old(handler.Settings())
    {
      match CallOf(functionName)
      case About => r := Done(host.about(functionName, b));
      case Fetch => r := Get(pairs, host, files, ext, fuel);
      case Close => r := Done((0, b));
      case Unsupported => r := Done((PluginError, b));
    }

    /**
     * entry_handle: records the function; the housekeeping flag and "reset" reset and
     * return 0; otherwise init runs, its code ignored but its exceptions
     * passed on; "init" and "initialise" then return 0, and any other
     * function is executed.
     */
    method EntryHandle(request: Request, env: Environment, b: Block, host: Host, files: Files, ext: External, fuel: nat)
      returns (r: Outcome<(int, Block)>)
      modifies this, handler
      ensures functionName == request.functionName
      ensures request.housekeeping || request.functionName == "reset" ==>
        (r == Done((0, b)) && !initialised &&
         handler.machineRegister == old(handler.machineRegister) && handler.mappingConfig == old(handler.mappingConfig) &&
         handler.Settings() == old(handler.Settings()))
      ensures !request.housekeeping && request.functionName != "reset" ==>
        (r.Failed() || InitPasses(env, old(handler.initialised) || old(handler.machineRegister) != map[])) &&
        (InitPasses(env, old(handler.initialised) || old(handler.machineRegister) != map[]) ==>
           var name := request.functionName;
           (name == "init" || name == "initialise" ==> r == Done((0, b))) &&
           (name != "init" && name != "initialise" ==>
              (CallOf(name) == About ==> r == Done(host.about(name, b))) &&
              (CallOf(name) == Close ==> r == Done((0, b))) &&
              (CallOf(name) == Unsupported ==> r == Done((PluginError, b))) &&
              (CallOf(name) == Fetch ==>
                 Answered(old(handler.machineRegister), old(handler.mappingConfig), handler.mappingDir,
                          handler.ddVersion, handler.machineRegister, handler.mappingConfig, request.pairs, host,
                          files, ext, fuel, r))))
    {
      functionName := request.functionName;
      if request.housekeeping || functionName == "reset" {
        var _ := Reset();
        return Done((0, b));
      }
      var i := Init(env);
      if i.Failed() {
        return i.Propagate();
      }
      if functionName == "init" || functionName == "initialise" {
        return Done((0, b));
      }
      r := Execute(request.pairs, b, host, files, ext, fuel);
    }
  }
}
