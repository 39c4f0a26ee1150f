/** The canonical rendering of call arguments (hashing.py): which values are accepted, how
    they are printed, and that the printed text determines the value. */
module CanonicalJson {
  import opened Wrappers
  import opened Text

  // ----- values ---------------------------------------------------------------------

  datatype PyKey = StrKey(name: string) | OtherKey
  datatype PyFloat = Finite(repr: string) | NonFinite

  /** A Python value as `_check` sees it. A dict keeps its items in insertion order. */
  datatype PyVal =
    | None_
    | Bool(b: bool)
    | Int(i: int)
    | Float(f: PyFloat)
    | Str(s: string)
    | List(items: seq<PyVal>)
    | Tuple(items: seq<PyVal>)
    | Dict(fields: seq<PyField>)
    | Other
  datatype PyField = PyField(key: PyKey, value: PyVal)

  /** JSON text structure: what `json.dumps` walks, members in printing order. */
  datatype Json =
    | JNull
    | JBool(b: bool)
    | JInt(i: int)
    | JFloat(tok: string)
    | JStr(s: string)
    | JArr(items: seq<Json>)
    | JObj(members: seq<Member>)
  datatype Member = Member(name: string, value: Json)

  /** JSON meaning: an object is a map, so the order of its keys does not exist. */
  datatype Value =
    | VNull
    | VBool(b: bool)
    | VInt(i: int)
    | VFloat(tok: string)
    | VStr(s: string)
    | VArr(items: seq<Value>)
    | VObj(members: map<string, Value>)

  function NameOf(m: Member): string { m.name }

  // ----- acceptance -----------------------------------------------------------------

  datatype ArgsError = NotAnObject | NonStringKey | NonFiniteFloat | UnsupportedType

  predicate NumChar(c: char) {
    '0' <= c <= '9' || c == '.' || c == 'e' || c == '+' || c == '-'
  }

  /** `repr` of a finite float: a token that no integer token equals. */
  predicate FloatToken(t: string) {
    (forall k :: 0 <= k < |t| ==> NumChar(t[k])) && ('.' in t || 'e' in t)
  }

  /** `_check`: the first objection met in a depth-first walk, if any. */
  function Check(v: PyVal): Option<ArgsError> {
    match v
    case Dict(fields) => CheckFields(fields)
    case List(items) => CheckItems(items)
    case Tuple(items) => CheckItems(items)
    case Float(f) => if f.Finite? then None else Some(NonFiniteFloat)
    case Other => Some(UnsupportedType)
    case _ => None
  }

  function CheckItems(vs: seq<PyVal>): Option<ArgsError> {
    if vs == [] then None
    else
      var first := Check(vs[0]);
      if first.Some? then first else CheckItems(vs[1..])
  }

  function CheckFields(fs: seq<PyField>): Option<ArgsError> {
    if fs == [] then None
    else
      var first := CheckField(fs[0]);
      if first.Some? then first else CheckFields(fs[1..])
  }

  function CheckField(f: PyField): Option<ArgsError> {
    if f.key.OtherKey? then Some(NonStringKey) else Check(f.value)
  }

  /** What Python guarantees of its own values: distinct dict keys, float reprs are tokens. */
  ghost predicate WellFormed(v: PyVal) {
    match v
    case Dict(fs) =>
      && (forall i, j :: 0 <= i < j < |fs| ==> fs[i].key != fs[j].key)
      && (forall f <- fs :: WellFormed(f.value))
    case List(items) => forall x <- items :: WellFormed(x)
    case Tuple(items) => forall x <- items :: WellFormed(x)
    case Float(f) => f.Finite? ==> FloatToken(f.repr)
    case _ => true
  }

  // ----- sorting --------------------------------------------------------------------

  /** `json.dumps(sort_keys=True)`: the members of every object in code-point key order. */
  function Norm(v: PyVal): (j: Json)
    requires Check(v).None?
  {
    match v
    case None_ => JNull
    case Bool(b) => JBool(b)
    case Int(i) => JInt(i)
    case Float(f) => JFloat(f.repr)
    case Str(s) => JStr(s)
    case List(items) => JArr(NormItems(items))
    case Tuple(items) => JArr(NormItems(items))
    case Dict(fields) => JObj(Sort(NormFields(fields), NameOf))
  }

  function NormItems(vs: seq<PyVal>): (js: seq<Json>)
    requires CheckItems(vs).None?
    ensures |js| == |vs|
  {
    if vs == [] then [] else [Norm(vs[0])] + NormItems(vs[1..])
  }

  function NormFields(fs: seq<PyField>): (ms: seq<Member>)
    requires CheckFields(fs).None?
    ensures |ms| == |fs|
    ensures forall k :: 0 <= k < |fs| ==> fs[k].key == StrKey(ms[k].name)
  {
    if fs == [] then [] else [NormField(fs[0])] + NormFields(fs[1..])
  }

  function NormField(f: PyField): (m: Member)
    requires CheckField(f).None?
    ensures f.key == StrKey(m.name)
  {
    Member(f.key.name, Norm(f.value))
  }

  // ----- printing -------------------------------------------------------------------

  function HexDigit(n: nat): (c: char)
    requires n < 16
  {
    if n < 10 then '0' + n as char else 'a' + (n - 10) as char
  }

  function Hex4(n: nat): (s: string)
    requires n < 0x10000
    ensures |s| == 4
  {
    [HexDigit(n / 4096), HexDigit(n / 256 % 16), HexDigit(n / 16 % 16), HexDigit(n % 16)]
  }

  function Escape(c: char): string {
    if c == '"' then "\\\""
    else if c == '\\' then "\\\\"
    else if c == '\n' then "\\n"
    else if c == '\r' then "\\r"
    else if c == '\t' then "\\t"
    else if c as int == 12 then "\\f"
    else if c as int == 8 then "\\b"
    else if ' ' <= c <= '~' then [c]
    else if c as int < 0x10000 then "\\u" + Hex4(c as int)
    else
      var v := c as int - 0x10000;
      "\\u" + Hex4(0xd800 + v / 1024) + "\\u" + Hex4(0xdc00 + v % 1024)
  }

  /** The escaped characters and the closing quote. */
  function StringTail(s: string): string {
    if s == "" then "\"" else Escape(s[0]) + StringTail(s[1..])
  }

  function Digits(n: nat): (s: string)
    ensures |s| > 0
  {
    if n < 10 then ['0' + n as char] else Digits(n / 10) + ['0' + (n % 10) as char]
  }

  function IntRepr(i: int): string {
    if i < 0 then "-" + Digits(-i) else Digits(i)
  }

  function Print(j: Json): string {
    match j
    case JNull => "null"
    case JBool(b) => if b then "true" else "false"
    case JInt(i) => IntRepr(i)
    case JFloat(tok) => tok
    case JStr(s) => "\"" + StringTail(s)
    case JArr(items) =>
      if items == [] then "[]" else "[" + Print(items[0]) + ItemsTail(items[1..])
    case JObj(ms) =>
      if ms == [] then "{}" else "{" + PrintMember(ms[0]) + MembersTail(ms[1..])
  }

  /** The remaining items, each after its separator, and the closing bracket. */
  function ItemsTail(items: seq<Json>): string {
    if items == [] then "]" else "," + Print(items[0]) + ItemsTail(items[1..])
  }

  function PrintMember(m: Member): string {
    "\"" + StringTail(m.name) + ":" + Print(m.value)
  }

  function MembersTail(ms: seq<Member>): string {
    if ms == [] then "}" else "," + PrintMember(ms[0]) + MembersTail(ms[1..])
  }

  /** `canonical_args`: the pinned rendering of an arguments object, or the objection. */
  function CanonicalArgs(args: PyVal): Result<string, ArgsError> {
    if !args.Dict? then Failure(NotAnObject)
    else
      var bad := Check(args);
      if bad.Some? then Failure(bad.value) else Success(Print(Norm(args)))
  }

  // ----- parsing --------------------------------------------------------------------

  function HexValue(c: char): Option<nat> {
    if '0' <= c <= '9' then Some(c as int - '0' as int)
    else if 'a' <= c <= 'f' then Some(c as int - 'a' as int + 10)
    else None
  }

  function ParseHex4(s: string): Option<nat> {
    if |s| < 4 then None
    else
      var a, b, c, d := HexValue(s[0]), HexValue(s[1]), HexValue(s[2]), HexValue(s[3]);
      if a.None? || b.None? || c.None? || d.None? then None
      else Some(4096 * a.value + 256 * b.value + 16 * c.value + d.value)
  }

  /** One character of a string body and what follows it. */
  function ParseChar(s: string): (r: Option<(char, string)>)
    ensures r.Some? ==> |r.value.1| < |s|
  {
    if s == "" then None
    else if s[0] != '\\' then
      if ' ' <= s[0] <= '~' && s[0] != '"' then Some((s[0], s[1..])) else None
    else if |s| < 2 then None
    else if s[1] == '"' then Some(('"', s[2..]))
    else if s[1] == '\\' then Some(('\\', s[2..]))
    else if s[1] == 'n' then Some(('\n', s[2..]))
    else if s[1] == 'r' then Some(('\r', s[2..]))
    else if s[1] == 't' then Some(('\t', s[2..]))
    else if s[1] == 'f' then Some((12 as char, s[2..]))
    else if s[1] == 'b' then Some((8 as char, s[2..]))
    else if s[1] == 'u' then
      var hi := ParseHex4(s[2..]);
      if hi.None? then None
      else if 0xd800 <= hi.value < 0xdc00 then ParseLowSurrogate(hi.value, s[6..])
      else if 0xdc00 <= hi.value < 0xe000 || hi.value >= 0x10000 then None
      else Some((hi.value as char, s[6..]))
    else None
  }

  function ParseLowSurrogate(hi: nat, s: string): (r: Option<(char, string)>)
    requires 0xd800 <= hi < 0xdc00
    ensures r.Some? ==> |r.value.1| < |s|
  {
    if |s| < 6 || s[0] != '\\' || s[1] != 'u' then None
    else
      var lo := ParseHex4(s[2..]);
      if lo.None? || !(0xdc00 <= lo.value < 0xe000) then None
      else Some(((0x10000 + (hi - 0xd800) * 1024 + (lo.value - 0xdc00)) as char, s[6..]))
  }

  /** A string body up to and including the closing quote. */
  function ParseString(s: string): (r: Option<(string, string)>)
    ensures r.Some? ==> |r.value.1| < |s|
    decreases |s|
  {
    if s == "" then None
    else if s[0] == '"' then Some(("", s[1..]))
    else
      var first := ParseChar(s);
      if first.None? then None
      else
        var rest := ParseString(first.value.1);
        if rest.None? then None
        else Some(([first.value.0] + rest.value.0, rest.value.1))
  }

  /** Length of the longest prefix made of number characters. */
  function NumLength(s: string): (n: nat)
    ensures n <= |s|
    ensures forall k :: 0 <= k < n ==> NumChar(s[k])
    ensures n < |s| ==> !NumChar(s[n])
  {
    if s == "" || !NumChar(s[0]) then 0 else 1 + NumLength(s[1..])
  }

  function ParseDigits(s: string): Option<nat> {
    if s == "" || !('0' <= s[|s| - 1] <= '9') then None
    else
      var d := s[|s| - 1] as int - '0' as int;
      if |s| == 1 then Some(d)
      else
        var hi := ParseDigits(s[..|s| - 1]);
        if hi.None? then None else Some(10 * hi.value + d)
  }

  function ParseInt(s: string): Option<int> {
    if s != "" && s[0] == '-' then
      var n := ParseDigits(s[1..]);
      if n.None? then None else var m: int := n.value; Some(-m)
    else
      var n := ParseDigits(s);
      if n.None? then None else Some(n.value)
  }

  function ParseNumber(s: string): (r: Option<(Json, string)>)
    ensures r.Some? ==> |r.value.1| < |s|
  {
    var n := NumLength(s);
    var tok := s[..n];
    if n == 0 then None
    else if '.' in tok || 'e' in tok then Some((JFloat(tok), s[n..]))
    else
      var i := ParseInt(tok);
      if i.None? then None else Some((JInt(i.value), s[n..]))
  }

  /** One JSON value at the front of `s`, and the rest of `s`. */
  function Parse(s: string): (r: Option<(Json, string)>)
    ensures r.Some? ==> |r.value.1| < |s|
    decreases |s|, 1
  {
    if s == "" then None
    else if "null" <= s then Some((JNull, s[4..]))
    else if "true" <= s then Some((JBool(true), s[4..]))
    else if "false" <= s then Some((JBool(false), s[5..]))
    else if s[0] == '"' then
      var r := ParseString(s[1..]);
      if r.None? then None else Some((JStr(r.value.0), r.value.1))
    else if s[0] == '[' then
      if |s| >= 2 && s[1] == ']' then Some((JArr([]), s[2..]))
      else
        var first := Parse(s[1..]);
        if first.None? then None
        else
          var rest := ParseItemsTail(first.value.1);
          if rest.None? then None
          else Some((JArr([first.value.0] + rest.value.0), rest.value.1))
    else if s[0] == '{' then
      if |s| >= 2 && s[1] == '}' then Some((JObj([]), s[2..]))
      else
        var first := ParseMember(s[1..]);
        if first.None? then None
        else
          var rest := ParseMembersTail(first.value.1);
          if rest.None? then None
          else Some((JObj([first.value.0] + rest.value.0), rest.value.1))
    else ParseNumber(s)
  }

  function ParseItemsTail(s: string): (r: Option<(seq<Json>, string)>)
    ensures r.Some? ==> |r.value.1| < |s|
    decreases |s|, 0
  {
    if s == "" then None
    else if s[0] == ']' then Some(([], s[1..]))
    else if s[0] != ',' then None
    else
      var first := Parse(s[1..]);
      if first.None? then None
      else
        var rest := ParseItemsTail(first.value.1);
        if rest.None? then None
        else Some(([first.value.0] + rest.value.0, rest.value.1))
  }

  function ParseMember(s: string): (r: Option<(Member, string)>)
    ensures r.Some? ==> |r.value.1| < |s|
    decreases |s|, 2
  {
    if s == "" || s[0] != '"' then None
    else
      var name := ParseString(s[1..]);
      if name.None? || name.value.1 == "" || name.value.1[0] != ':' then None
      else
        var v := Parse(name.value.1[1..]);
        if v.None? then None
        else Some((Member(name.value.0, v.value.0), v.value.1))
  }

  function ParseMembersTail(s: string): (r: Option<(seq<Member>, string)>)
    ensures r.Some? ==> |r.value.1| < |s|
    decreases |s|, 0
  {
    if s == "" then None
    else if s[0] == '}' then Some(([], s[1..]))
    else if s[0] != ',' then None
    else
      var first := ParseMember(s[1..]);
      if first.None? then None
      else
        var rest := ParseMembersTail(first.value.1);
        if rest.None? then None
        else Some(([first.value.0] + rest.value.0, rest.value.1))
  }

  // ----- the parser inverts the printer ---------------------------------------------

  /** Text that may follow a value: it does not continue a number. */
  predicate Delimited(rest: string) { rest == "" || !NumChar(rest[0]) }

  ghost predicate Printable(j: Json) {
    match j
    case JFloat(tok) => FloatToken(tok)
    case JArr(items) => forall x <- items :: Printable(x)
    case JObj(ms) => forall m <- ms :: Printable(m.value)
    case _ => true
  }

  lemma HexValueInverts(n: nat)
    requires n < 16
    ensures HexValue(HexDigit(n)) == Some(n)
  {
  }

  lemma HexPlaces(n: nat)
    requires n < 0x10000
    ensures n / 4096 < 16
    ensures 4096 * (n / 4096) + 256 * (n / 256 % 16) + 16 * (n / 16 % 16) + n % 16 == n
  {
    assert n / 16 / 16 == n / 256 && n / 256 / 16 == n / 4096;
  }

  lemma ParseHex4Inverts(n: nat, rest: string)
    requires n < 0x10000
    ensures ParseHex4(Hex4(n) + rest) == Some(n)
  {
    var a, b, c, d := n / 4096, n / 256 % 16, n / 16 % 16, n % 16;
    HexPlaces(n);
    HexValueInverts(a); HexValueInverts(b); HexValueInverts(c); HexValueInverts(d);
    var s := Hex4(n) + rest;
    assert s[0] == HexDigit(a) && s[1] == HexDigit(b) && s[2] == HexDigit(c) && s[3] == HexDigit(d);
  }

  lemma ParseUnicodeInverts(c: char, rest: string)
    requires c as int < 0x10000
    ensures ParseChar("\\u" + Hex4(c as int) + rest) == Some((c, rest))
  {
    var s := "\\u" + Hex4(c as int) + rest;
    assert s[2..] == Hex4(c as int) + rest;
    ParseHex4Inverts(c as int, rest);
    assert s[6..] == rest;
  }

  lemma ParseLowInverts(hi: nat, low: nat, rest: string)
    requires 0xd800 <= hi < 0xdc00 && 0xdc00 <= low < 0xe000
    ensures ParseLowSurrogate(hi, "\\u" + Hex4(low) + rest)
         == Some(((0x10000 + (hi - 0xd800) * 1024 + (low - 0xdc00)) as char, rest))
  {
    var s := "\\u" + Hex4(low) + rest;
    assert s[2..] == Hex4(low) + rest;
    ParseHex4Inverts(low, rest);
    assert s[6..] == rest;
  }

  lemma ParseSurrogatesInverts(c: char, rest: string)
    requires c as int >= 0x10000
    ensures ParseChar(Escape(c) + rest) == Some((c, rest))
  {
    hide Hex4, HexDigit, ParseHex4, ParseLowSurrogate;
    var v := c as int - 0x10000;
    var hi, low := 0xd800 + v / 1024, 0xdc00 + v % 1024;
    var after := "\\u" + Hex4(low) + rest;
    var s := Escape(c) + rest;
    assert s == "\\u" + Hex4(hi) + after;
    assert s[2..] == Hex4(hi) + after && s[6..] == after;
    ParseHex4Inverts(hi, after);
    ParseLowInverts(hi, low, rest);
    assert (hi - 0xd800) * 1024 + (low - 0xdc00) == v;
  }

  lemma ParseCharInverts(c: char, rest: string)
    ensures ParseChar(Escape(c) + rest) == Some((c, rest))
    ensures Escape(c) != "" && Escape(c)[0] != '"'
  {
    var s := Escape(c) + rest;
    if c == '"' || c == '\\' || c == '\n' || c == '\r' || c == '\t' || c as int == 12 || c as int == 8 {
      assert s[2..] == rest;
    } else if ' ' <= c <= '~' {
      assert s[1..] == rest;
    } else if c as int < 0x10000 {
      ParseUnicodeInverts(c, rest);
    } else {
      ParseSurrogatesInverts(c, rest);
    }
  }

  lemma {:induction false} ParseStringInverts(s: string, rest: string)
    ensures ParseString(StringTail(s) + rest) == Some((s, rest))
  {
    hide ParseChar, Escape;
    if s != "" {
      var tail := StringTail(s[1..]) + rest;
      assert StringTail(s) + rest == Escape(s[0]) + tail;
      ParseCharInverts(s[0], tail);
      ParseStringInverts(s[1..], rest);
      assert s == [s[0]] + s[1..];
    }
  }

  lemma {:induction false} DigitsChars(n: nat)
    ensures forall k :: 0 <= k < |Digits(n)| ==> '0' <= Digits(n)[k] <= '9'
  {
    if n >= 10 { DigitsChars(n / 10); }
  }

  lemma {:induction false} ParseDigitsInverts(n: nat)
    ensures ParseDigits(Digits(n)) == Some(n)
  {
    if n >= 10 {
      ParseDigitsInverts(n / 10);
      var s := Digits(n);
      assert s[..|s| - 1] == Digits(n / 10);
    }
  }

  lemma ParseIntInverts(i: int)
    ensures ParseInt(IntRepr(i)) == Some(i)
    ensures forall k :: 0 <= k < |IntRepr(i)| ==> NumChar(IntRepr(i)[k]) && IntRepr(i)[k] !in ".e"
  {
    var n := if i < 0 then -i else i;
    DigitsChars(n);
    ParseDigitsInverts(n);
    if i < 0 { assert IntRepr(i)[1..] == Digits(n); }
  }

  lemma {:induction false} NumLengthOfToken(tok: string, rest: string)
    requires forall k :: 0 <= k < |tok| ==> NumChar(tok[k])
    requires Delimited(rest)
    ensures NumLength(tok + rest) == |tok|
  {
    if tok == "" {
      assert tok + rest == rest;
    } else {
      assert (tok + rest)[1..] == tok[1..] + rest;
      NumLengthOfToken(tok[1..], rest);
    }
  }

  lemma ParseNumberInverts(j: Json, rest: string)
    requires j.JInt? || j.JFloat?
    requires Printable(j) && Delimited(rest)
    ensures ParseNumber(Print(j) + rest) == Some((j, rest))
    ensures Print(j) != "" && NumChar(Print(j)[0])
  {
    var tok := Print(j);
    if j.JInt? { ParseIntInverts(j.i); }
    NumLengthOfToken(tok, rest);
    var s := tok + rest;
    assert s[..|tok|] == tok && s[|tok|..] == rest;
  }

  /** Whatever follows it, the text of a value reads back as that value. */
  lemma {:induction false} ParseInverts(j: Json, rest: string)
    requires Printable(j) && Delimited(rest)
    ensures Parse(Print(j) + rest) == Some((j, rest))
    ensures Print(j) != "" && Print(j)[0] !in "]}"
    decreases j, 1
  {
    if j.JArr? {
      ParseArrayInverts(j.items, rest);
    } else if j.JObj? {
      ParseObjectInverts(j.members, rest);
    } else {
      ParseScalarInverts(j, rest);
    }
  }

  lemma ParseScalarInverts(j: Json, rest: string)
    requires !j.JArr? && !j.JObj?
    requires Printable(j) && Delimited(rest)
    ensures Parse(Print(j) + rest) == Some((j, rest))
    ensures Print(j) != "" && Print(j)[0] !in "]}"
  {
    if j.JInt? || j.JFloat? {
      ParseNumberTextInverts(j, rest);
    } else if j.JStr? {
      ParseStringTextInverts(j.s, rest);
    } else {
      ParseWordInverts(j, rest);
    }
  }

  lemma ParseWordInverts(j: Json, rest: string)
    requires j.JNull? || j.JBool?
    ensures Parse(Print(j) + rest) == Some((j, rest))
    ensures Print(j) != "" && Print(j)[0] !in "]}"
  {
    hide ParseNumber, ParseString, ParseItemsTail, ParseMembersTail, ParseMember, StringTail, IntRepr, FloatToken;
    var s := Print(j) + rest;
    match j
    case JNull => assert s[..4] == "null" && s[4..] == rest && s[0] == 'n';
    case JBool(true) => assert s[..4] == "true" && s[4..] == rest && s[0] == 't';
    case JBool(false) => assert s[..5] == "false" && s[5..] == rest && s[0] == 'f';
  }

  lemma ParseNumberTextInverts(j: Json, rest: string)
    requires j.JInt? || j.JFloat?
    requires Printable(j) && Delimited(rest)
    ensures Parse(Print(j) + rest) == Some((j, rest))
    ensures Print(j) != "" && Print(j)[0] !in "]}"
  {
    hide ParseNumber, ParseString, ParseItemsTail, ParseMembersTail, ParseMember, Print, Printable;
    ParseNumberInverts(j, rest);
    var s := Print(j) + rest;
    var c := s[0];
    assert NumChar(c) && c == Print(j)[0];
    assert c != 'n' && c != 't' && c != 'f' && c != '"' && c != '[' && c != '{';
    assert !("null" <= s) && !("true" <= s) && !("false" <= s);
  }

  lemma ParseStringTextInverts(t: string, rest: string)
    ensures Parse(Print(JStr(t)) + rest) == Some((JStr(t), rest))
  {
    hide ParseNumber, ParseString, ParseItemsTail, ParseMembersTail, ParseMember, StringTail;
    var s := Print(JStr(t)) + rest;
    assert s[0] == '"' && !("null" <= s) && !("true" <= s) && !("false" <= s);
    assert s[1..] == StringTail(t) + rest;
    ParseStringInverts(t, rest);
  }

  lemma TailsDelimited(items: seq<Json>, ms: seq<Member>, rest: string)
    ensures Delimited(ItemsTail(items) + rest) && Delimited(MembersTail(ms) + rest)
  {
    hide Print, PrintMember;
  }

  lemma {:induction false} ParseArrayInverts(items: seq<Json>, rest: string)
    requires forall x <- items :: Printable(x)
    ensures Parse(Print(JArr(items)) + rest) == Some((JArr(items), rest))
    decreases items, 3
  {
    hide ItemsTail, ParseItemsTail, ParseMember, ParseMembersTail, ParseString, ParseNumber, Delimited, Printable;
    var s := Print(JArr(items)) + rest;
    assert s[0] == '[' && !("null" <= s) && !("true" <= s) && !("false" <= s);
    if items == [] {
      assert s[1] == ']';
      assert s[2..] == rest;
    } else {
      var tail := ItemsTail(items[1..]) + rest;
      assert s[1..] == Print(items[0]) + tail;
      TailsDelimited(items[1..], [], rest);
      ParseInverts(items[0], tail);
      assert s[1] == Print(items[0])[0] && s[1] != ']';
      ParseItemsInverts(items[1..], rest);
      assert items == [items[0]] + items[1..];
    }
  }

  lemma {:induction false} ParseObjectInverts(ms: seq<Member>, rest: string)
    requires forall m <- ms :: Printable(m.value)
    ensures Parse(Print(JObj(ms)) + rest) == Some((JObj(ms), rest))
    decreases ms, 3
  {
    hide MembersTail, ParseItemsTail, ParseMember, ParseMembersTail, ParseString, ParseNumber, Delimited, Printable,
        StringTail;
    var s := Print(JObj(ms)) + rest;
    assert s[0] == '{' && !("null" <= s) && !("true" <= s) && !("false" <= s);
    if ms == [] {
      assert s[1] == '}';
      assert s[2..] == rest;
    } else {
      var tail := MembersTail(ms[1..]) + rest;
      assert s[1..] == PrintMember(ms[0]) + tail;
      TailsDelimited([], ms[1..], rest);
      assert s[1] == '"';
      ParseMemberInverts(ms[0], tail);
      ParseMembersInverts(ms[1..], rest);
      assert ms == [ms[0]] + ms[1..];
    }
  }

  lemma {:induction false} ParseItemsInverts(items: seq<Json>, rest: string)
    requires forall x <- items :: Printable(x)
    ensures ParseItemsTail(ItemsTail(items) + rest) == Some((items, rest))
    decreases items, 2
  {
    hide Parse, Print, Delimited, Printable;
    var s := ItemsTail(items) + rest;
    if items == [] {
      assert s[1..] == rest;
    } else {
      var tail := ItemsTail(items[1..]) + rest;
      assert s[1..] == Print(items[0]) + tail;
      TailsDelimited(items[1..], [], rest);
      ParseInverts(items[0], tail);
      ParseItemsInverts(items[1..], rest);
      assert items == [items[0]] + items[1..];
    }
  }

  lemma {:induction false} ParseMemberInverts(m: Member, rest: string)
    requires Printable(m.value) && Delimited(rest)
    ensures ParseMember(PrintMember(m) + rest) == Some((m, rest))
    decreases m, 2
  {
    hide Parse, Print, StringTail, ParseString, Delimited, Printable;
    var s := PrintMember(m) + rest;
    var after := ":" + Print(m.value) + rest;
    assert s[1..] == StringTail(m.name) + after;
    ParseStringInverts(m.name, after);
    assert after[1..] == Print(m.value) + rest;
    ParseInverts(m.value, rest);
  }

  lemma {:induction false} ParseMembersInverts(ms: seq<Member>, rest: string)
    requires forall m <- ms :: Printable(m.value)
    ensures ParseMembersTail(MembersTail(ms) + rest) == Some((ms, rest))
    decreases ms, 2
  {
    hide ParseMember, PrintMember, Delimited, Printable;
    var s := MembersTail(ms) + rest;
    if ms == [] {
      assert s[1..] == rest;
    } else {
      var tail := MembersTail(ms[1..]) + rest;
      assert s[1..] == PrintMember(ms[0]) + tail;
      TailsDelimited([], ms[1..], rest);
      ParseMemberInverts(ms[0], tail);
      ParseMembersInverts(ms[1..], rest);
      assert ms == [ms[0]] + ms[1..];
    }
  }
}
