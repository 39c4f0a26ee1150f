/** The canonical text itself, as Python's `json.dumps` writes it with sorted keys, no spaces
    and ASCII only. */
module CanonicalText {
  import opened Text
  import opened CanonicalJson
  import opened CanonicalJsonMeaning

  /** The keys of a rendered object come in code-point order. */
  lemma KeysInOrder(fs: seq<PyField>, i: nat, j: nat)
    requires WellFormed(Dict(fs)) && CheckFields(fs).None?
    requires i < j < |Norm(Dict(fs)).members|
    ensures Precedes(Norm(Dict(fs)).members[i].name, Norm(Dict(fs)).members[j].name)
  {
    hide Less;
    NormFieldsDistinct(fs);
    SortStrict(NormFields(fs), NameOf);
    var ms := Sort(NormFields(fs), NameOf);
    LessIsPrecedes(NameOf(ms[i]), NameOf(ms[j]));
  }

  /** Scalars and brackets. */
  lemma PrintedScalars(tok: string)
    ensures Print(JNull) == "null" && Print(JBool(true)) == "true" && Print(JBool(false)) == "false"
    ensures Print(JFloat(tok)) == tok && Print(JArr([])) == "[]" && Print(JObj([])) == "{}"
  {
  }

  /** Items are separated by a bare comma. */
  lemma PrintedItems(a: Json, b: Json)
    ensures Print(JArr([a])) == "[" + Print(a) + "]"
    ensures Print(JArr([a, b])) == "[" + Print(a) + "," + Print(b) + "]"
  {
    assert [a][1..] == [] && [a, b][1..] == [b] && [b][1..] == [];
  }

  /** A member is its name as a string, a bare colon, and its value. */
  lemma PrintedMembers(x: Member, y: Member)
    ensures Print(JObj([x])) == "{" + Print(JStr(x.name)) + ":" + Print(x.value) + "}"
    ensures Print(JObj([x, y])) == "{" + Print(JStr(x.name)) + ":" + Print(x.value)
                                   + "," + Print(JStr(y.name)) + ":" + Print(y.value) + "}"
  {
    hide StringTail;
    assert [x][1..] == [] && [x, y][1..] == [y] && [y][1..] == [];
    assert PrintMember(x) == Print(JStr(x.name)) + ":" + Print(x.value);
    assert PrintMember(y) == Print(JStr(y.name)) + ":" + Print(y.value);
  }

  /** Decimal, with a sign only for what is negative. */
  lemma PrintedInts(n: int)
    requires n >= 0
    ensures n < 10 ==> Print(JInt(n)) == [['0', '1', '2', '3', '4', '5', '6', '7', '8', '9'][n]]
    ensures n >= 10 ==> Print(JInt(n)) == Print(JInt(n / 10)) + Print(JInt(n % 10))
    ensures n > 0 ==> Print(JInt(-n)) == "-" + Print(JInt(n))
  {
  }

  /** A string is quoted, its characters escaped one by one. */
  lemma PrintedStrings(c: char, s: string)
    ensures Print(JStr("")) == "\"\""
    ensures Print(JStr([c] + s)) == "\"" + Escape(c) + Print(JStr(s))[1..]
  {
    hide Escape;
    assert ([c] + s)[1..] == s;
  }

  /** The escapes: two quoted characters, five controls by letter, printable ASCII as it is. */
  lemma ShortEscapes(c: char)
    ensures Escape('"') == ['\\', '"'] && Escape('\\') == ['\\', '\\'] && Escape('\n') == ['\\', 'n']
    ensures Escape('\r') == ['\\', 'r'] && Escape('\t') == ['\\', 't']
    ensures Escape(12 as char) == ['\\', 'f'] && Escape(8 as char) == ['\\', 'b']
    ensures ' ' <= c <= '~' && c != '"' && c != '\\' ==> Escape(c) == [c]
  {
  }

  /** Everything else by its four lower-case hex digits, or by two surrogates. */
  lemma UnicodeEscapes(c: char)
    requires !(' ' <= c <= '~') && c !in {'\n', '\r', '\t', 12 as char, 8 as char}
    ensures c as int < 0x10000 ==> Escape(c) == ['\\', 'u'] + Hex4(c as int)
    ensures c as int >= 0x10000 ==>
              Escape(c) == ['\\', 'u'] + Hex4(0xd800 + (c as int - 0x10000) / 0x400)
                           + ['\\', 'u'] + Hex4(0xdc00 + (c as int - 0x10000) % 0x400)
  {
    hide Hex4;
  }

  lemma HexDigits()
    ensures Hex4(0x0123) == "0123" && Hex4(0x4567) == "4567" && Hex4(0x89ab) == "89ab" && Hex4(0xcdef) == "cdef"
  {
  }
}
