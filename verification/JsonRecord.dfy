/** Flat JSON objects with named columns: what the store writes as text and reads back. */
module JsonRecord {
  import opened Wrappers
  import opened Text
  import opened CanonicalJson
  import opened CanonicalJsonMeaning

  /** One column: a name and a value that is always renderable. */
  datatype Cell = Null | Flag(b: bool) | Number(i: int) | Word(s: string) | Words(ss: seq<string>)
  datatype Column = Column(name: string, cell: Cell)

  function CellValue(c: Cell): (v: PyVal)
    ensures Check(v).None? && WellFormed(v)
  {
    match c
    case Null => None_
    case Flag(b) => Bool(b)
    case Number(i) => Int(i)
    case Word(s) => Str(s)
    case Words(ss) => List(StrItems(ss))
  }

  function StrItems(ss: seq<string>): (vs: seq<PyVal>)
    ensures CheckItems(vs).None?
    ensures forall v <- vs :: WellFormed(v)
  {
    if ss == [] then [] else [Str(ss[0])] + StrItems(ss[1..])
  }

  function ColumnFields(cs: seq<Column>): (fs: seq<PyField>)
    ensures CheckFields(fs).None? && |fs| == |cs|
    ensures forall k :: 0 <= k < |cs| ==> fs[k].key == StrKey(cs[k].name)
    ensures forall f <- fs :: WellFormed(f.value)
  {
    if cs == [] then [] else [PyField(StrKey(cs[0].name), CellValue(cs[0].cell))] + ColumnFields(cs[1..])
  }

  function Opt(s: Option<string>): Cell { if s.None? then Null else Word(s.value) }

  predicate DistinctColumns(cs: seq<Column>) {
    forall i, j :: 0 <= i < j < |cs| ==> cs[i].name != cs[j].name
  }

  function RecordDict(cs: seq<Column>): (v: PyVal)
    requires DistinctColumns(cs)
    ensures WellFormed(v) && CanonicalArgs(v).Success?
  {
    Dict(ColumnFields(cs))
  }

  /** store.py `_canonical` of a flat object. */
  function RecordText(cs: seq<Column>): string
    requires DistinctColumns(cs)
  {
    CanonicalArgs(RecordDict(cs)).value
  }

  // ----- reading back ---------------------------------------------------------------

  /** `json.loads` of a whole text. */
  function Loads(text: string): Option<Json> {
    var r := Parse(text);
    if r.None? || r.value.1 != "" then None else Some(r.value.0)
  }

  /** `d.get(name)` on a loaded object. */
  function Lookup(ms: seq<Member>, name: string): Option<Json> {
    if ms == [] then None
    else if ms[0].name == name then Some(ms[0].value)
    else Lookup(ms[1..], name)
  }

  function WordOf(j: Json): Cell {
    match j
    case JBool(b) => Flag(b)
    case JInt(i) => Number(i)
    case JStr(s) => Word(s)
    case JArr(items) => Words(WordItems(items))
    case _ => Null
  }

  function WordItems(js: seq<Json>): seq<string> {
    if js == [] then []
    else (if js[0].JStr? then [js[0].s] else []) + WordItems(js[1..])
  }

  /** The cell stored under a name; Null when the key is absent. */
  function CellAt(text: string, name: string): Cell {
    var j := Loads(text);
    if j.None? || !j.value.JObj? then Null
    else
      var v := Lookup(j.value.members, name);
      if v.None? then Null else WordOf(v.value)
  }

  lemma {:induction false} LookupMember(ms: seq<Member>, m: Member)
    requires DistinctKeys(ms, NameOf) && m in ms
    ensures Lookup(ms, m.name) == Some(m.value)
  {
    if ms[0] != m {
      var k :| 0 <= k < |ms| && ms[k] == m;
      assert NameOf(ms[0]) != NameOf(ms[k]);
      LookupMember(ms[1..], m);
    }
  }

  lemma {:induction false} WordItemsInvert(ss: seq<string>)
    ensures WordItems(NormItems(StrItems(ss))) == ss
  {
    if ss != [] { WordItemsInvert(ss[1..]); }
  }

  lemma CellInverts(c: Cell)
    ensures WordOf(Norm(CellValue(c))) == c
  {
    if c.Words? { WordItemsInvert(c.ss); }
  }

  lemma {:induction false} NormColumn(cs: seq<Column>, k: nat)
    requires k < |cs|
    ensures NormFields(ColumnFields(cs))[k] == Member(cs[k].name, Norm(CellValue(cs[k].cell)))
  {
    if k > 0 { NormColumn(cs[1..], k - 1); }
  }

  lemma LookupSorted(ms: seq<Member>, m: Member)
    requires DistinctKeys(ms, NameOf) && m in ms
    ensures Lookup(Sort(ms, NameOf), m.name) == Some(m.value)
  {
    SortDistinct(ms, NameOf);
    SameElements(Sort(ms, NameOf), ms);
    LookupMember(Sort(ms, NameOf), m);
  }

  lemma RecordLoads(cs: seq<Column>)
    requires DistinctColumns(cs)
    ensures Loads(RecordText(cs)) == Some(JObj(Sort(NormFields(ColumnFields(cs)), NameOf)))
  {
    CanonicalDecodes(RecordDict(cs));
  }

  lemma ColumnLoads(cs: seq<Column>, c: Column)
    requires DistinctColumns(cs) && c in cs
    ensures Lookup(Sort(NormFields(ColumnFields(cs)), NameOf), c.name) == Some(Norm(CellValue(c.cell)))
  {
    var fs := ColumnFields(cs);
    var k :| 0 <= k < |cs| && cs[k] == c;
    NormFieldsDistinct(fs);
    NormColumn(cs, k);
    LookupSorted(NormFields(fs), NormFields(fs)[k]);
  }

  /** Every column reads back from the text under its name. */
  lemma CellReadsBack(cs: seq<Column>, c: Column)
    requires DistinctColumns(cs) && c in cs
    ensures CellAt(RecordText(cs), c.name) == c.cell
  {
    RecordLoads(cs);
    ColumnLoads(cs, c);
    CellInverts(c.cell);
  }

  // ----- a bare cell, and a list of cells -------------------------------------------

  function CellText(c: Cell): string { Print(Norm(CellValue(c))) }

  function CellOfText(text: string): Cell {
    var j := Loads(text);
    if j.None? then Null else WordOf(j.value)
  }

  lemma PrintLoads(v: PyVal)
    requires WellFormed(v) && Check(v).None?
    ensures Loads(Print(Norm(v))) == Some(Norm(v))
  {
    NormIsOrdered(v);
    ParseInverts(Norm(v), "");
    assert Print(Norm(v)) + "" == Print(Norm(v));
  }

  lemma CellTextReadsBack(c: Cell)
    ensures CellOfText(CellText(c)) == c
  {
    PrintLoads(CellValue(c));
    CellInverts(c);
  }

  function CellItems(cs: seq<Cell>): (vs: seq<PyVal>)
    ensures CheckItems(vs).None? && forall v <- vs :: WellFormed(v)
  {
    if cs == [] then [] else [CellValue(cs[0])] + CellItems(cs[1..])
  }

  function ListText(cs: seq<Cell>): string { Print(Norm(List(CellItems(cs)))) }

  lemma {:induction false} CellItemsInjective(cs: seq<Cell>, ds: seq<Cell>)
    requires NormItems(CellItems(cs)) == NormItems(CellItems(ds))
    ensures cs == ds
  {
    var a, b := NormItems(CellItems(cs)), NormItems(CellItems(ds));
    if cs != [] && ds != [] {
      assert a[0] == b[0] && a[1..] == b[1..];
      CellInverts(cs[0]);
      CellInverts(ds[0]);
      CellItemsInjective(cs[1..], ds[1..]);
      assert cs == [cs[0]] + cs[1..] && ds == [ds[0]] + ds[1..];
    }
  }

  /** Lists of cells that print alike are the same list. */
  lemma ListTextInjective(cs: seq<Cell>, ds: seq<Cell>)
    requires ListText(cs) == ListText(ds)
    ensures cs == ds
  {
    PrintLoads(List(CellItems(cs)));
    PrintLoads(List(CellItems(ds)));
    CellItemsInjective(cs, ds);
  }
}
