/** Two accepted argument objects print alike exactly when they are equal as JSON. */
module CanonicalJsonMeaning {
  import opened Wrappers
  import opened Text
  import opened CanonicalJson

  // ----- equality as JSON -----------------------------------------------------------

  /** The JSON value an accepted Python value stands for; dict order and list/tuple vanish. */
  ghost function Denote(v: PyVal): Value
    requires Check(v).None?
  {
    match v
    case None_ => VNull
    case Bool(b) => VBool(b)
    case Int(i) => VInt(i)
    case Float(f) => VFloat(f.repr)
    case Str(s) => VStr(s)
    case List(items) => VArr(DenoteItems(items))
    case Tuple(items) => VArr(DenoteItems(items))
    case Dict(fields) => VObj(DenoteFields(fields))
  }

  ghost function DenoteItems(vs: seq<PyVal>): seq<Value>
    requires CheckItems(vs).None?
  {
    if vs == [] then [] else [Denote(vs[0])] + DenoteItems(vs[1..])
  }

  ghost function DenoteFields(fs: seq<PyField>): map<string, Value>
    requires CheckFields(fs).None?
  {
    if fs == [] then map[]
    else
      var rest := DenoteFields(fs[1..]);
      assert CheckField(fs[0]).None?;
      rest[fs[0].key.name := DenoteField(fs[0])]
  }

  ghost function DenoteField(f: PyField): Value
    requires CheckField(f).None?
  {
    Denote(f.value)
  }

  ghost function Meaning(j: Json): Value {
    match j
    case JNull => VNull
    case JBool(b) => VBool(b)
    case JInt(i) => VInt(i)
    case JFloat(tok) => VFloat(tok)
    case JStr(s) => VStr(s)
    case JArr(items) => VArr(ItemsMeaning(items))
    case JObj(ms) => VObj(MembersMap(ms))
  }

  ghost function ItemsMeaning(js: seq<Json>): (vs: seq<Value>)
    ensures |vs| == |js|
  {
    if js == [] then [] else [Meaning(js[0])] + ItemsMeaning(js[1..])
  }

  ghost function MembersMap(ms: seq<Member>): map<string, Value> {
    if ms == [] then map[] else MembersMap(ms[1..])[ms[0].name := MemberMeaning(ms[0])]
  }

  ghost function MemberMeaning(m: Member): Value { Meaning(m.value) }

  // ----- sorting the members does not change the meaning ----------------------------

  lemma {:induction false} MembersMapNames(ms: seq<Member>)
    ensures forall n :: n in MembersMap(ms) <==> exists m :: m in ms && m.name == n
  {
    hide MemberMeaning;
    if ms != [] {
      MembersMapNames(ms[1..]);
      assert forall m :: m in ms <==> m == ms[0] || m in ms[1..];
      assert ms[0] in ms;
    }
  }

  lemma {:induction false} MembersMapLookup(ms: seq<Member>)
    requires DistinctKeys(ms, NameOf)
    ensures forall n :: n in MembersMap(ms) <==> exists m :: m in ms && m.name == n
    ensures forall m <- ms :: m.name in MembersMap(ms) && MembersMap(ms)[m.name] == MemberMeaning(m)
  {
    hide MemberMeaning;
    MembersMapNames(ms);
    if ms != [] {
      MembersMapLookup(ms[1..]);
      forall m <- ms ensures m.name in MembersMap(ms) && MembersMap(ms)[m.name] == MemberMeaning(m) {
        if m != ms[0] {
          var k :| 0 <= k < |ms| && ms[k] == m;
          assert NameOf(ms[0]) != NameOf(ms[k]);
          assert m in ms[1..];
        }
      }
    }
  }

  lemma SameMembersSameMap(ms: seq<Member>, ns: seq<Member>)
    requires DistinctKeys(ms, NameOf) && DistinctKeys(ns, NameOf)
    requires multiset(ms) == multiset(ns)
    ensures MembersMap(ms) == MembersMap(ns)
  {
    MembersMapLookup(ms);
    MembersMapLookup(ns);
    SameElements(ms, ns);
    var a, b := MembersMap(ms), MembersMap(ns);
    forall n ensures n in a <==> n in b {}
    forall n | n in a ensures a[n] == b[n] {
      var m :| m in ms && m.name == n;
      assert m in ns;
    }
  }

  lemma NormFieldsDistinct(fs: seq<PyField>)
    requires WellFormed(Dict(fs)) && CheckFields(fs).None?
    ensures DistinctKeys(NormFields(fs), NameOf)
  {
    var ms := NormFields(fs);
    forall i, j | 0 <= i < j < |ms| ensures NameOf(ms[i]) != NameOf(ms[j]) {
      assert fs[i].key != fs[j].key;
    }
  }

  lemma {:induction false} MeaningOfNorm(v: PyVal)
    requires WellFormed(v) && Check(v).None?
    ensures Meaning(Norm(v)) == Denote(v)
    decreases v, 1
  {
    match v
    case List(items) => MeaningOfItems(items);
    case Tuple(items) => MeaningOfItems(items);
    case Dict(fs) =>
      MeaningOfFields(fs);
      NormFieldsDistinct(fs);
      SortDistinct(NormFields(fs), NameOf);
      SameMembersSameMap(Sort(NormFields(fs), NameOf), NormFields(fs));
    case _ =>
  }

  lemma {:induction false} MeaningOfItems(vs: seq<PyVal>)
    requires (forall x <- vs :: WellFormed(x)) && CheckItems(vs).None?
    ensures ItemsMeaning(NormItems(vs)) == DenoteItems(vs)
    decreases vs, 0
  {
    if vs != [] {
      MeaningOfNorm(vs[0]);
      MeaningOfItems(vs[1..]);
    }
  }

  lemma {:induction false} MeaningOfFields(fs: seq<PyField>)
    requires (forall f <- fs :: WellFormed(f.value)) && CheckFields(fs).None?
    ensures MembersMap(NormFields(fs)) == DenoteFields(fs)
    decreases fs, 0
  {
    if fs != [] {
      MeaningOfField(fs[0]);
      MeaningOfFields(fs[1..]);
    }
  }

  lemma {:induction false} MeaningOfField(f: PyField)
    requires WellFormed(f.value) && CheckField(f).None?
    ensures MemberMeaning(NormField(f)) == DenoteField(f)
    decreases f, 0
  {
    MeaningOfNorm(f.value);
  }

  // ----- the sorted form is printable and determined by its meaning -----------------

  /** Every object lists its members in strictly increasing key order. */
  ghost predicate Ordered(j: Json) {
    match j
    case JArr(items) => forall x <- items :: Ordered(x)
    case JObj(ms) => StrictlySorted(ms, NameOf) && forall m <- ms :: Ordered(m.value)
    case _ => true
  }

  lemma {:induction false} NormIsOrdered(v: PyVal)
    requires WellFormed(v) && Check(v).None?
    ensures Ordered(Norm(v)) && Printable(Norm(v))
    decreases v, 1
  {
    match v
    case List(items) => NormItemsOrdered(items);
    case Tuple(items) => NormItemsOrdered(items);
    case Dict(fs) =>
      NormFieldsOrdered(fs);
      NormFieldsDistinct(fs);
      SortStrict(NormFields(fs), NameOf);
      SameElements(Sort(NormFields(fs), NameOf), NormFields(fs));
    case _ =>
  }

  lemma {:induction false} NormItemsOrdered(vs: seq<PyVal>)
    requires (forall x <- vs :: WellFormed(x)) && CheckItems(vs).None?
    ensures forall j <- NormItems(vs) :: Ordered(j) && Printable(j)
    decreases vs, 0
  {
    if vs != [] {
      NormIsOrdered(vs[0]);
      NormItemsOrdered(vs[1..]);
    }
  }

  lemma {:induction false} NormFieldsOrdered(fs: seq<PyField>)
    requires (forall f <- fs :: WellFormed(f.value)) && CheckFields(fs).None?
    ensures forall m <- NormFields(fs) :: Ordered(m.value) && Printable(m.value)
    decreases fs, 0
  {
    if fs != [] {
      NormFieldOrdered(fs[0]);
      NormFieldsOrdered(fs[1..]);
    }
  }

  lemma {:induction false} NormFieldOrdered(f: PyField)
    requires WellFormed(f.value) && CheckField(f).None?
    ensures Ordered(NormField(f).value) && Printable(NormField(f).value)
    decreases f, 0
  {
    NormIsOrdered(f.value);
  }

  lemma StrictIsDistinct(ms: seq<Member>)
    requires StrictlySorted(ms, NameOf)
    ensures DistinctKeys(ms, NameOf)
  {
    forall i, j | 0 <= i < j < |ms| ensures NameOf(ms[i]) != NameOf(ms[j]) {
      LessIrreflexive(NameOf(ms[i]));
    }
  }

  /** The least key of a map is the first name of any sorted list with that meaning. */
  lemma FirstNamesAgree(ms: seq<Member>, ns: seq<Member>)
    requires ms != [] && ns != []
    requires StrictlySorted(ms, NameOf) && StrictlySorted(ns, NameOf)
    requires MembersMap(ms) == MembersMap(ns)
    ensures ms[0].name == ns[0].name
    ensures MemberMeaning(ms[0]) == MemberMeaning(ns[0])
    ensures MembersMap(ms[1..]) == MembersMap(ns[1..])
  {
    StrictIsDistinct(ms);
    StrictIsDistinct(ns);
    MembersMapLookup(ms);
    MembersMapLookup(ns);
    var a, b := ms[0].name, ns[0].name;
    assert ms[0] in ms && ns[0] in ns;
    if a != b {
      var m :| m in ns && m.name == a;
      var k :| 0 <= k < |ns| && ns[k] == m;
      var n :| n in ms && n.name == b;
      var l :| 0 <= l < |ms| && ms[l] == n;
      assert Less(NameOf(ns[0]), NameOf(ns[k])) && Less(NameOf(ms[0]), NameOf(ms[l]));
      LessTransitive(a, b, a);
      LessIrreflexive(a);
    }
    TailMap(ms);
    TailMap(ns);
  }

  lemma AddThenRemove<V>(m: map<string, V>, k: string, v: V)
    requires k !in m
    ensures m[k := v] - {k} == m
  {
  }

  lemma HeadNameOnce(ms: seq<Member>)
    requires ms != [] && DistinctKeys(ms, NameOf)
    ensures ms[0].name !in MembersMap(ms[1..])
  {
    var rest := ms[1..];
    MembersMapLookup(rest);
    forall m | m in rest ensures m.name != ms[0].name {
      var k :| 0 <= k < |rest| && rest[k] == m;
      assert NameOf(ms[0]) != NameOf(ms[k + 1]);
    }
  }

  lemma TailMap(ms: seq<Member>)
    requires ms != [] && DistinctKeys(ms, NameOf)
    ensures MembersMap(ms[1..]) == MembersMap(ms) - {ms[0].name}
  {
    HeadNameOnce(ms);
    AddThenRemove(MembersMap(ms[1..]), ms[0].name, MemberMeaning(ms[0]));
  }

  lemma EmptyMembersMap(ms: seq<Member>)
    ensures MembersMap(ms) == map[] <==> ms == []
  {
    if ms != [] { assert ms[0].name in MembersMap(ms); }
  }

  lemma {:induction false} MeaningDeterminesText(x: Json, y: Json)
    requires Ordered(x) && Ordered(y) && Meaning(x) == Meaning(y)
    ensures x == y
    decreases x, 0
  {
    match x
    case JArr(items) => ItemsDetermined(items, y.items);
    case JObj(ms) => MembersDetermined(ms, y.members);
    case _ =>
  }

  lemma {:induction false} ItemsDetermined(xs: seq<Json>, ys: seq<Json>)
    requires (forall x <- xs :: Ordered(x)) && (forall y <- ys :: Ordered(y))
    requires ItemsMeaning(xs) == ItemsMeaning(ys)
    ensures xs == ys
    decreases xs, 1
  {
    if xs != [] {
      assert |xs| == |ys|;
      assert ItemsMeaning(xs)[0] == ItemsMeaning(ys)[0];
      assert ItemsMeaning(xs)[1..] == ItemsMeaning(xs[1..]) && ItemsMeaning(ys)[1..] == ItemsMeaning(ys[1..]);
      MeaningDeterminesText(xs[0], ys[0]);
      ItemsDetermined(xs[1..], ys[1..]);
      assert xs == [xs[0]] + xs[1..] && ys == [ys[0]] + ys[1..];
    }
  }

  lemma {:induction false} MembersDetermined(ms: seq<Member>, ns: seq<Member>)
    requires StrictlySorted(ms, NameOf) && StrictlySorted(ns, NameOf)
    requires (forall m <- ms :: Ordered(m.value)) && (forall n <- ns :: Ordered(n.value))
    requires MembersMap(ms) == MembersMap(ns)
    ensures ms == ns
    decreases ms, 1
  {
    EmptyMembersMap(ms);
    EmptyMembersMap(ns);
    if ms != [] && ns != [] {
      FirstNamesAgree(ms, ns);
      MemberDetermined(ms[0], ns[0]);
      MembersDetermined(ms[1..], ns[1..]);
      assert ms == [ms[0]] + ms[1..] && ns == [ns[0]] + ns[1..];
    }
  }

  lemma {:induction false} MemberDetermined(m: Member, n: Member)
    requires Ordered(m.value) && Ordered(n.value)
    requires m.name == n.name && MemberMeaning(m) == MemberMeaning(n)
    ensures m == n
    decreases m, 1
  {
    MeaningDeterminesText(m.value, n.value);
  }

  // ----- main results ---------------------------------------------------------------

  /** Decoding the canonical text gives back the JSON value of the arguments. */
  lemma CanonicalDecodes(v: PyVal)
    requires WellFormed(v) && CanonicalArgs(v).Success?
    ensures Parse(CanonicalArgs(v).value) == Some((Norm(v), ""))
    ensures Meaning(Norm(v)) == Denote(v)
  {
    NormIsOrdered(v);
    ParseInverts(Norm(v), "");
    assert Print(Norm(v)) + "" == Print(Norm(v));
    MeaningOfNorm(v);
  }

  /** Same text exactly when equal as JSON, at any depth and for any key order. */
  lemma CanonicalIffEqual(a: PyVal, b: PyVal)
    requires WellFormed(a) && CanonicalArgs(a).Success?
    requires WellFormed(b) && CanonicalArgs(b).Success?
    ensures CanonicalArgs(a) == CanonicalArgs(b) <==> Denote(a) == Denote(b)
  {
    CanonicalDecodes(a);
    CanonicalDecodes(b);
    NormIsOrdered(a);
    NormIsOrdered(b);
    if Denote(a) == Denote(b) { MeaningDeterminesText(Norm(a), Norm(b)); }
  }

  /** Equal hashes mean equal arguments, or the two texts are a collision of the hash. */
  lemma ArgsHashBinds<D>(sha: string -> D, a: PyVal, b: PyVal)
    requires WellFormed(a) && CanonicalArgs(a).Success?
    requires WellFormed(b) && CanonicalArgs(b).Success?
    requires sha(CanonicalArgs(a).value) == sha(CanonicalArgs(b).value)
    ensures Denote(a) == Denote(b) || CanonicalArgs(a).value != CanonicalArgs(b).value
  {
    CanonicalIffEqual(a, b);
  }

  /** No non-string key, no non-finite float and no unsupported value, at any depth. */
  ghost predicate Clean(v: PyVal) {
    match v
    case Dict(fs) => forall f <- fs :: f.key.StrKey? && Clean(f.value)
    case List(items) => forall x <- items :: Clean(x)
    case Tuple(items) => forall x <- items :: Clean(x)
    case Float(f) => f.Finite?
    case Other => false
    case _ => true
  }

  lemma {:induction false} CheckIffClean(v: PyVal)
    ensures Check(v).None? <==> Clean(v)
    decreases v, 1
  {
    match v
    case List(items) => CheckItemsIffClean(items);
    case Tuple(items) => CheckItemsIffClean(items);
    case Dict(fs) => CheckFieldsIffClean(fs);
    case _ =>
  }

  lemma {:induction false} CheckItemsIffClean(vs: seq<PyVal>)
    ensures CheckItems(vs).None? <==> forall x <- vs :: Clean(x)
    decreases vs, 0
  {
    if vs != [] {
      CheckIffClean(vs[0]);
      CheckItemsIffClean(vs[1..]);
      assert vs == [vs[0]] + vs[1..];
    }
  }

  lemma {:induction false} CheckFieldsIffClean(fs: seq<PyField>)
    ensures CheckFields(fs).None? <==> forall f <- fs :: f.key.StrKey? && Clean(f.value)
    decreases fs, 0
  {
    if fs != [] {
      CheckFieldIffClean(fs[0]);
      CheckFieldsIffClean(fs[1..]);
      assert fs == [fs[0]] + fs[1..];
    }
  }

  lemma {:induction false} CheckFieldIffClean(f: PyField)
    ensures CheckField(f).None? <==> f.key.StrKey? && Clean(f.value)
    decreases f, 0
  {
    CheckIffClean(f.value);
  }

  /** Exactly the clean objects have a canonical rendering. */
  lemma AcceptedIffClean(v: PyVal)
    ensures CanonicalArgs(v).Success? <==> v.Dict? && Clean(v)
  {
    CheckIffClean(v);
  }

  // ----- printable ASCII only -------------------------------------------------------

  predicate Ascii(s: string) { forall k :: 0 <= k < |s| ==> ' ' <= s[k] <= '~' }

  lemma {:induction false} StringTailAscii(s: string)
    ensures Ascii(StringTail(s))
  {
    if s != "" { StringTailAscii(s[1..]); }
  }

  lemma {:induction false} PrintAscii(j: Json)
    requires Printable(j)
    ensures Ascii(Print(j))
    decreases j, 1
  {
    match j
    case JInt(i) => ParseIntInverts(i);
    case JStr(s) => StringTailAscii(s);
    case JArr(items) => if items != [] { PrintAscii(items[0]); ItemsTailAscii(items[1..]); }
    case JObj(ms) => if ms != [] { PrintMemberAscii(ms[0]); MembersTailAscii(ms[1..]); }
    case _ =>
  }

  lemma {:induction false} ItemsTailAscii(items: seq<Json>)
    requires forall x <- items :: Printable(x)
    ensures Ascii(ItemsTail(items))
    decreases items, 2
  {
    if items != [] { PrintAscii(items[0]); ItemsTailAscii(items[1..]); }
  }

  lemma {:induction false} PrintMemberAscii(m: Member)
    requires Printable(m.value)
    ensures Ascii(PrintMember(m))
    decreases m, 2
  {
    StringTailAscii(m.name);
    PrintAscii(m.value);
  }

  lemma {:induction false} MembersTailAscii(ms: seq<Member>)
    requires forall m <- ms :: Printable(m.value)
    ensures Ascii(MembersTail(ms))
    decreases ms, 2
  {
    if ms != [] { PrintMemberAscii(ms[0]); MembersTailAscii(ms[1..]); }
  }

  /** Canonical text is printable ASCII, so its UTF-8 encoding is the text itself. */
  lemma CanonicalIsAscii(v: PyVal)
    requires WellFormed(v) && CanonicalArgs(v).Success?
    ensures Ascii(CanonicalArgs(v).value)
  {
    NormIsOrdered(v);
    PrintAscii(Norm(v));
  }
}
