/** Python's `==` on JSON values, and when it is equality as JSON. */
module PyEquality {
  import opened Wrappers
  import opened CanonicalJson
  import opened Documents
  import opened CanonicalJsonMeaning

  /** Which texts are the repr of some float, and what that float is worth exactly. */
  datatype Floats = Floats(isRepr: string -> bool, value: string -> real)

  /** A repr is a float token, and different reprs are different numbers; the two zeros,
      which Python takes for equal, are the exception. */
  ghost predicate Lawful(fl: Floats) {
    && (forall t :: fl.isRepr(t) ==> FloatToken(t))
    && (forall s, t :: fl.isRepr(s) && fl.isRepr(t) && fl.value(s) == fl.value(t) && fl.value(s) != 0.0 ==> s == t)
  }

  /** The number a value compares as: a bool is the int it subclasses. */
  function NumberOf(fl: Floats, v: PyVal): Option<real> {
    match v
    case Bool(b) => Some((if b then 1 else 0) as real)
    case Int(i) => Some(i as real)
    case Float(Finite(repr)) => Some(fl.value(repr))
    case _ => None
  }

  /** `a == b`: numbers by value whatever their type, sequences item by item, dicts as maps. */
  predicate PyEq(fl: Floats, a: PyVal, b: PyVal)
    decreases a
  {
    if NumberOf(fl, a).Some? then NumberOf(fl, b) == NumberOf(fl, a)
    else
      match a
      case None_ => b.None_?
      case Str(s) => b == Str(s)
      case List(xs) => b.List? && |xs| == |b.items| && forall i :: 0 <= i < |xs| ==> PyEq(fl, xs[i], b.items[i])
      case Tuple(xs) => b.Tuple? && |xs| == |b.items| && forall i :: 0 <= i < |xs| ==> PyEq(fl, xs[i], b.items[i])
      case Dict(fs) =>
        && b.Dict? && |fs| == |b.fields|
        && forall i :: 0 <= i < |fs| ==>
             ValueIn(b.fields, fs[i].key).Some? && PyEq(fl, fs[i].value, ValueIn(b.fields, fs[i].key).value)
      case _ => false
  }

  /** Equality by kind: bools, ints and floats by what they are worth; a text and None only to
      themselves; a list, a tuple and a dict only to their own kind and size. */
  lemma EqualByKind(fl: Floats, a: PyVal, b: PyVal)
    ensures a.Bool? && b.Int? ==> (PyEq(fl, a, b) <==> b.i == if a.b then 1 else 0)
    ensures a.Int? && b.Int? ==> (PyEq(fl, a, b) <==> a.i == b.i)
    ensures a.Int? && b.Float? && b.f.Finite? ==> (PyEq(fl, a, b) <==> fl.value(b.f.repr) == a.i as real)
    ensures a.Str? || a.None_? ==> (PyEq(fl, a, b) <==> a == b)
    ensures a.Int? && (b.Str? || b.None_? || b.List? || b.Tuple? || b.Dict?) ==> !PyEq(fl, a, b)
    ensures a.List? && PyEq(fl, a, b) ==> b.List? && |a.items| == |b.items|
    ensures a.Tuple? && PyEq(fl, a, b) ==> b.Tuple? && |a.items| == |b.items|
    ensures a.Dict? && PyEq(fl, a, b) ==> b.Dict? && |a.fields| == |b.fields|
  {
  }

  ghost predicate KeysDistinct(fs: seq<PyField>) {
    forall i, j :: 0 <= i < j < |fs| ==> fs[i].key != fs[j].key
  }

  /** What Python guarantees of its own values: distinct keys, and floats that are floats. */
  ghost predicate OfPython(fl: Floats, v: PyVal) {
    match v
    case Dict(fs) => KeysDistinct(fs) && forall i :: 0 <= i < |fs| ==> OfPython(fl, fs[i].value)
    case List(items) => forall i :: 0 <= i < |items| ==> OfPython(fl, items[i])
    case Tuple(items) => forall i :: 0 <= i < |items| ==> OfPython(fl, items[i])
    case Float(f) => f.Finite? ==> fl.isRepr(f.repr)
    case _ => true
  }

  /** A value the program accepts among call arguments. */
  ghost predicate Accepted(fl: Floats, v: PyVal) { Check(v).None? && OfPython(fl, v) }

  // ----- parts of accepted values ---------------------------------------------------

  lemma {:induction false} ItemsAccepted(items: seq<PyVal>)
    ensures CheckItems(items).None? <==> forall i :: 0 <= i < |items| ==> Check(items[i]).None?
  {
    if items != [] { ItemsAccepted(items[1..]); }
  }

  lemma {:induction false} FieldsAccepted(fs: seq<PyField>)
    ensures CheckFields(fs).None? <==> forall i :: 0 <= i < |fs| ==> fs[i].key.StrKey? && Check(fs[i].value).None?
  {
    if fs != [] {
      FieldsAccepted(fs[1..]);
      assert CheckField(fs[0]).None? <==> fs[0].key.StrKey? && Check(fs[0].value).None?;
    }
  }

  lemma {:induction false} ItemsDenoted(items: seq<PyVal>)
    requires CheckItems(items).None?
    ensures |DenoteItems(items)| == |items|
    ensures forall i :: 0 <= i < |items| ==> Check(items[i]).None? && DenoteItems(items)[i] == Denote(items[i])
  {
    hide Denote;
    if items != [] { ItemsDenoted(items[1..]); }
  }

  lemma {:induction false} FieldsDenoted(fs: seq<PyField>)
    requires CheckFields(fs).None? && KeysDistinct(fs)
    ensures forall i :: 0 <= i < |fs| ==>
              && fs[i].key.StrKey? && Check(fs[i].value).None?
              && fs[i].key.name in DenoteFields(fs) && DenoteFields(fs)[fs[i].key.name] == Denote(fs[i].value)
    ensures forall n :: n in DenoteFields(fs) ==> exists i :: 0 <= i < |fs| && fs[i].key == StrKey(n)
  {
    hide Denote, Check;
    FieldsAccepted(fs);
    if fs != [] {
      FieldsDenoted(fs[1..]);
      forall i | 0 < i < |fs| ensures fs[i] == fs[1..][i - 1] {}
      forall n | n in DenoteFields(fs) ensures exists i :: 0 <= i < |fs| && fs[i].key == StrKey(n) {
        if fs[0].key != StrKey(n) {
          var i :| 0 <= i < |fs[1..]| && fs[1..][i].key == StrKey(n);
          assert fs[i + 1].key == StrKey(n);
        }
      }
    }
  }

  lemma {:induction false} ValueFound(fs: seq<PyField>, k: nat)
    requires k < |fs| && KeysDistinct(fs)
    ensures ValueIn(fs, fs[k].key) == Some(fs[k].value)
  {
    if k > 0 { ValueFound(fs[1..], k - 1); }
  }

  lemma {:induction false} ValueWhere(fs: seq<PyField>, key: PyKey) returns (k: nat)
    requires ValueIn(fs, key).Some?
    ensures k < |fs| && fs[k].key == key && ValueIn(fs, key).value == fs[k].value
  {
    if fs[0].key == key {
      k := 0;
    } else {
      k := ValueWhere(fs[1..], key);
      k := k + 1;
    }
  }

  // ----- where `==` is equality as JSON ---------------------------------------------

  predicate Integral(x: real) { x.Floor as real == x }

  lemma IntsAreIntegral(n: int)
    ensures Integral(n as real)
  {
  }

  /** No bool, no 0 or 1, no int that some float equals, and no integral float, at any depth. */
  ghost predicate Unambiguous(fl: Floats, c: PyVal) {
    match c
    case Bool(_) => false
    case Int(i) => i != 0 && i != 1 && forall t :: fl.isRepr(t) ==> fl.value(t) != i as real
    case Float(f) => f.Finite? ==> !Integral(fl.value(f.repr))
    case List(items) => forall i :: 0 <= i < |items| ==> Unambiguous(fl, items[i])
    case Tuple(items) => forall i :: 0 <= i < |items| ==> Unambiguous(fl, items[i])
    case Dict(fs) => forall i :: 0 <= i < |fs| ==> Unambiguous(fl, fs[i].value)
    case _ => true
  }

  lemma NumbersExact(fl: Floats, a: PyVal, c: PyVal)
    requires Lawful(fl) && Accepted(fl, a) && Accepted(fl, c) && Unambiguous(fl, c) && NumberOf(fl, a).Some?
    requires PyEq(fl, a, c)
    ensures Denote(a) == Denote(c)
  {
    IntsAreIntegral(0);
    IntsAreIntegral(1);
    if a.Int? { IntsAreIntegral(a.i); }
  }

  lemma {:induction false} ItemsExact(fl: Floats, xs: seq<PyVal>, ys: seq<PyVal>)
    requires CheckItems(xs).None? && CheckItems(ys).None? && |xs| == |ys|
    requires forall i :: 0 <= i < |xs| && Check(xs[i]).None? && Check(ys[i]).None? ==> Denote(xs[i]) == Denote(ys[i])
    ensures DenoteItems(xs) == DenoteItems(ys)
  {
    ItemsDenoted(xs);
    ItemsDenoted(ys);
  }

  ghost function KeySet(fs: seq<PyField>): set<PyKey> { set i | 0 <= i < |fs| :: fs[i].key }

  lemma {:induction false} KeySetSize(fs: seq<PyField>)
    requires KeysDistinct(fs)
    ensures |KeySet(fs)| == |fs|
  {
    if fs != [] {
      KeySetSize(fs[1..]);
      assert KeySet(fs) == KeySet(fs[1..]) + {fs[0].key} by {
        forall k | k in KeySet(fs) ensures k in KeySet(fs[1..]) + {fs[0].key} {
          var i :| 0 <= i < |fs| && fs[i].key == k;
          if i > 0 { assert fs[1..][i - 1].key == k; }
        }
        forall k | k in KeySet(fs[1..]) ensures k in KeySet(fs) {
          var i :| 0 <= i < |fs[1..]| && fs[1..][i].key == k;
          assert fs[i + 1].key == k;
        }
        assert fs[0].key in KeySet(fs);
      }
      assert fs[0].key !in KeySet(fs[1..]);
    }
  }

  lemma SubsetOfSameSize<T>(a: set<T>, b: set<T>)
    requires a <= b && |a| == |b|
    ensures a == b
  {
    assert |b - a| == |b| - |a|;
  }

  /** Dicts of one size, the keys of one all found in the other, have the same keys. */
  lemma SameKeys(fs: seq<PyField>, gs: seq<PyField>)
    requires KeysDistinct(fs) && KeysDistinct(gs) && |fs| == |gs|
    requires forall i :: 0 <= i < |fs| ==> ValueIn(gs, fs[i].key).Some?
    ensures KeySet(fs) == KeySet(gs)
  {
    KeySetSize(fs);
    KeySetSize(gs);
    forall k | k in KeySet(fs) ensures k in KeySet(gs) {
      var i :| 0 <= i < |fs| && fs[i].key == k;
      var j := ValueWhere(gs, k);
      assert gs[j].key == k;
    }
    SubsetOfSameSize(KeySet(fs), KeySet(gs));
  }

  lemma FieldsExact(fl: Floats, fs: seq<PyField>, gs: seq<PyField>)
    requires CheckFields(fs).None? && CheckFields(gs).None? && KeysDistinct(fs) && KeysDistinct(gs) && |fs| == |gs|
    requires forall i :: 0 <= i < |fs| ==> ValueIn(gs, fs[i].key).Some?
    requires forall i :: 0 <= i < |fs| && Check(fs[i].value).None? && Check(ValueIn(gs, fs[i].key).value).None? ==>
               Denote(fs[i].value) == Denote(ValueIn(gs, fs[i].key).value)
    ensures DenoteFields(fs) == DenoteFields(gs)
  {
    hide Denote, Check, ValueIn;
    FieldsDenoted(fs);
    FieldsDenoted(gs);
    SameKeys(fs, gs);
    var a, b := DenoteFields(fs), DenoteFields(gs);
    forall n ensures (n in a <==> n in b) && (n in a ==> a[n] == b[n]) {
      if n in b {
        var j :| 0 <= j < |gs| && gs[j].key == StrKey(n);
        assert StrKey(n) in KeySet(gs);
      }
      if StrKey(n) in KeySet(fs) {
        var i :| 0 <= i < |fs| && fs[i].key == StrKey(n);
        var j := ValueWhere(gs, fs[i].key);
      }
    }
  }

  /** Equal to an unambiguous value means equal as JSON. */
  lemma {:induction false} EqualMeansSame(fl: Floats, a: PyVal, c: PyVal)
    requires Lawful(fl) && Accepted(fl, a) && Accepted(fl, c) && Unambiguous(fl, c) && PyEq(fl, a, c)
    ensures Denote(a) == Denote(c)
    decreases a
  {
    hide Lawful;
    if NumberOf(fl, a).Some? {
      NumbersExact(fl, a, c);
    } else if a.List? || a.Tuple? {
      ItemsAccepted(a.items);
      ItemsAccepted(c.items);
      forall i | 0 <= i < |a.items| ensures Denote(a.items[i]) == Denote(c.items[i]) {
        EqualMeansSame(fl, a.items[i], c.items[i]);
      }
      ItemsExact(fl, a.items, c.items);
    } else if a.Dict? {
      FieldsAccepted(a.fields);
      FieldsAccepted(c.fields);
      forall i | 0 <= i < |a.fields|
        ensures Check(ValueIn(c.fields, a.fields[i].key).value).None?
        ensures Denote(a.fields[i].value) == Denote(ValueIn(c.fields, a.fields[i].key).value)
      {
        var j := ValueWhere(c.fields, a.fields[i].key);
        EqualMeansSame(fl, a.fields[i].value, c.fields[j].value);
      }
      FieldsExact(fl, a.fields, c.fields);
    }
  }

  // ----- where it is not ------------------------------------------------------------

  /** An accepted value equals itself. */
  lemma {:induction false} EqualsItself(fl: Floats, v: PyVal)
    requires Accepted(fl, v)
    ensures PyEq(fl, v, v)
    decreases v
  {
    if v.List? || v.Tuple? {
      ItemsAccepted(v.items);
      forall i | 0 <= i < |v.items| ensures PyEq(fl, v.items[i], v.items[i]) { EqualsItself(fl, v.items[i]); }
    } else if v.Dict? {
      FieldsAccepted(v.fields);
      forall i | 0 <= i < |v.fields|
        ensures ValueIn(v.fields, v.fields[i].key) == Some(v.fields[i].value)
        ensures PyEq(fl, v.fields[i].value, v.fields[i].value)
      {
        ValueFound(v.fields, i);
        EqualsItself(fl, v.fields[i].value);
      }
    }
  }

  /** `a` is accepted, equal to `c`, and another JSON value. */
  ghost predicate Alias(fl: Floats, a: PyVal, c: PyVal) {
    Accepted(fl, a) && PyEq(fl, a, c) && (Check(c).None? ==> Denote(a) != Denote(c))
  }

  lemma NumberAlias(fl: Floats, c: PyVal) returns (a: PyVal)
    requires Accepted(fl, c) && !Unambiguous(fl, c) && NumberOf(fl, c).Some?
    ensures Alias(fl, a, c)
  {
    match c
    case Bool(b) => a := Int(if b then 1 else 0);
    case Int(i) =>
      if i == 0 || i == 1 {
        a := Bool(i == 1);
      } else {
        var t :| fl.isRepr(t) && fl.value(t) == i as real;
        a := Float(Finite(t));
      }
    case Float(f) =>
      a := Int(fl.value(f.repr).Floor);
  }

  lemma OneItemOff(fl: Floats, items: seq<PyVal>, k: nat, x: PyVal)
    requires CheckItems(items).None? && k < |items| && Alias(fl, x, items[k])
    requires forall i :: 0 <= i < |items| ==> Accepted(fl, items[i])
    ensures CheckItems(items[k := x]).None? && DenoteItems(items[k := x]) != DenoteItems(items)
    ensures forall i :: 0 <= i < |items| ==> OfPython(fl, items[k := x][i]) && PyEq(fl, items[k := x][i], items[i])
  {
    hide PyEq, Denote, OfPython;
    var ys := items[k := x];
    ItemsAccepted(items);
    ItemsAccepted(ys);
    ItemsDenoted(items);
    ItemsDenoted(ys);
    forall i | 0 <= i < |items| ensures PyEq(fl, ys[i], items[i]) {
      if i != k { EqualsItself(fl, items[i]); }
    }
  }

  /** One value of a dict exchanged for an alias, all keys kept. */
  lemma OneFieldOff(fl: Floats, fs: seq<PyField>, k: nat, x: PyVal)
    requires CheckFields(fs).None? && KeysDistinct(fs) && k < |fs| && Alias(fl, x, fs[k].value)
    requires forall i :: 0 <= i < |fs| ==> Accepted(fl, fs[i].value)
    ensures var gs := fs[k := PyField(fs[k].key, x)];
            && CheckFields(gs).None? && KeysDistinct(gs) && DenoteFields(gs) != DenoteFields(fs)
            && (forall i :: 0 <= i < |fs| ==> OfPython(fl, gs[i].value))
            && (forall i :: 0 <= i < |fs| ==>
                  ValueIn(fs, gs[i].key) == Some(fs[i].value) && PyEq(fl, gs[i].value, fs[i].value))
  {
    hide PyEq, Denote, OfPython, ValueIn;
    var gs := fs[k := PyField(fs[k].key, x)];
    FieldsAccepted(fs);
    FieldsAccepted(gs);
    FieldsDenoted(fs);
    FieldsDenoted(gs);
    forall i | 0 <= i < |fs| ensures ValueIn(fs, gs[i].key) == Some(fs[i].value) && PyEq(fl, gs[i].value, fs[i].value) {
      ValueFound(fs, i);
      if i != k { EqualsItself(fl, fs[i].value); }
    }
    assert DenoteFields(gs)[fs[k].key.name] != DenoteFields(fs)[fs[k].key.name];
  }

  /** Any other value has an alias: the same shape with one number told differently. */
  lemma {:induction false} HasAlias(fl: Floats, c: PyVal) returns (a: PyVal)
    requires Accepted(fl, c) && !Unambiguous(fl, c)
    ensures Alias(fl, a, c)
    decreases c
  {
    hide NumberOf, PyEq, Alias;
    match c
    case List(items) =>
      var k, x := ItemToExchange(fl, items);
      OneItemOff(fl, items, k, x);
      a := List(items[k := x]);
      ItemsAliased(fl, items[k := x], items);
    case Tuple(items) =>
      var k, x := ItemToExchange(fl, items);
      OneItemOff(fl, items, k, x);
      a := Tuple(items[k := x]);
      ItemsAliased(fl, items[k := x], items);
    case Dict(fs) =>
      FieldsAccepted(fs);
      var k :| 0 <= k < |fs| && !Unambiguous(fl, fs[k].value);
      var x := HasAlias(fl, fs[k].value);
      OneFieldOff(fl, fs, k, x);
      a := Dict(fs[k := PyField(fs[k].key, x)]);
      FieldsAliased(fl, a.fields, fs);
    case _ =>
      ElseANumber(fl, c);
      a := NumberAlias(fl, c);
  }

  lemma ElseANumber(fl: Floats, c: PyVal)
    requires Accepted(fl, c) && !Unambiguous(fl, c) && !c.List? && !c.Tuple? && !c.Dict?
    ensures NumberOf(fl, c).Some?
  {
  }

  lemma {:induction false} ItemToExchange(fl: Floats, items: seq<PyVal>) returns (k: nat, x: PyVal)
    requires CheckItems(items).None? && exists i :: 0 <= i < |items| && !Unambiguous(fl, items[i])
    requires forall i :: 0 <= i < |items| ==> OfPython(fl, items[i])
    ensures k < |items| && Alias(fl, x, items[k])
    ensures forall i :: 0 <= i < |items| ==> Accepted(fl, items[i])
    decreases items
  {
    hide Unambiguous, OfPython, Alias, Check;
    ItemsAccepted(items);
    k :| 0 <= k < |items| && !Unambiguous(fl, items[k]);
    x := HasAlias(fl, items[k]);
  }

  lemma ItemsAliased(fl: Floats, xs: seq<PyVal>, ys: seq<PyVal>)
    requires CheckItems(xs).None? && |xs| == |ys|
    requires forall i :: 0 <= i < |xs| ==> OfPython(fl, xs[i]) && PyEq(fl, xs[i], ys[i])
    requires CheckItems(ys).None? ==> DenoteItems(xs) != DenoteItems(ys)
    ensures Alias(fl, List(xs), List(ys)) && Alias(fl, Tuple(xs), Tuple(ys))
  {
  }

  lemma FieldsAliased(fl: Floats, fs: seq<PyField>, gs: seq<PyField>)
    requires CheckFields(fs).None? && KeysDistinct(fs) && |fs| == |gs|
    requires forall i :: 0 <= i < |fs| ==> OfPython(fl, fs[i].value)
    requires forall i :: 0 <= i < |fs| ==>
        ValueIn(gs, fs[i].key) == Some(gs[i].value) && PyEq(fl, fs[i].value, gs[i].value)
    requires CheckFields(gs).None? ==> DenoteFields(fs) != DenoteFields(gs)
    ensures Alias(fl, Dict(fs), Dict(gs))
  {
  }

  /** Every accepted value that Python takes for equal to `c` is `c` as JSON, exactly when
      `c` is unambiguous: a condition on `c` alone, which whoever writes it can check. */
  lemma EqualityIsExactIff(fl: Floats, c: PyVal)
    requires Lawful(fl) && Accepted(fl, c)
    ensures (forall a :: Accepted(fl, a) && PyEq(fl, a, c) ==> Denote(a) == Denote(c)) <==> Unambiguous(fl, c)
  {
    if Unambiguous(fl, c) {
      forall a | Accepted(fl, a) && PyEq(fl, a, c) ensures Denote(a) == Denote(c) { EqualMeansSame(fl, a, c); }
    } else {
      var a := HasAlias(fl, c);
      assert Accepted(fl, a) && PyEq(fl, a, c) && Denote(a) != Denote(c);
    }
  }
}
