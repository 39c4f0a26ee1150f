/** Code-point order on strings, and the stable sort that orders items by a string key. */
module Text {

  /** Lexicographic comparison by code point, as Python compares `str` values. */
  predicate Less(a: string, b: string) {
    if b == "" then false
    else if a == "" then true
    else a[0] < b[0] || (a[0] == b[0] && Less(a[1..], b[1..]))
  }

  /** A proper beginning of `b`, or smaller where the two first differ. */
  ghost predicate Precedes(a: string, b: string) {
    || (|a| < |b| && b[..|a|] == a)
    || exists k :: 0 <= k < |a| && k < |b| && a[..k] == b[..k] && a[k] < b[k]
  }

  lemma {:induction false} LessIsPrecedes(a: string, b: string)
    ensures Less(a, b) <==> Precedes(a, b)
  {
    if a != "" && b != "" {
      if a[0] == b[0] {
        LessIsPrecedes(a[1..], b[1..]);
        PrecedesStep(a, b);
      } else if a[0] < b[0] {
        assert a[..0] == b[..0];
      }
    }
  }

  lemma PrecedesStep(a: string, b: string)
    requires a != "" && b != "" && a[0] == b[0]
    ensures Precedes(a, b) <==> Precedes(a[1..], b[1..])
  {
    var x, y := a[1..], b[1..];
    assert a == [a[0]] + x && b == [b[0]] + y;
    if |a| < |b| { assert b[..|a|] == [b[0]] + y[..|x|]; }
    if k :| 0 <= k < |a| && k < |b| && a[..k] == b[..k] && a[k] < b[k] {
      assert x[..k - 1] == a[..k][1..] && y[..k - 1] == b[..k][1..] && x[k - 1] < y[k - 1];
    }
    if k :| 0 <= k < |x| && k < |y| && x[..k] == y[..k] && x[k] < y[k] {
      assert a[..k + 1] == [a[0]] + x[..k] && b[..k + 1] == [b[0]] + y[..k] && a[k + 1] < b[k + 1];
    }
  }

  lemma {:induction false} LessIrreflexive(a: string)
    ensures !Less(a, a)
  {
    if a != "" { LessIrreflexive(a[1..]); }
  }

  lemma {:induction false} LessTransitive(a: string, b: string, c: string)
    requires Less(a, b) && Less(b, c)
    ensures Less(a, c)
  {
    if a != "" && a[0] == b[0] && b[0] == c[0] {
      LessTransitive(a[1..], b[1..], c[1..]);
    }
  }

  lemma {:induction false} LessTotal(a: string, b: string)
    ensures Less(a, b) || a == b || Less(b, a)
  {
    if a != "" && b != "" && a[0] == b[0] {
      LessTotal(a[1..], b[1..]);
      assert a == [a[0]] + a[1..] && b == [b[0]] + b[1..];
    }
  }

  /** Transitivity with one step that may be an equality. */
  lemma LessEqThenLess(a: string, b: string, c: string)
    requires !Less(b, a) && Less(b, c)
    ensures Less(a, c)
  {
    LessTotal(a, b);
    if Less(a, b) { LessTransitive(a, b, c); }
  }

  ghost predicate Sorted<T>(xs: seq<T>, key: T -> string) {
    forall i, j :: 0 <= i < j < |xs| ==> !Less(key(xs[j]), key(xs[i]))
  }

  ghost predicate StrictlySorted<T>(xs: seq<T>, key: T -> string) {
    forall i, j :: 0 <= i < j < |xs| ==> Less(key(xs[i]), key(xs[j]))
  }

  function Insert<T>(x: T, xs: seq<T>, key: T -> string): (r: seq<T>)
    ensures multiset(r) == multiset{x} + multiset(xs)
  {
    if xs == [] || !Less(key(xs[0]), key(x)) then [x] + xs
    else
      assert xs == [xs[0]] + xs[1..];
      [xs[0]] + Insert(x, xs[1..], key)
  }

  /** Python's `sorted(xs, key=key)`: a permutation in key order, ties keeping their order. */
  function Sort<T>(xs: seq<T>, key: T -> string): (r: seq<T>)
    ensures multiset(r) == multiset(xs)
  {
    if xs == [] then []
    else
      assert xs == [xs[0]] + xs[1..];
      Insert(xs[0], Sort(xs[1..], key), key)
  }

  lemma SameElements<T>(xs: seq<T>, ys: seq<T>)
    requires multiset(xs) == multiset(ys)
    ensures |xs| == |ys|
    ensures forall x :: x in xs <==> x in ys
  {
    assert |multiset(xs)| == |xs| && |multiset(ys)| == |ys|;
    forall x ensures x in xs <==> x in ys {
      assert x in xs <==> x in multiset(xs);
      assert x in ys <==> x in multiset(ys);
    }
  }

  lemma {:induction false} InsertSorted<T>(x: T, xs: seq<T>, key: T -> string)
    requires Sorted(xs, key)
    ensures Sorted(Insert(x, xs, key), key)
  {
    var r := Insert(x, xs, key);
    if xs == [] {
    } else if !Less(key(xs[0]), key(x)) {
      forall j | 0 <= j < |xs| ensures !Less(key(xs[j]), key(x)) {
        if Less(key(xs[j]), key(x)) {
          if j > 0 { LessEqThenLess(key(xs[0]), key(xs[j]), key(x)); }
        }
      }
    } else {
      InsertSorted(x, xs[1..], key);
      var t := Insert(x, xs[1..], key);
      assert r == [xs[0]] + t;
      forall j | 0 <= j < |t| ensures !Less(key(t[j]), key(xs[0])) {
        assert t[j] in multiset(t);
        if t[j] != x {
          assert t[j] in xs[1..];
        } else if Less(key(x), key(xs[0])) {
          LessTransitive(key(x), key(xs[0]), key(x));
          LessIrreflexive(key(x));
        }
      }
    }
  }

  lemma {:induction false} SortSorted<T>(xs: seq<T>, key: T -> string)
    ensures Sorted(Sort(xs, key), key)
  {
    if xs != [] {
      SortSorted(xs[1..], key);
      InsertSorted(xs[0], Sort(xs[1..], key), key);
    }
  }

  ghost predicate DistinctKeys<T>(xs: seq<T>, key: T -> string) {
    forall i, j :: 0 <= i < j < |xs| ==> key(xs[i]) != key(xs[j])
  }

  /** Sorting items whose keys are pairwise distinct gives strictly increasing keys. */
  lemma {:induction false} SortStrict<T>(xs: seq<T>, key: T -> string)
    requires DistinctKeys(xs, key)
    ensures StrictlySorted(Sort(xs, key), key)
  {
    var r := Sort(xs, key);
    SortSorted(xs, key);
    SortDistinct(xs, key);
    forall i, j | 0 <= i < j < |r| ensures Less(key(r[i]), key(r[j])) {
      LessTotal(key(r[i]), key(r[j]));
    }
  }

  lemma {:induction false} InsertDistinct<T>(x: T, xs: seq<T>, key: T -> string)
    requires DistinctKeys(xs, key)
    requires forall y :: y in xs ==> key(y) != key(x)
    ensures DistinctKeys(Insert(x, xs, key), key)
  {
    if xs != [] && Less(key(xs[0]), key(x)) {
      InsertDistinct(x, xs[1..], key);
      var t := Insert(x, xs[1..], key);
      forall j | 0 <= j < |t| ensures key(t[j]) != key(xs[0]) {
        assert t[j] in multiset(t);
        if t[j] != x { assert t[j] in xs[1..]; }
      }
    }
  }

  lemma {:induction false} SortDistinct<T>(xs: seq<T>, key: T -> string)
    requires DistinctKeys(xs, key)
    ensures DistinctKeys(Sort(xs, key), key)
  {
    if xs != [] {
      SortDistinct(xs[1..], key);
      SameElements(Sort(xs[1..], key), xs[1..]);
      forall y | y in Sort(xs[1..], key) ensures key(y) != key(xs[0]) {
        assert y in multiset(xs[1..]);
        assert y in xs[1..];
      }
      InsertDistinct(xs[0], Sort(xs[1..], key), key);
    }
  }

  // ----- sets of names --------------------------------------------------------------

  lemma {:induction false} LeastExists(s: set<string>)
    requires s != {}
    ensures exists x :: x in s && forall y <- s :: !Less(y, x)
  {
    hide Less;
    var a :| a in s;
    if s == {a} {
      LessIrreflexive(a);
      assert forall y <- s :: !Less(y, a);
    } else {
      var rest := s - {a};
      assert rest != {} by { assert s != {a}; }
      LeastExists(rest);
      var m :| m in rest && forall y <- rest :: !Less(y, m);
      if Less(a, m) {
        forall y <- s ensures !Less(y, a) {
          if y == a { LessIrreflexive(a); }
          else if Less(y, a) { LessTransitive(y, a, m); }
        }
        assert a in s;
      } else {
        assert forall y <- s :: !Less(y, m);
        assert m in s;
      }
    }
  }

  function Least(s: set<string>): (x: string)
    requires s != {}
    ensures x in s && forall y <- s :: !Less(y, x)
  {
    LeastExists(s);
    assert forall x, y | x in s && y in s && (forall z <- s :: !Less(z, x))
        && (forall z <- s :: !Less(z, y)) :: x == y by {
      forall x, y | x in s && y in s && (forall z <- s :: !Less(z, x)) && (forall z <- s :: !Less(z, y))
          ensures x == y {
        LessTotal(x, y);
      }
    }
    var x :| x in s && forall y <- s :: !Less(y, x);
    x
  }

  /** Python's `sorted` of a set of strings. */
  function SortNames(s: set<string>): (names: seq<string>)
    ensures forall x :: x in names <==> x in s
    ensures forall i, j :: 0 <= i < j < |names| ==> Less(names[i], names[j])
  {
    if s == {} then []
    else
      var x := Least(s);
      var rest := SortNames(s - {x});
      assert forall y <- rest :: Less(x, y) by {
        forall y <- rest ensures Less(x, y) { LessTotal(x, y); }
      }
      [x] + rest
  }
}
