/** Toolset flow analysis (flow.py): which sensitive classes a set of tools can carry to an
    external sink, collapsed to one finding per class. */
module Flow {
  import opened Text
  import opened Descriptor

  datatype Finding = Finding(sourceClass: DataClass, sinkClass: DataClass, readers: seq<string>, sinks: seq<string>) {
    function PathCount(): nat { |readers| * |sinks| }
  }

  datatype Report = Report(findings: seq<Finding>, paths: seq<(string, string)>, unlabeled: seq<string>)

  const TRACKED: seq<DataClass> := [Secret, Credential, Pii]

  function Itself(s: string): string { s }

  function SortedNames(names: seq<string>): seq<string> { Sort(names, Itself) }

  predicate IsSink(t: ToolVersion) { t.asserted.Some? && t.asserted.value.ExternalSink() }

  /** Reads the class and is not asserted to strip it from what it returns. */
  predicate IsReader(t: ToolVersion, c: DataClass) {
    t.asserted.Some? && c in t.asserted.value.readsData && !t.asserted.value.declassifies
  }

  function SinkNames(tools: seq<ToolVersion>): seq<string> {
    if tools == [] then []
    else (if IsSink(tools[0]) then [tools[0].name] else []) + SinkNames(tools[1..])
  }

  function ReaderNames(tools: seq<ToolVersion>, c: DataClass): seq<string> {
    if tools == [] then []
    else (if IsReader(tools[0], c) then [tools[0].name] else []) + ReaderNames(tools[1..], c)
  }

  function UnlabeledNames(tools: seq<ToolVersion>): seq<string> {
    if tools == [] then []
    else (if tools[0].asserted.None? then [tools[0].name] else []) + UnlabeledNames(tools[1..])
  }

  /** `itertools.product`: every reader with every sink, readers outermost. */
  function Product(rs: seq<string>, ss: seq<string>): seq<(string, string)> {
    if rs == [] then [] else PairWith(rs[0], ss) + Product(rs[1..], ss)
  }

  function PairWith(r: string, ss: seq<string>): seq<(string, string)> {
    if ss == [] then [] else [(r, ss[0])] + PairWith(r, ss[1..])
  }

  /** The finding of one class, if the toolset has both a reader and a sink. */
  function FindingOf(tools: seq<ToolVersion>, c: DataClass): seq<Finding> {
    var rs, ss := ReaderNames(tools, c), SinkNames(tools);
    if rs == [] || ss == [] then [] else [Finding(c, External, SortedNames(rs), SortedNames(ss))]
  }

  type Accepted = set<(DataClass, DataClass)>

  function FindingsOf(tools: seq<ToolVersion>, accepted: Accepted, cs: seq<DataClass>): seq<Finding> {
    if cs == [] then []
    else
      FindingsOf(tools, accepted, cs[..|cs| - 1])
      + if (cs[|cs| - 1], External) in accepted then [] else FindingOf(tools, cs[|cs| - 1])
  }

  function PathsOf(fs: seq<Finding>): seq<(string, string)> {
    if fs == [] then [] else PathsOf(fs[..|fs| - 1]) + Product(fs[|fs| - 1].readers, fs[|fs| - 1].sinks)
  }

  function TotalPaths(fs: seq<Finding>): nat {
    if fs == [] then 0 else TotalPaths(fs[..|fs| - 1]) + fs[|fs| - 1].PathCount()
  }

  /** `analyze_toolset`. */
  method Analyze(tools: seq<ToolVersion>, accepted: Accepted) returns (r: Report)
    ensures r.findings == FindingsOf(tools, accepted, TRACKED)
    ensures r.paths == PathsOf(r.findings)
    ensures r.unlabeled == SortedNames(UnlabeledNames(tools))
    ensures |r.paths| == TotalPaths(r.findings)
  {
    hide Sort, Product, SinkNames, ReaderNames, UnlabeledNames;
    var sinks := SinkNames(tools);
    var findings: seq<Finding> := [];
    var paths: seq<(string, string)> := [];
    for i := 0 to |TRACKED|
      invariant findings == FindingsOf(tools, accepted, TRACKED[..i])
      invariant paths == PathsOf(findings)
    {
      var c := TRACKED[i];
      assert TRACKED[..i + 1][..i] == TRACKED[..i];
      if (c, External) in accepted { continue; }
      var readers := ReaderNames(tools, c);
      if readers == [] || sinks == [] { continue; }
      var f := Finding(c, External, SortedNames(readers), SortedNames(sinks));
      assert (findings + [f])[..|findings|] == findings;
      findings := findings + [f];
      paths := paths + Product(f.readers, f.sinks);
    }
    assert TRACKED[..|TRACKED|] == TRACKED;
    PathsCounted(findings);
    return Report(findings, paths, SortedNames(UnlabeledNames(tools)));
  }

  // ----- conservation ---------------------------------------------------------------

  lemma {:induction false} ProductSize(rs: seq<string>, ss: seq<string>)
    ensures |Product(rs, ss)| == |rs| * |ss|
  {
    if rs != [] {
      PairWithSize(rs[0], ss);
      ProductSize(rs[1..], ss);
      assert |rs| * |ss| == |ss| + |rs[1..]| * |ss|;
    }
  }

  lemma {:induction false} PairWithSize(r: string, ss: seq<string>)
    ensures |PairWith(r, ss)| == |ss|
  {
    if ss != [] { PairWithSize(r, ss[1..]); }
  }

  /** No pairwise path is lost or counted twice by collapsing to findings. */
  lemma {:induction false} PathsCounted(fs: seq<Finding>)
    ensures |PathsOf(fs)| == TotalPaths(fs)
  {
    if fs != [] {
      PathsCounted(fs[..|fs| - 1]);
      ProductSize(fs[|fs| - 1].readers, fs[|fs| - 1].sinks);
    }
  }

  lemma {:induction false} ProductHolds(rs: seq<string>, ss: seq<string>, p: (string, string))
    ensures p in Product(rs, ss) <==> p.0 in rs && p.1 in ss
  {
    if rs != [] {
      PairWithHolds(rs[0], ss, p);
      ProductHolds(rs[1..], ss, p);
      assert rs == [rs[0]] + rs[1..];
    }
  }

  lemma {:induction false} PairWithHolds(r: string, ss: seq<string>, p: (string, string))
    ensures p in PairWith(r, ss) <==> p.0 == r && p.1 in ss
  {
    if ss != [] {
      PairWithHolds(r, ss[1..], p);
      assert ss == [ss[0]] + ss[1..];
    }
  }

  /** Pair by pair: every reader with every sink, readers outermost. */
  lemma {:induction false} ProductAt(rs: seq<string>, ss: seq<string>, i: nat, j: nat)
    requires i < |rs| && j < |ss|
    ensures i * |ss| + j < |Product(rs, ss)| && Product(rs, ss)[i * |ss| + j] == (rs[i], ss[j])
  {
    PairWithSize(rs[0], ss);
    ProductSize(rs, ss);
    if i == 0 {
      PairWithAt(rs[0], ss, j);
    } else {
      ProductAt(rs[1..], ss, i - 1, j);
      assert i * |ss| + j == |ss| + ((i - 1) * |ss| + j);
    }
  }

  lemma {:induction false} PairWithAt(r: string, ss: seq<string>, j: nat)
    requires j < |ss|
    ensures j < |PairWith(r, ss)| && PairWith(r, ss)[j] == (r, ss[j])
  {
    if j > 0 { PairWithAt(r, ss[1..], j - 1); }
  }

  // ----- completeness ---------------------------------------------------------------

  lemma {:induction false} NamesFromTools(tools: seq<ToolVersion>, c: DataClass, n: string)
    ensures n in SinkNames(tools) <==> exists t :: t in tools && IsSink(t) && t.name == n
    ensures n in ReaderNames(tools, c) <==> exists t :: t in tools && IsReader(t, c) && t.name == n
  {
    if tools != [] {
      NamesFromTools(tools[1..], c, n);
      assert forall t :: t in tools <==> t == tools[0] || t in tools[1..];
    }
  }

  lemma NonemptyNames(tools: seq<ToolVersion>, c: DataClass)
    ensures SinkNames(tools) != [] <==> exists t :: t in tools && IsSink(t)
    ensures ReaderNames(tools, c) != [] <==> exists t :: t in tools && IsReader(t, c)
  {
    if SinkNames(tools) != [] { NamesFromTools(tools, c, SinkNames(tools)[0]); }
    if ReaderNames(tools, c) != [] { NamesFromTools(tools, c, ReaderNames(tools, c)[0]); }
    if t :| t in tools && IsSink(t) { NamesFromTools(tools, c, t.name); }
    if t :| t in tools && IsReader(t, c) { NamesFromTools(tools, c, t.name); }
  }

  lemma FindingHasClass(tools: seq<ToolVersion>, c: DataClass, f: Finding)
    ensures f in FindingOf(tools, c) ==> f.sourceClass == c
  {
  }

  lemma {:induction false} FindingPerClass(tools: seq<ToolVersion>, accepted: Accepted, cs: seq<DataClass>, f: Finding)
    ensures f in FindingsOf(tools, accepted, cs) <==>
              f.sourceClass in cs && (f.sourceClass, External) !in accepted && f in FindingOf(tools, f.sourceClass)
  {
    hide FindingOf;
    if cs != [] {
      var front, c := cs[..|cs| - 1], cs[|cs| - 1];
      FindingPerClass(tools, accepted, front, f);
      assert f.sourceClass in cs <==> f.sourceClass in front || f.sourceClass == c by { assert cs == front + [c]; }
      FindingHasClass(tools, c, f);
    }
  }

  /** A tracked class is reported exactly when some tool reads it, some tool can send data
      out, and the operator has not accepted that flow; the finding names all of them. */
  lemma ReportedExactly(tools: seq<ToolVersion>, accepted: Accepted, c: DataClass)
    ensures (exists f :: f in FindingsOf(tools, accepted, TRACKED) && f.sourceClass == c) <==>
              c in TRACKED && (c, External) !in accepted
              && (exists t :: t in tools && IsReader(t, c)) && (exists t :: t in tools && IsSink(t))
    ensures forall f <- FindingsOf(tools, accepted, TRACKED) :: f.sourceClass == c ==>
              f.sinkClass == External
              && multiset(f.readers) == multiset(ReaderNames(tools, c))
                  && multiset(f.sinks) == multiset(SinkNames(tools))
  {
    hide SinkNames, ReaderNames, FindingsOf, IsReader, IsSink, Sort;
    NonemptyNames(tools, c);
    forall f ensures f in FindingsOf(tools, accepted, TRACKED) <==>
                 f.sourceClass in TRACKED && (f.sourceClass, External) !in accepted
                     && f in FindingOf(tools, f.sourceClass)
    {
      FindingPerClass(tools, accepted, TRACKED, f);
    }
    if FindingOf(tools, c) != [] {
      assert FindingOf(tools, c)[0] in FindingOf(tools, c) && FindingOf(tools, c)[0].sourceClass == c;
    }
  }

  /** Some tool is asserted to read the class and not to strip it. */
  ghost predicate Reads(tools: seq<ToolVersion>, c: DataClass, n: string) {
    exists t :: t in tools && t.name == n
      && t.asserted.Some? && c in t.asserted.value.readsData && !t.asserted.value.declassifies
  }

  /** Some tool is asserted to write to the outside. */
  ghost predicate Sends(tools: seq<ToolVersion>, n: string) {
    exists t :: t in tools && t.name == n && t.asserted.Some? && External in t.asserted.value.writesData
  }

  /** The same by name: only secrets, credentials and personal data are looked for. Each is
      reported exactly when some tool reads it, some tool sends data out and the pair is not
      accepted; the finding names just these tools, in order. */
  lemma ReportedByName(tools: seq<ToolVersion>, accepted: Accepted, c: DataClass)
    ensures (exists f :: f in FindingsOf(tools, accepted, TRACKED) && f.sourceClass == c) <==>
              && (c == Secret || c == Credential || c == Pii) && (c, External) !in accepted
              && (exists n :: Reads(tools, c, n)) && (exists n :: Sends(tools, n))
    ensures forall f <- FindingsOf(tools, accepted, TRACKED) :: f.sourceClass == c ==>
              && f.sinkClass == External
              && Sorted(f.readers, Itself) && Sorted(f.sinks, Itself)
              && (forall n :: n in f.readers <==> Reads(tools, c, n))
              && (forall n :: n in f.sinks <==> Sends(tools, n))
  {
    hide FindingsOf, Sort, Sorted, SinkNames, ReaderNames;
    ReportedExactly(tools, accepted, c);
    ToolsByName(tools, c);
    forall f <- FindingsOf(tools, accepted, TRACKED) | f.sourceClass == c
        ensures Sorted(f.readers, Itself) && Sorted(f.sinks, Itself)
        ensures (forall n :: n in f.readers <==> n in ReaderNames(tools, c))
        ensures (forall n :: n in f.sinks <==> n in SinkNames(tools))
    {
      FindingPerClass(tools, accepted, TRACKED, f);
      FindingSorted(tools, c, f);
      SameElements(f.readers, ReaderNames(tools, c));
      SameElements(f.sinks, SinkNames(tools));
    }
  }

  lemma FindingSorted(tools: seq<ToolVersion>, c: DataClass, f: Finding)
    requires f in FindingOf(tools, c)
    ensures Sorted(f.readers, Itself) && Sorted(f.sinks, Itself)
  {
    hide Sort, Sorted;
    SortSorted(ReaderNames(tools, c), Itself);
    SortSorted(SinkNames(tools), Itself);
  }

  lemma ToolsByName(tools: seq<ToolVersion>, c: DataClass)
    ensures forall n :: n in ReaderNames(tools, c) <==> Reads(tools, c, n)
    ensures forall n :: n in SinkNames(tools) <==> Sends(tools, n)
    ensures (exists t :: t in tools && IsReader(t, c)) <==> exists n :: Reads(tools, c, n)
    ensures (exists t :: t in tools && IsSink(t)) <==> exists n :: Sends(tools, n)
  {
    hide SinkNames, ReaderNames;
    forall n ensures n in ReaderNames(tools, c) <==> Reads(tools, c, n)
        ensures n in SinkNames(tools) <==> Sends(tools, n) {
      NamesFromTools(tools, c, n);
    }
    if t :| t in tools && IsReader(t, c) { assert Reads(tools, c, t.name); }
    if t :| t in tools && IsSink(t) { assert Sends(tools, t.name); }
  }

  /** The classes come in this order, at most one finding each. */
  lemma FindingsInOrder(tools: seq<ToolVersion>, accepted: Accepted)
    ensures FindingsOf(tools, accepted, TRACKED)
         == FindingsOf(tools, accepted, [Secret]) + FindingsOf(tools, accepted, [Credential])
            + FindingsOf(tools, accepted, [Pii])
    ensures forall c :: |FindingsOf(tools, accepted, [c])| <= 1
  {
    hide FindingOf;
    forall c: DataClass ensures FindingsOf(tools, accepted, [c])
        == if (c, External) in accepted then [] else FindingOf(tools, c) {
      assert [c][..0] == [];
    }
    assert TRACKED[..2] == [Secret, Credential] && TRACKED[..2][..1] == [Secret] && TRACKED[..2][..1][..0] == [];
    forall c: DataClass ensures |FindingOf(tools, c)| <= 1 { OneFinding(tools, c); }
  }

  lemma OneFinding(tools: seq<ToolVersion>, c: DataClass)
    ensures |FindingOf(tools, c)| <= 1
  {
  }

  /** A tool nobody vouched for is listed as such, and nobody else is. */
  lemma {:induction false} UnlabeledByName(tools: seq<ToolVersion>, n: string)
    ensures n in UnlabeledNames(tools) <==> exists t :: t in tools && t.name == n && t.asserted.None?
  {
    if tools != [] {
      UnlabeledByName(tools[1..], n);
      assert forall t :: t in tools <==> t == tools[0] || t in tools[1..];
    }
  }

  // ----- monotonicity and acceptance ------------------------------------------------

  lemma NamesConcat(a: seq<ToolVersion>, b: seq<ToolVersion>, c: DataClass)
    ensures SinkNames(a + b) == SinkNames(a) + SinkNames(b)
    ensures ReaderNames(a + b, c) == ReaderNames(a, c) + ReaderNames(b, c)
  {
    hide SinkNames, ReaderNames;
    SinksConcat(a, b);
    ReadersConcat(a, b, c);
  }

  lemma {:induction false} SinksConcat(a: seq<ToolVersion>, b: seq<ToolVersion>)
    ensures SinkNames(a + b) == SinkNames(a) + SinkNames(b)
  {
    hide IsSink;
    if a == [] {
      assert a + b == b;
    } else {
      assert (a + b)[1..] == a[1..] + b && (a + b)[0] == a[0];
      SinksConcat(a[1..], b);
    }
  }

  lemma {:induction false} ReadersConcat(a: seq<ToolVersion>, b: seq<ToolVersion>, c: DataClass)
    ensures ReaderNames(a + b, c) == ReaderNames(a, c) + ReaderNames(b, c)
  {
    hide IsReader;
    if a == [] {
      assert a + b == b;
    } else {
      assert (a + b)[1..] == a[1..] + b && (a + b)[0] == a[0];
      ReadersConcat(a[1..], b, c);
    }
  }

  lemma NamesGrow(a: seq<ToolVersion>, t: ToolVersion, b: seq<ToolVersion>, c: DataClass)
    ensures multiset(SinkNames(a + b)) <= multiset(SinkNames(a + [t] + b))
    ensures multiset(ReaderNames(a + b, c)) <= multiset(ReaderNames(a + [t] + b, c))
  {
    NamesConcat(a, b, c);
    NamesConcat(a, [t], c);
    NamesConcat(a + [t], b, c);
  }

  /** Adding any tool anywhere keeps every finding's class and only grows who is in it. */
  lemma AddingAToolGrows(a: seq<ToolVersion>, t: ToolVersion, b: seq<ToolVersion>, accepted: Accepted, f: Finding)
    requires f in FindingsOf(a + b, accepted, TRACKED)
    ensures exists g :: g in FindingsOf(a + [t] + b, accepted, TRACKED)
              && g.sourceClass == f.sourceClass && g.sinkClass == f.sinkClass
              && multiset(f.readers) <= multiset(g.readers) && multiset(f.sinks) <= multiset(g.sinks)
  {
    hide SinkNames, ReaderNames, FindingsOf;
    var c := f.sourceClass;
    FindingPerClass(a + b, accepted, TRACKED, f);
    NamesGrow(a, t, b, c);
    var more := a + [t] + b;
    assert |ReaderNames(a + b, c)| == |multiset(ReaderNames(a + b, c))|
        && |SinkNames(a + b)| == |multiset(SinkNames(a + b))|;
    assert ReaderNames(a + b, c)[0] in multiset(ReaderNames(more, c))
        && SinkNames(a + b)[0] in multiset(SinkNames(more));
    var g := Finding(c, External, SortedNames(ReaderNames(more, c)), SortedNames(SinkNames(more)));
    FindingPerClass(more, accepted, TRACKED, g);
  }

  function Unaccepted(fs: seq<Finding>, accepted: Accepted): seq<Finding> {
    if fs == [] then []
    else
      var f := fs[|fs| - 1];
      Unaccepted(fs[..|fs| - 1], accepted) + if (f.sourceClass, f.sinkClass) in accepted then [] else [f]
  }

  lemma UnacceptedConcat(fs: seq<Finding>, gs: seq<Finding>, accepted: Accepted)
    requires |gs| <= 1
    ensures Unaccepted(fs + gs, accepted) == Unaccepted(fs, accepted) + Unaccepted(gs, accepted)
  {
    if gs == [] {
      assert fs + gs == fs;
    } else {
      assert (fs + gs)[..|fs|] == fs && gs[..0] == [];
    }
  }

  /** Accepting flows removes exactly the findings of those classes and touches no other. */
  lemma {:induction false} AcceptingRemovesExactly(tools: seq<ToolVersion>, accepted: Accepted, cs: seq<DataClass>)
    ensures FindingsOf(tools, accepted, cs) == Unaccepted(FindingsOf(tools, {}, cs), accepted)
  {
    if cs != [] {
      var front, c := cs[..|cs| - 1], cs[|cs| - 1];
      AcceptingRemovesExactly(tools, accepted, front);
      UnacceptedConcat(FindingsOf(tools, {}, front), FindingOf(tools, c), accepted);
    }
  }
}
