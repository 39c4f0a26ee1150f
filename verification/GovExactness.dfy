/** How exactly argument constraints bind (govgrants.py `scope_failures`): Python's `==` is
    not equality as JSON, and which constraints are safe from the difference. */
module GovExactness {
  import opened Wrappers
  import opened CanonicalJson
  import opened Documents
  import opened CanonicalJsonMeaning
  import opened PyEquality
  import opened GovGrants
  import opened GovAcceptance
  import opened GovScope

  /** The caller's arguments are ones the program hashes. */
  ghost predicate Callable(tr: Trust, r: Request) { r.args.Dict? && Accepted(tr.floats, r.args) }

  /** A constraint on an argument, not on the tool or the source. */
  predicate OnArgument(c: PyField) { c.key !in {StrKey("tool"), StrKey("source")} }

  /** The argument a constraint is about, as JSON, is the constraint's value. */
  ghost predicate MetExactly(tr: Trust, r: Request, c: PyField) {
    && Callable(tr, r) && ValueIn(r.args.fields, c.key).Some?
        && Accepted(tr.floats, ValueIn(r.args.fields, c.key).value)
    && Accepted(tr.floats, c.value) && Denote(ValueIn(r.args.fields, c.key).value) == Denote(c.value)
  }

  lemma PartAccepted(fl: Floats, fs: seq<PyField>, key: PyKey)
    requires Accepted(fl, Dict(fs)) && ValueIn(fs, key).Some?
    ensures Accepted(fl, ValueIn(fs, key).value)
  {
    hide ValueIn;
    FieldsAccepted(fs);
    var k := ValueWhere(fs, key);
  }

  /** A call in scope meets every unambiguous constraint exactly. */
  lemma UnambiguousConstraintsBind(tr: Trust, p: PyVal, r: Request, i: nat)
    requires Lawful(tr.floats) && Callable(tr, r) && ScopeCodes(tr, p, r) == []
    requires i < |Constraints(p)| && OnArgument(Constraints(p)[i])
    requires Accepted(tr.floats, Constraints(p)[i].value) && Unambiguous(tr.floats, Constraints(p)[i].value)
    ensures MetExactly(tr, r, Constraints(p)[i])
  {
    hide PyEq, Unambiguous, Lawful, OfPython, Check, Permits, TextAt, RightTool, Constraints, ValueIn;
    var c := Constraints(p)[i];
    InScope(tr, p, r);
    assert Fulfilled(tr, c, r.args);
    PartAccepted(tr.floats, r.args.fields, c.key);
    EqualMeansSame(tr.floats, ValueIn(r.args.fields, c.key).value, c.value);
  }

  // ----- the other constraints ------------------------------------------------------

  /** The same arguments with one value exchanged. */
  function Exchanged(r: Request, k: nat, x: PyVal): Request
    requires r.args.Dict? && k < |r.args.fields|
  {
    r.(args := Dict(r.args.fields[k := PyField(r.args.fields[k].key, x)]))
  }

  lemma {:induction false} ExchangedValue(fs: seq<PyField>, k: nat, x: PyVal, key: PyKey)
    requires k < |fs| && KeysDistinct(fs)
    ensures ValueIn(fs[k := PyField(fs[k].key, x)], key) == if key == fs[k].key then Some(x) else ValueIn(fs, key)
  {
    var gs := fs[k := PyField(fs[k].key, x)];
    if k == 0 {
      assert gs[1..] == fs[1..];
    } else if fs[0].key != key {
      assert gs[1..] == fs[1..][k - 1 := PyField(fs[k].key, x)];
      ExchangedValue(fs[1..], k - 1, x, key);
    }
  }

  lemma ExchangedCallable(tr: Trust, r: Request, k: nat, x: PyVal)
    requires Callable(tr, r) && k < |r.args.fields| && Accepted(tr.floats, x)
    ensures Callable(tr, Exchanged(r, k, x))
  {
    var fs := r.args.fields;
    FieldsAccepted(fs);
    FieldsAccepted(fs[k := PyField(fs[k].key, x)]);
  }

  lemma ExchangedInScope(tr: Trust, p: PyVal, r: Request, i: nat, k: nat, x: PyVal)
    requires Callable(tr, r) && ScopeCodes(tr, p, r) == [] && KeysDistinct(Constraints(p))
    requires i < |Constraints(p)| && k < |r.args.fields| && r.args.fields[k].key == Constraints(p)[i].key
    requires PyEq(tr.floats, x, Constraints(p)[i].value)
    ensures ScopeCodes(tr, p, Exchanged(r, k, x)) == []
  {
    hide PyEq, Permits, TextAt, ValueIn, Constraints, OfPython, Check, ScopeCodes;
    InScope(tr, p, r);
    var r' := Exchanged(r, k, x);
    KeysOf(tr, r);
    forall j | 0 <= j < |Constraints(p)| ensures Fulfilled(tr, Constraints(p)[j], r'.args) {
      ExchangedValue(r.args.fields, k, x, Constraints(p)[j].key);
      assert Fulfilled(tr, Constraints(p)[j], r.args);
    }
    InScope(tr, p, r');
  }

  lemma KeysOf(tr: Trust, r: Request)
    requires Callable(tr, r)
    ensures KeysDistinct(r.args.fields)
  {
  }

  /** Once any call is in scope of a grant: every call in scope of it meets a given argument
      constraint exactly, as the issuer wrote it, if and only if the constraint's value is
      unambiguous. For any other value some call in scope carries a different argument. */
  lemma ConstraintBindsExactlyIff(tr: Trust, p: PyVal, r: Request, i: nat)
    requires Lawful(tr.floats) && Callable(tr, r) && ScopeCodes(tr, p, r) == [] && KeysDistinct(Constraints(p))
    requires i < |Constraints(p)| && OnArgument(Constraints(p)[i]) && Accepted(tr.floats, Constraints(p)[i].value)
    ensures (forall q :: Callable(tr, q) && ScopeCodes(tr, p, q) == [] ==> MetExactly(tr, q, Constraints(p)[i]))
       <==> Unambiguous(tr.floats, Constraints(p)[i].value)
  {
    hide PyEq, Unambiguous, Lawful, Permits, TextAt, ValueIn, Constraints, OfPython, Check, ScopeCodes, RightTool;
    var c := Constraints(p)[i];
    if Unambiguous(tr.floats, c.value) {
      forall q | Callable(tr, q) && ScopeCodes(tr, p, q) == [] ensures MetExactly(tr, q, c) {
        UnambiguousConstraintsBind(tr, p, q, i);
      }
    } else {
      var x := HasAlias(tr.floats, c.value);
      InScope(tr, p, r);
      assert Fulfilled(tr, c, r.args);
      var k := ValueWhere(r.args.fields, c.key);
      KeysOf(tr, r);
      ExchangedValue(r.args.fields, k, x, c.key);
      ExchangedCallable(tr, r, k, x);
      ExchangedInScope(tr, p, r, i, k, x);
      assert !MetExactly(tr, Exchanged(r, k, x), c);
    }
  }

  // ----- a grant for one, spent on true ---------------------------------------------

  function Text(key: string, text: string): PyField { PyField(StrKey(key), Str(text)) }

  const WINDOW := OPTIONAL_PAYLOAD_FIELDS[4..6]
  const GIVEN := REQUIRED_PAYLOAD_FIELDS + WINDOW

  /** What the fields of such a payload hold; the window is open at both ends. */
  function OneOnlyValues(issuer: string, gid: string, r: Request): (string, Kind) -> PyVal {
    (key: string, k: Kind) =>
      if key == "issuer_key_id" then Str(issuer)
      else if key == "grant_id" then Str(gid)
      else if key == "provider_id" then Str(r.providerId)
      else if key == "requesting_principal_id" then Str(r.principalId)
      else if key == "permitted_operations" then List([Str(INVOKE)])
      else if key == "argument_constraints" then Dict([Text("tool", r.name), PyField(StrKey("n"), Int(1))])
      else Plain(key, k)
  }

  /** A payload with every required field, permitting one tool on `n` equal to the integer one. */
  function OneOnly(issuer: string, gid: string, r: Request): PyVal {
    Dict(Filled(GIVEN, OneOnlyValues(issuer, gid, r)))
  }

  predicate NonemptyIds(issuer: string, gid: string, r: Request) {
    issuer != "" && gid != "" && r.providerId != "" && r.principalId != ""
  }

  lemma JoinedTables(fs: seq<(string, Kind)>, gs: seq<(string, Kind)>, k: nat, n: nat)
    requires DistinctNames(fs) && DistinctNames(gs) && Disjoint(fs, gs) && k <= n <= |gs|
    ensures DistinctNames(fs + gs[k..n]) && Extends(fs + gs[k..n], gs)
  {
    var all := fs + gs[k..n];
    forall j | 0 <= j < |gs| ensures gs[j] in all || forall i :: 0 <= i < |all| ==> all[i].0 != gs[j].0 {
      if k <= j < n { assert all[|fs| + j - k] == gs[j]; }
    }
  }

  lemma OptionalDistinct()
    ensures DistinctNames(OPTIONAL_PAYLOAD_FIELDS)
  {
  }

  lemma GivenTable()
    ensures DistinctNames(GIVEN) && Extends(GIVEN, OPTIONAL_PAYLOAD_FIELDS)
  {
    hide REQUIRED_PAYLOAD_FIELDS, OPTIONAL_PAYLOAD_FIELDS, DistinctNames, Disjoint, Extends;
    RequiredDistinct();
    OptionalDistinct();
    RequiredNotOptional();
    OptionalCount();
    JoinedTables(REQUIRED_PAYLOAD_FIELDS, OPTIONAL_PAYLOAD_FIELDS, 4, 6);
  }

  lemma OptionalCount()
    ensures |OPTIONAL_PAYLOAD_FIELDS| == 8
  {
  }

  lemma RequiredFit(issuer: string, gid: string, r: Request)
    requires NonemptyIds(issuer, gid, r)
    ensures Fits(GIVEN, OneOnlyValues(issuer, gid, r))
  {
  }

  /** One field of the payload, by its place in the table. */
  lemma OneOnlyField(issuer: string, gid: string, r: Request, k: nat)
    requires k < |GIVEN|
    ensures Field(OneOnly(issuer, gid, r), GIVEN[k].0)
         == Some(OneOnlyValues(issuer, gid, r)(GIVEN[k].0, GIVEN[k].1))
  {
    hide GIVEN, OneOnlyValues;
    GivenTable();
    FilledField(GIVEN, OneOnlyValues(issuer, gid, r), k);
  }

  lemma OneOnlyFields(issuer: string, gid: string, r: Request)
    ensures Says(OneOnly(issuer, gid, r), "grant_format_version", VERSION)
    ensures TextAt(OneOnly(issuer, gid, r), "grant_id") == gid
    ensures TextAt(OneOnly(issuer, gid, r), "issuer_key_id") == issuer
    ensures TextAt(OneOnly(issuer, gid, r), "provider_id") == r.providerId
    ensures TextAt(OneOnly(issuer, gid, r), "requesting_principal_id") == r.principalId
    ensures ItemsAt(OneOnly(issuer, gid, r), "permitted_operations") == [Str(INVOKE)]
    ensures Constraints(OneOnly(issuer, gid, r)) == [Text("tool", r.name), PyField(StrKey("n"), Int(1))]
    ensures Field(OneOnly(issuer, gid, r), "not_before") == Field(OneOnly(issuer, gid, r), "not_after") == Some(None_)
  {
    hide OneOnly, Field;
    OneOnlyField(issuer, gid, r, 0);
    OneOnlyField(issuer, gid, r, 1);
    OneOnlyField(issuer, gid, r, 4);
    OneOnlyField(issuer, gid, r, 7);
    OneOnlyField(issuer, gid, r, 8);
    OneOnlyField(issuer, gid, r, 9);
    OneOnlyField(issuer, gid, r, 14);
    OneOnlyField(issuer, gid, r, 15);
    OneOnlyField(issuer, gid, r, 16);
  }

  lemma OneOnlyShape(issuer: string, gid: string, r: Request)
    requires NonemptyIds(issuer, gid, r)
    ensures WellShapedPayload(OneOnly(issuer, gid, r))
  {
    hide GIVEN, REQUIRED_PAYLOAD_FIELDS, OPTIONAL_PAYLOAD_FIELDS, OneOnlyValues, DistinctNames, Extends, Fits,
        AllFields;
    GivenTable();
    RequiredFit(issuer, gid, r);
    FilledShaped(GIVEN, OPTIONAL_PAYLOAD_FIELDS, OneOnlyValues(issuer, gid, r));
    PrefixFields(OneOnly(issuer, gid, r));
  }

  lemma PrefixFields(doc: PyVal)
    requires AllFields(doc, GIVEN, RequiredOk)
    ensures AllFields(doc, REQUIRED_PAYLOAD_FIELDS, RequiredOk)
  {
    hide REQUIRED_PAYLOAD_FIELDS, WINDOW, RequiredOk;
    forall i | 0 <= i < |REQUIRED_PAYLOAD_FIELDS| ensures RequiredOk(doc, REQUIRED_PAYLOAD_FIELDS[i]) {
      assert GIVEN[i] == REQUIRED_PAYLOAD_FIELDS[i];
    }
  }

  /** Arguments that hold true where the constraint says one. */
  const TRUE_ARGS := Dict([PyField(StrKey("n"), Bool(true))])

  /** A grant for one: well-formed, accepted under any trust root whose signature it carries,
      at any instant, without a revocation list. */
  lemma OneOnlyAccepted(tr: Trust, issuer: string, gid: string, r: Request, signature: string, pem: string, at: string)
    requires NonemptyIds(issuer, gid, r) && tr.parseTime(at).Some?
    requires Signed(tr, Some(pem), issuer, signature, OneOnly(issuer, gid, r))
    ensures Accepts(tr, GrantOf(OneOnly(issuer, gid, r), signature), Some(pem), at, None, None_)
    ensures PayloadIn(GrantOf(OneOnly(issuer, gid, r), signature)) == OneOnly(issuer, gid, r)
  {
    hide Accepts, WellFormedGrant, WellShapedPayload, OneOnly, Field, GrantOf, Says, Signed;
    var p := OneOnly(issuer, gid, r);
    OneOnlyFields(issuer, gid, r);
    OneOnlyShape(issuer, gid, r);
    OneOnlyIsDict(issuer, gid, r);
    GrantOfShape(p, signature);
    NoListNoCodes(tr, p, Some(pem), at);
    AcceptanceIs(tr, GrantOf(p, signature), Some(pem), at, None, None_);
  }

  lemma OneOnlyIsDict(issuer: string, gid: string, r: Request)
    ensures OneOnly(issuer, gid, r).Dict?
  {
  }

  /** Exact JSON equality is what is documented; this grant is in scope for `{"n": true}`. */
  lemma TrueIsTakenForOne(tr: Trust, issuer: string, gid: string, r: Request)
    requires r.args == TRUE_ARGS
    ensures ScopeCodes(tr, OneOnly(issuer, gid, r), r) == []
    ensures CanonicalArgs(TRUE_ARGS).Success? && Denote(Bool(true)) != Denote(Int(1))
  {
    OneOnlyFields(issuer, gid, r);
    OneOnlyTool(issuer, gid, r);
    OneOnlyMet(tr, issuer, gid, r);
    FieldsAccepted(TRUE_ARGS.fields);
    hide TextAt, ItemsAt, Constraints, RightTool, RightArguments, ValueIn, OneOnly;
    InScope(tr, OneOnly(issuer, gid, r), r);
  }

  lemma OneOnlyTool(issuer: string, gid: string, r: Request)
    ensures RightTool(OneOnly(issuer, gid, r), r)
  {
    hide TextAt, ItemsAt, Constraints, OneOnly;
    OneOnlyFields(issuer, gid, r);
    var cs := Constraints(OneOnly(issuer, gid, r));
    FirstField(cs, 0, "tool");
    assert cs[1..] == [PyField(StrKey("n"), Int(1))];
    assert ValueIn(cs[1..], StrKey("source")) == ValueIn([], StrKey("source"));
  }

  lemma OneOnlyMet(tr: Trust, issuer: string, gid: string, r: Request)
    requires r.args == TRUE_ARGS
    ensures RightArguments(tr, OneOnly(issuer, gid, r), r)
  {
    hide TextAt, ItemsAt, Constraints, OneOnly;
    OneOnlyFields(issuer, gid, r);
    var cs := Constraints(OneOnly(issuer, gid, r));
    assert PyEq(tr.floats, Bool(true), Int(1));
    assert Fulfilled(tr, cs[0], r.args) && Fulfilled(tr, cs[1], r.args);
  }
}
