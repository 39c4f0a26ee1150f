/** What acceptance of a governance grant means, with and without a revocation list. */
module GovAcceptance {
  import opened Wrappers
  import opened CanonicalJson
  import opened Documents
  import opened GovGrants

  // ----- acceptance, said without codes ---------------------------------------------

  /** A document field holding exactly this text. */
  predicate Says(doc: PyVal, key: string, text: string) { Field(doc, key) == Some(Str(text)) }

  predicate WellFormedGrant(grant: PyVal) {
    && Field(grant, "payload").Some? && Field(grant, "payload").value.Dict?
    && Says(grant, "signature_scheme", SCHEME)
    && HasField(grant, ("signature", AText))
    && Says(Field(grant, "payload").value, "grant_format_version", VERSION)
    && WellShapedPayload(Field(grant, "payload").value)
  }

  predicate Signed(tr: Trust, pem: Option<string>, issuer: string, signature: string, doc: PyVal) {
    pem.Some? && tr.loadKey(pem.value) == Ed25519Key(issuer) && tr.verifies(pem.value, signature, doc)
  }

  /** Both ends of the window are given, and the instant lies between them. */
  predicate InForce(tr: Trust, p: PyVal, at: string) {
    var t, lo, hi := tr.parseTime(at), BoundAt(tr, p, "not_before"), BoundAt(tr, p, "not_after");
    && t.Some?
    && (lo.Unbounded? || (lo.Instant? && lo.t <= t.value))
    && (hi.Unbounded? || (hi.Instant? && t.value < hi.t))
  }

  predicate AuthenticList(tr: Trust, doc: PyVal, pem: Option<string>, at: string) {
    && doc.Dict?
    && Says(doc, "signature_scheme", SCHEME)
    && Says(doc, "revocation_list_format_version", VERSION)
    && WellShapedList(doc)
    && ListIssuedAt(tr, doc).Some? && tr.parseTime(at).Some?
    && ListIssuedAt(tr, doc).value <= tr.parseTime(at).value
    && Signed(tr, pem, TextAt(doc, "issuer_key_id"), TextAt(doc, "signature"), Unsigned(doc))
  }

  predicate Accepts(tr: Trust, grant: PyVal, pem: Option<string>, at: string, expected: Option<string>, list: PyVal) {
    Verify(tr, grant, pem, at, expected, list).Checked? && Verify(tr, grant, pem, at, expected, list).v.valid
  }

  lemma SaysText(doc: PyVal, key: string, text: string)
    ensures Says(doc, key, text) <==> HasField(doc, (key, AText)) && TextAt(doc, key) == text
  {
  }

  lemma ShapeIff(grant: PyVal)
    ensures ShapeCodes(grant) == [] <==> WellFormedGrant(grant)
  {
    hide WellShapedPayload, ValueIn;
    SaysText(grant, "signature_scheme", SCHEME);
    if Field(grant, "payload").Some? { SaysText(Field(grant, "payload").value, "grant_format_version", VERSION); }
  }

  lemma SignatureIff(tr: Trust, pem: string, issuer: string, signature: string, doc: PyVal)
    ensures SignatureCodes(tr, pem, issuer, signature, doc) == [] <==> Signed(tr, Some(pem), issuer, signature, doc)
  {
  }

  lemma WindowIff(tr: Trust, p: PyVal, at: string)
    ensures WindowCodes(tr, p, at) == Some([]) <==> InForce(tr, p, at)
  {
    hide BoundAt;
  }

  /** An accepted list is exactly an authentic, well-formed list already issued. */
  lemma ListIff(tr: Trust, doc: PyVal, pem: Option<string>, at: string)
    ensures ListCodes(tr, doc, pem, at) == [] <==> AuthenticList(tr, doc, pem, at)
  {
    hide WellShapedList, ValueIn, SignatureCodes;
    SaysText(doc, "signature_scheme", SCHEME);
    SaysText(doc, "revocation_list_format_version", VERSION);
    if pem.Some? { SignatureIff(tr, pem.value, TextAt(doc, "issuer_key_id"), TextAt(doc, "signature"), Unsigned(doc)); }
  }

  predicate AcceptablePayload(tr: Trust, p: PyVal, signature: string, pem: Option<string>, at: string,
                              expected: Option<string>) {
    var issuer := TextAt(p, "issuer_key_id");
    (expected.Some? ==> expected.value == issuer) && Signed(tr, pem, issuer, signature, p) && InForce(tr, p, at)
  }

  lemma PayloadAccepted(tr: Trust, p: PyVal, signature: string, pem: Option<string>, at: string,
                        expected: Option<string>, list: PyVal)
    ensures var o := VerifyPayload(tr, p, signature, pem, at, expected, list);
            o.Checked? && o.v.valid <==>
              AcceptablePayload(tr, p, signature, pem, at, expected) && RevocationCodes(tr, p, list, pem, at) == []
  {
    hide SignatureCodes, WindowCodes, RevocationCodes, InForce, TextAt;
    if pem.Some? {
      var issuer := TextAt(p, "issuer_key_id");
      SignatureIff(tr, pem.value, issuer, signature, p);
      WindowIff(tr, p, at);
      if WindowCodes(tr, p, at).Some? {
        AllEmpty(IssuerCodes(issuer, expected), SignatureCodes(tr, pem.value, issuer, signature, p),
                 WindowCodes(tr, p, at).value, RevocationCodes(tr, p, list, pem, at));
      }
    }
  }

  function PayloadIn(grant: PyVal): PyVal {
    if Field(grant, "payload").Some? then Field(grant, "payload").value else None_
  }

  lemma PayloadThere(grant: PyVal)
    requires ShapeCodes(grant) == []
    ensures PayloadOf(grant) == PayloadIn(grant)
  {
  }

  /** Accepted means: the shape of a grant, the pinned issuer, a good signature under the
      trust root, in force at the instant, and nothing from the revocation list. */
  lemma AcceptanceIs(tr: Trust, grant: PyVal, pem: Option<string>, at: string, expected: Option<string>, list: PyVal)
    ensures Accepts(tr, grant, pem, at, expected, list) <==>
              && WellFormedGrant(grant)
              && AcceptablePayload(tr, PayloadIn(grant), TextAt(grant, "signature"), pem, at, expected)
              && RevocationCodes(tr, PayloadIn(grant), list, pem, at) == []
  {
    hide WellFormedGrant, ShapeCodes, VerifyPayload, AcceptablePayload, RevocationCodes, TextAt, ValueIn;
    ShapeIff(grant);
    if ShapeCodes(grant) == [] {
      PayloadThere(grant);
      PayloadAccepted(tr, PayloadOf(grant), TextAt(grant, "signature"), pem, at, expected, list);
    }
  }

  lemma NoListNoCodes(tr: Trust, p: PyVal, pem: Option<string>, at: string)
    ensures RevocationCodes(tr, p, None_, pem, at) == []
  {
  }

  /** A list can only take acceptance away. */
  lemma ListOnlyDenies(tr: Trust, grant: PyVal, pem: Option<string>, at: string, expected: Option<string>, list: PyVal)
    ensures Accepts(tr, grant, pem, at, expected, list) <==>
              Accepts(tr, grant, pem, at, expected, None_) && RevocationCodes(tr, PayloadIn(grant), list, pem, at) == []
    ensures Accepts(tr, grant, pem, at, expected, None_) ==> InForce(tr, PayloadIn(grant), at)
  {
    hide Accepts, WellFormedGrant, TextAt, RevocationCodes, InForce, Signed, ValueIn, Field;
    AcceptanceIs(tr, grant, pem, at, expected, list);
    AcceptanceIs(tr, grant, pem, at, expected, None_);
    NoListNoCodes(tr, PayloadIn(grant), pem, at);
  }

  // ----- main results ---------------------------------------------------------------

  predicate Named(grant: PyVal, list: PyVal) {
    Str(TextAt(PayloadIn(grant), "grant_id")) in ItemsAt(list, "revoked_grant_ids")
  }

  lemma CoveredWhenInForce(tr: Trust, p: PyVal, at: string, coverage: int)
    requires InForce(tr, p, at) && coverage <= tr.parseTime(at).value
    ensures Overlaps(tr, p, coverage)
  {
    hide BoundAt;
  }

  /** With an authentic list in force: accepted exactly when accepted without a list, not
      named by it, and issued no later than it. The overlap test never excuses such a grant. */
  lemma AcceptedWithAuthenticList(tr: Trust, grant: PyVal, pem: Option<string>, at: string, expected: Option<string>,
                                  list: PyVal)
    requires AuthenticList(tr, list, pem, at)
    ensures Accepts(tr, grant, pem, at, expected, list) <==>
              && Accepts(tr, grant, pem, at, expected, None_)
              && !Named(grant, list)
              && var issued := tr.parseTime(TextAt(PayloadIn(grant), "issued_at"));
                 issued.Some? && issued.value <= ListIssuedAt(tr, list).value
  {
    hide Accepts, ListCodes, WellShapedList, Field, InForce, Overlaps, TextAt, ItemsAt, Signed;
    ListOnlyDenies(tr, grant, pem, at, expected, list);
    ListIff(tr, list, pem, at);
    if Accepts(tr, grant, pem, at, expected, None_) {
      CoveredWhenInForce(tr, PayloadIn(grant), at, ListIssuedAt(tr, list).value);
    }
  }

  /** With a list that does not verify: accepted exactly when accepted without a list and the
      grant's window ends no later than the instant the list claims. */
  lemma AcceptedWithFailingList(tr: Trust, grant: PyVal, pem: Option<string>, at: string, expected: Option<string>,
                                list: PyVal)
    requires !AuthenticList(tr, list, pem, at) && !list.None_?
    ensures Accepts(tr, grant, pem, at, expected, list) <==>
              && Accepts(tr, grant, pem, at, expected, None_)
              && ListIssuedAt(tr, list).Some?
              && var end := BoundAt(tr, PayloadIn(grant), "not_after");
                 end.Instant? && end.t <= ListIssuedAt(tr, list).value
  {
    hide Accepts, ListCodes, AuthenticList, Field, InForce, TextAt, ItemsAt, BoundAt, ListIssuedAt;
    ListOnlyDenies(tr, grant, pem, at, expected, list);
    ListIff(tr, list, pem, at);
  }

  /** So a failing list is excused only when it claims to be from after the instant. */
  lemma ExcusedListsAreLater(tr: Trust, grant: PyVal, pem: Option<string>, at: string, expected: Option<string>,
                             list: PyVal)
    requires !AuthenticList(tr, list, pem, at) && !list.None_?
    requires Accepts(tr, grant, pem, at, expected, list)
    ensures ListIssuedAt(tr, list).Some? && tr.parseTime(at).Some?
    ensures ListIssuedAt(tr, list).value > tr.parseTime(at).value
  {
    hide Accepts, AuthenticList, Field, BoundAt, ListIssuedAt;
    AcceptedWithFailingList(tr, grant, pem, at, expected, list);
    ListOnlyDenies(tr, grant, pem, at, expected, list);
  }

  lemma PayloadCodesGrow(tr: Trust, p: PyVal, signature: string, pem: Option<string>, at: string,
                         expected: Option<string>, list: PyVal)
    ensures var o, o' := VerifyPayload(tr, p, signature, pem, at, expected, None_),
                         VerifyPayload(tr, p, signature, pem, at, expected, list);
            && (o.Raised? <==> o'.Raised?)
            && (o.Checked? ==> o.v.codes <= o'.v.codes && (o'.v.valid <==> o'.v.codes == []))
  {
    hide SignatureCodes, WindowCodes, TextAt, RevocationCodes, IssuerCodes;
    NoListNoCodes(tr, p, pem, at);
  }

  /** A list adds codes at the end and changes none before them; and a grant is valid exactly
      when no code was found, so a refusal always says why. */
  lemma CodesGrow(tr: Trust, grant: PyVal, pem: Option<string>, at: string, expected: Option<string>, list: PyVal)
    ensures var o, o' := Verify(tr, grant, pem, at, expected, None_), Verify(tr, grant, pem, at, expected, list);
            && (o.Raised? <==> o'.Raised?)
            && (o.Checked? ==> o.v.codes <= o'.v.codes && (o'.v.valid <==> o'.v.codes == []))
  {
    hide ShapeCodes, VerifyPayload, TextAt;
    if ShapeCodes(grant) == [] {
      PayloadCodesGrow(tr, PayloadOf(grant), TextAt(grant, "signature"), pem, at, expected, list);
    }
  }

  /** A caller can always read the payload of a valid grant, and the first code of any other. */
  lemma RefusalSaysWhy(tr: Trust, grant: PyVal, pem: Option<string>, at: string, expected: Option<string>, list: PyVal)
    requires Verify(tr, grant, pem, at, expected, list).Checked?
    ensures var v := Verify(tr, grant, pem, at, expected, list).v;
            if v.valid then v.codes == [] && v.payload == Some(PayloadIn(grant)) && ShapeCodes(grant) == []
            else v.codes != []
  {
    hide ShapeCodes, SignatureCodes, WindowCodes, TextAt, RevocationCodes, IssuerCodes;
    if ShapeCodes(grant) == [] { PayloadThere(grant); }
    CodesGrow(tr, grant, pem, at, expected, list);
  }

  /** The verifier is documented never to raise; it does exactly when the instant parses and
      a window key it goes on to read is missing from the payload. */
  lemma RaisesExactly(tr: Trust, grant: PyVal, pem: Option<string>, at: string, expected: Option<string>, list: PyVal)
    ensures Verify(tr, grant, pem, at, expected, list).Raised? <==>
              && WellFormedGrant(grant) && pem.Some? && tr.parseTime(at).Some?
              && var lo, hi := BoundAt(tr, PayloadIn(grant), "not_before"), BoundAt(tr, PayloadIn(grant), "not_after");
                 lo.Absent? || (!lo.Unparseable? && hi.Absent?)
  {
    hide WellFormedGrant, ShapeCodes, SignatureCodes, RevocationCodes, BoundAt, TextAt, ValueIn;
    ShapeIff(grant);
    if ShapeCodes(grant) == [] { PayloadThere(grant); }
  }

  /** A document with just these fields, filled in. */
  function Filled(fs: seq<(string, Kind)>, value: (string, Kind) -> PyVal): seq<PyField> {
    if fs == [] then [] else [PyField(StrKey(fs[0].0), value(fs[0].0, fs[0].1))] + Filled(fs[1..], value)
  }

  predicate DistinctNames(fs: seq<(string, Kind)>) { forall i, j :: 0 <= i < j < |fs| ==> fs[i].0 != fs[j].0 }

  lemma {:induction false} FilledField(fs: seq<(string, Kind)>, value: (string, Kind) -> PyVal, k: nat)
    requires k < |fs| && DistinctNames(fs)
    ensures ValueIn(Filled(fs, value), StrKey(fs[k].0)) == Some(value(fs[k].0, fs[k].1))
  {
    if k > 0 { FilledField(fs[1..], value, k - 1); }
  }

  lemma {:induction false} FilledLacks(fs: seq<(string, Kind)>, value: (string, Kind) -> PyVal, key: string)
    requires forall i :: 0 <= i < |fs| ==> fs[i].0 != key
    ensures ValueIn(Filled(fs, value), StrKey(key)) == None
  {
    if fs != [] { FilledLacks(fs[1..], value, key); }
  }

  /** Each field gets a value of its type, and a text one is not empty. */
  predicate Fits(fs: seq<(string, Kind)>, value: (string, Kind) -> PyVal) {
    forall i :: 0 <= i < |fs| ==> HasKind(value(fs[i].0, fs[i].1), fs[i].1)
                                  && (fs[i].1 == AText ==> value(fs[i].0, fs[i].1) != Str(""))
  }

  /** An optional field is filled in with its type or not at all. */
  predicate Extends(fs: seq<(string, Kind)>, gs: seq<(string, Kind)>) {
    forall j :: 0 <= j < |gs| ==> gs[j] in fs || forall i :: 0 <= i < |fs| ==> fs[i].0 != gs[j].0
  }

  lemma FilledShaped(fs: seq<(string, Kind)>, gs: seq<(string, Kind)>, value: (string, Kind) -> PyVal)
    requires DistinctNames(fs) && Extends(fs, gs) && Fits(fs, value)
    ensures AllFields(Dict(Filled(fs, value)), fs, RequiredOk) && AllFields(Dict(Filled(fs, value)), gs, OptionalOk)
  {
    hide Filled, ValueIn;
    var doc := Dict(Filled(fs, value));
    forall i | 0 <= i < |fs| ensures RequiredOk(doc, fs[i]) { FilledField(fs, value, i); }
    forall j | 0 <= j < |gs| ensures OptionalOk(doc, gs[j]) {
      if gs[j] in fs {
        var i :| 0 <= i < |fs| && fs[i] == gs[j];
        FilledField(fs, value, i);
      } else {
        FilledLacks(fs, value, gs[j].0);
      }
    }
  }

  /** Any value of the type, and the current version of the format. */
  function Plain(name: string, k: Kind): PyVal {
    match k
    case AList => List([])
    case ADict => Dict([])
    case AText => Str("1")
    case _ => None_
  }

  predicate Disjoint(fs: seq<(string, Kind)>, gs: seq<(string, Kind)>) {
    forall i, j :: 0 <= i < |fs| && 0 <= j < |gs| ==> fs[i].0 != gs[j].0
  }

  lemma RequiredDistinct()
    ensures DistinctNames(REQUIRED_PAYLOAD_FIELDS)
  {
    hide REQUIRED_PAYLOAD_FIELDS;
    FirstFourDistinct();
    OthersDistinct();
  }

  lemma FirstFourDistinct()
    ensures forall i, j :: 0 <= i < j < |REQUIRED_PAYLOAD_FIELDS| && i < 4 ==>
        REQUIRED_PAYLOAD_FIELDS[i].0 != REQUIRED_PAYLOAD_FIELDS[j].0
  {
  }

  lemma OthersDistinct()
    ensures forall i, j :: 4 <= i < j < |REQUIRED_PAYLOAD_FIELDS| ==>
        REQUIRED_PAYLOAD_FIELDS[i].0 != REQUIRED_PAYLOAD_FIELDS[j].0
  {
  }

  lemma RequiredNotOptional()
    ensures Disjoint(REQUIRED_PAYLOAD_FIELDS, OPTIONAL_PAYLOAD_FIELDS)
  {
  }

  lemma RequiredPlain()
    ensures Fits(REQUIRED_PAYLOAD_FIELDS, Plain)
  {
  }

  lemma DisjointExtends(fs: seq<(string, Kind)>, gs: seq<(string, Kind)>)
    requires Disjoint(fs, gs)
    ensures Extends(fs, gs)
  {
  }

  const BARE_PAYLOAD := Dict(Filled(REQUIRED_PAYLOAD_FIELDS, Plain))

  /** A grant document around a payload. */
  function GrantOf(payload: PyVal, signature: string): PyVal {
    Dict([PyField(StrKey("payload"), payload), PyField(StrKey("signature_scheme"), Str(SCHEME)),
          PyField(StrKey("signature"), Str(signature))])
  }

  lemma GrantOfFields(payload: PyVal, signature: string)
    ensures Field(GrantOf(payload, signature), "payload") == Some(payload)
    ensures Says(GrantOf(payload, signature), "signature_scheme", SCHEME)
    ensures Says(GrantOf(payload, signature), "signature", signature)
  {
    hide ValueIn;
    var fs := GrantOf(payload, signature).fields;
    FirstField(fs, 0, "payload");
    FirstField(fs, 1, "signature_scheme");
    FirstField(fs, 2, "signature");
  }

  lemma GrantOfShape(payload: PyVal, signature: string)
    requires payload.Dict? && Says(payload, "grant_format_version", VERSION) && WellShapedPayload(payload)
    ensures WellFormedGrant(GrantOf(payload, signature)) && PayloadIn(GrantOf(payload, signature)) == payload
    ensures TextAt(GrantOf(payload, signature), "signature") == signature
  {
    hide WellShapedPayload, ValueIn, GrantOf;
    GrantOfFields(payload, signature);
  }

  lemma BareShape()
    ensures WellShapedPayload(BARE_PAYLOAD) && Says(BARE_PAYLOAD, "grant_format_version", VERSION)
    ensures Field(BARE_PAYLOAD, "not_before").None?
  {
    hide Filled, ValueIn, DistinctNames, Fits, Extends, AllFields;
    RequiredDistinct();
    RequiredNotOptional();
    RequiredPlain();
    DisjointExtends(REQUIRED_PAYLOAD_FIELDS, OPTIONAL_PAYLOAD_FIELDS);
    FilledShaped(REQUIRED_PAYLOAD_FIELDS, OPTIONAL_PAYLOAD_FIELDS, Plain);
    FilledField(REQUIRED_PAYLOAD_FIELDS, Plain, 0);
    assert OPTIONAL_PAYLOAD_FIELDS[4].0 == "not_before";
    FilledLacks(REQUIRED_PAYLOAD_FIELDS, Plain, OPTIONAL_PAYLOAD_FIELDS[4].0);
  }

  /** Such a payload: every required field and no optional one. Whoever presents it makes the
      verifier raise, whatever the trust root, as long as the instant parses. */
  lemma BarePayloadRaises(tr: Trust, pem: string, at: string, expected: Option<string>, list: PyVal)
    requires tr.parseTime(at).Some?
    ensures Verify(tr, GrantOf(BARE_PAYLOAD, ""), Some(pem), at, expected, list) == Raised
  {
    hide Verify, WellFormedGrant, Field, Filled, GrantOf, WellShapedPayload, Says;
    BareShape();
    GrantOfShape(BARE_PAYLOAD, "");
    RaisesExactly(tr, GrantOf(BARE_PAYLOAD, ""), Some(pem), at, expected, list);
  }
}
