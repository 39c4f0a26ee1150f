/** Why a governance grant is refused, in the names and texts of the format: a reference
    reading that stops at the first objection, for a verifier that gathers all of them. */
module GovReasons {
  import opened Wrappers
  import opened CanonicalJson
  import opened Documents
  import opened GovGrants
  import opened GovAcceptance

  // ----- the two document shapes ----------------------------------------------------

  predicate IsText(v: Option<PyVal>) { v.Some? && v.value.Str? }
  predicate IsList(v: Option<PyVal>) { v.Some? && v.value.List? }
  predicate IsDict(v: Option<PyVal>) { v.Some? && v.value.Dict? }

  /** Absent, null, or text. */
  predicate MaybeText(v: Option<PyVal>) { v.None? || v.value.None_? || v.value.Str? }

  /** The fields every payload must have, texts not empty. */
  predicate HasRequired(p: PyVal) {
    && TextAt(p, "grant_format_version") != "" && TextAt(p, "grant_id") != ""
    && TextAt(p, "decision_record_id") != "" && TextAt(p, "work_request_id") != ""
    && TextAt(p, "requesting_principal_id") != "" && TextAt(p, "organization_id") != ""
    && TextAt(p, "workspace_id") != "" && TextAt(p, "provider_id") != ""
    && TextAt(p, "kernel_version") != "" && TextAt(p, "issued_at") != "" && TextAt(p, "issuer_key_id") != ""
    && IsList(Field(p, "permitted_operations")) && IsList(Field(p, "data_classifications"))
    && IsList(Field(p, "policy_versions")) && IsDict(Field(p, "argument_constraints"))
  }

  /** The fields it may have, each of its type; a bool passes for a number, as in Python. */
  predicate OptionalFit(p: PyVal) {
    && MaybeText(Field(p, "work_request_revision")) && MaybeText(Field(p, "not_before"))
    && MaybeText(Field(p, "not_after")) && MaybeText(Field(p, "revocation_state"))
    && MaybeText(Field(p, "correlation_id"))
    && (var v := Field(p, "budget_limit_usd");
        v.None? || v.value.None_? || v.value.Int? || v.value.Bool? || v.value.Float?)
    && (var v := Field(p, "delegation_depth"); v.None? || v.value.Int? || v.value.Bool?)
    && (var v := Field(p, "delegation_max_depth"); v.None? || v.value.None_? || v.value.Int? || v.value.Bool?)
  }

  lemma AllOfBoth(doc: PyVal, a: seq<(string, Kind)>, b: seq<(string, Kind)>, ok: (PyVal, (string, Kind)) -> bool)
    ensures AllFields(doc, a + b, ok) <==> AllFields(doc, a, ok) && AllFields(doc, b, ok)
  {
    var all := a + b;
    if AllFields(doc, all, ok) {
      forall i | 0 <= i < |a| ensures ok(doc, a[i]) { assert all[i] == a[i]; }
      forall i | 0 <= i < |b| ensures ok(doc, b[i]) { assert all[|a| + i] == b[i]; }
    }
  }

  lemma FourAt(doc: PyVal, fs: seq<(string, Kind)>, k: nat, ok: (PyVal, (string, Kind)) -> bool)
    requires k + 4 <= |fs|
    ensures AllFields(doc, fs[k..k + 4], ok) <==>
              ok(doc, fs[k]) && ok(doc, fs[k + 1]) && ok(doc, fs[k + 2]) && ok(doc, fs[k + 3])
  {
    var four := fs[k..k + 4];
    assert four[0] == fs[k] && four[1] == fs[k + 1] && four[2] == fs[k + 2] && four[3] == fs[k + 3];
  }

  lemma EightAre(doc: PyVal, fs: seq<(string, Kind)>, k: nat, ok: (PyVal, (string, Kind)) -> bool)
    requires k + 8 <= |fs|
    ensures AllFields(doc, fs[k..k + 8], ok) <==>
              && ok(doc, fs[k]) && ok(doc, fs[k + 1]) && ok(doc, fs[k + 2]) && ok(doc, fs[k + 3])
              && ok(doc, fs[k + 4]) && ok(doc, fs[k + 5]) && ok(doc, fs[k + 6]) && ok(doc, fs[k + 7])
  {
    hide AllFields;
    FourAt(doc, fs, k, ok);
    FourAt(doc, fs, k + 4, ok);
    assert fs[k..k + 8] == fs[k..k + 4] + fs[k + 4..k + 8];
    AllOfBoth(doc, fs[k..k + 4], fs[k + 4..k + 8], ok);
  }

  lemma SevenAre(doc: PyVal, fs: seq<(string, Kind)>, k: nat, ok: (PyVal, (string, Kind)) -> bool)
    requires k + 7 == |fs|
    ensures AllFields(doc, fs[k..], ok) <==>
              && ok(doc, fs[k]) && ok(doc, fs[k + 1]) && ok(doc, fs[k + 2]) && ok(doc, fs[k + 3])
              && ok(doc, fs[k + 4]) && ok(doc, fs[k + 5]) && ok(doc, fs[k + 6])
  {
    hide AllFields;
    FourAt(doc, fs, k, ok);
    FourAt(doc, fs, k + 3, ok);
    assert fs[k..] == fs[k..k + 4] + fs[k + 4..];
    AllOfBoth(doc, fs[k..k + 4], fs[k + 4..], ok);
    assert fs[k + 3..k + 7] == [fs[k + 3]] + fs[k + 4..];
    AllOfBoth(doc, [fs[k + 3]], fs[k + 4..], ok);
    OneOf(doc, fs[k + 3], ok);
  }

  lemma OneOf(doc: PyVal, f: (string, Kind), ok: (PyVal, (string, Kind)) -> bool)
    ensures AllFields(doc, [f], ok) <==> ok(doc, f)
  {
    assert [f][0] == f;
  }

  lemma PayloadNames()
    ensures |REQUIRED_PAYLOAD_FIELDS| == 15
    ensures var fs := REQUIRED_PAYLOAD_FIELDS;
      && fs[0] == ("grant_format_version", AText) && fs[1] == ("grant_id", AText)
      && fs[2] == ("decision_record_id", AText) && fs[3] == ("work_request_id", AText)
      && fs[4] == ("requesting_principal_id", AText) && fs[5] == ("organization_id", AText)
      && fs[6] == ("workspace_id", AText) && fs[7] == ("provider_id", AText)
      && fs[8] == ("permitted_operations", AList) && fs[9] == ("argument_constraints", ADict)
      && fs[10] == ("data_classifications", AList) && fs[11] == ("policy_versions", AList)
      && fs[12] == ("kernel_version", AText) && fs[13] == ("issued_at", AText) && fs[14] == ("issuer_key_id", AText)
  {
  }

  lemma OptionalNames()
    ensures |OPTIONAL_PAYLOAD_FIELDS| == 8
    ensures var fs := OPTIONAL_PAYLOAD_FIELDS;
      && fs[0] == ("work_request_revision", TextOrNull) && fs[1] == ("budget_limit_usd", NumberOrNull)
      && fs[2] == ("delegation_depth", AnInt) && fs[3] == ("delegation_max_depth", IntOrNull)
      && fs[4] == ("not_before", TextOrNull) && fs[5] == ("not_after", TextOrNull)
      && fs[6] == ("revocation_state", TextOrNull) && fs[7] == ("correlation_id", TextOrNull)
  {
  }

  lemma ListNames()
    ensures |REQUIRED_LIST_FIELDS| == 8
    ensures var fs := REQUIRED_LIST_FIELDS;
      && fs[0] == ("revocation_list_format_version", AText) && fs[1] == ("issuer_key_id", AText)
      && fs[2] == ("issued_at", AText) && fs[3] == ("revoked_grant_ids", AList)
      && fs[4] == ("supersedes", TextOrNull) && fs[5] == ("list_id", AText)
      && fs[6] == ("signature_scheme", AText) && fs[7] == ("signature", AText)
  {
  }

  lemma RequiredByName(p: PyVal)
    ensures AllFields(p, REQUIRED_PAYLOAD_FIELDS, RequiredOk) <==> HasRequired(p)
  {
    hide AllFields, RequiredOk, TextAt, Field, REQUIRED_PAYLOAD_FIELDS, IsList, IsDict;
    var fs := REQUIRED_PAYLOAD_FIELDS;
    PayloadNames();
    RequiredFields(p);
    EightAre(p, fs, 0, RequiredOk);
    SevenAre(p, fs, 8, RequiredOk);
    assert fs == fs[0..8] + fs[8..];
    AllOfBoth(p, fs[0..8], fs[8..], RequiredOk);
  }

  lemma RequiredFields(p: PyVal)
    ensures forall key :: RequiredOk(p, (key, AText)) <==> TextAt(p, key) != ""
    ensures forall key :: RequiredOk(p, (key, AList)) <==> IsList(Field(p, key))
    ensures forall key :: RequiredOk(p, (key, ADict)) <==> IsDict(Field(p, key))
  {
    hide ValueIn, Field;
  }

  lemma OptionalFields(p: PyVal)
    ensures forall key :: OptionalOk(p, (key, TextOrNull)) <==> MaybeText(Field(p, key))
    ensures forall key :: OptionalOk(p, (key, AnInt)) <==>
              (Field(p, key).None? || Field(p, key).value.Int? || Field(p, key).value.Bool?)
    ensures forall key :: OptionalOk(p, (key, IntOrNull)) <==>
              (var v := Field(p, key); v.None? || v.value.None_? || v.value.Int? || v.value.Bool?)
    ensures forall key :: OptionalOk(p, (key, NumberOrNull)) <==>
              (var v := Field(p, key); v.None? || v.value.None_? || v.value.Int? || v.value.Bool? || v.value.Float?)
  {
    hide ValueIn, Field;
  }

  lemma OptionalByName(p: PyVal)
    ensures AllFields(p, OPTIONAL_PAYLOAD_FIELDS, OptionalOk) <==> OptionalFit(p)
  {
    hide AllFields, OptionalOk, Field, MaybeText, OPTIONAL_PAYLOAD_FIELDS;
    OptionalFields(p);
    OptionalNames();
    var fs := OPTIONAL_PAYLOAD_FIELDS;
    EightAre(p, fs, 0, OptionalOk);
    assert fs == fs[0..8];
  }

  /** The field tables of the verifier say exactly this of a payload. */
  lemma PayloadShape(p: PyVal)
    ensures WellShapedPayload(p) <==> HasRequired(p) && OptionalFit(p)
  {
    hide AllFields, HasRequired, OptionalFit;
    RequiredByName(p);
    OptionalByName(p);
  }

  /** A revocation list: its fields, and only nonempty texts among the ids. */
  ghost predicate ListFits(doc: PyVal) {
    && IsText(Field(doc, "revocation_list_format_version")) && IsText(Field(doc, "signature_scheme"))
    && TextAt(doc, "issuer_key_id") != "" && TextAt(doc, "issued_at") != ""
    && TextAt(doc, "list_id") != "" && TextAt(doc, "signature") != ""
    && Field(doc, "supersedes").Some? && MaybeText(Field(doc, "supersedes"))
    && IsList(Field(doc, "revoked_grant_ids"))
    && forall v <- ItemsAt(doc, "revoked_grant_ids") :: v.Str? && v.s != ""
  }

  lemma ListFields(doc: PyVal)
    ensures ListFieldOk(doc, ("revocation_list_format_version", AText)) <==>
              IsText(Field(doc, "revocation_list_format_version"))
    ensures ListFieldOk(doc, ("issuer_key_id", AText)) <==> TextAt(doc, "issuer_key_id") != ""
    ensures ListFieldOk(doc, ("issued_at", AText)) <==> TextAt(doc, "issued_at") != ""
    ensures ListFieldOk(doc, ("revoked_grant_ids", AList)) <==> IsList(Field(doc, "revoked_grant_ids"))
  {
    hide ValueIn, Field;
  }

  lemma MoreListFields(doc: PyVal)
    ensures ListFieldOk(doc, ("supersedes", TextOrNull)) <==>
              Field(doc, "supersedes").Some? && MaybeText(Field(doc, "supersedes"))
    ensures ListFieldOk(doc, ("list_id", AText)) <==> TextAt(doc, "list_id") != ""
    ensures ListFieldOk(doc, ("signature_scheme", AText)) <==> IsText(Field(doc, "signature_scheme"))
    ensures ListFieldOk(doc, ("signature", AText)) <==> TextAt(doc, "signature") != ""
  {
    hide ValueIn, Field;
  }

  lemma ListShapeByName(doc: PyVal)
    ensures WellShapedList(doc) <==> ListFits(doc)
  {
    hide AllFields, ListFieldOk, Field, TextAt, ItemsAt, MaybeText, IsText, IsList, REQUIRED_LIST_FIELDS;
    ListFields(doc);
    MoreListFields(doc);
    ListNames();
    var fs := REQUIRED_LIST_FIELDS;
    EightAre(doc, fs, 0, ListFieldOk);
    assert fs == fs[0..8];
  }

  /** A list's signature covers the document without its signature. */
  lemma {:induction false} WithoutKeeps(fs: seq<PyField>, key: string)
    ensures ValueIn(Without(fs, "signature"), StrKey(key))
         == if key == "signature" then None else ValueIn(fs, StrKey(key))
  {
    if fs != [] {
      WithoutKeeps(fs[1..], key);
      var rest := Without(fs[1..], "signature");
      assert ([fs[0]] + rest)[1..] == rest && [] + rest == rest;
    }
  }

  lemma UnsignedByName(doc: PyVal, key: string)
    requires doc.Dict?
    ensures Field(Unsigned(doc), key) == if key == "signature" then None else Field(doc, key)
  {
    WithoutKeeps(doc.fields, key);
  }

  // ----- the first objection --------------------------------------------------------

  /** To the shape of a grant. */
  function ShapeReason(grant: PyVal): string {
    if !grant.Dict? || !IsDict(Field(grant, "payload")) || !IsText(Field(grant, "signature_scheme"))
       || !IsText(Field(grant, "signature")) then "malformed_grant"
    else if TextAt(grant, "signature_scheme") != "Ed25519" then "unsupported_scheme"
    else if TextAt(Field(grant, "payload").value, "grant_format_version") != "1" then "unsupported_format"
    else if !HasRequired(Field(grant, "payload").value) || !OptionalFit(Field(grant, "payload").value)
    then "malformed_grant"
    else ""
  }

  /** To the key and the signature over a document. */
  function KeyReason(tr: Trust, pem: Option<string>, issuer: string, signature: string, signed: PyVal): string {
    if pem.None? then "missing_trust_root"
    else
      match tr.loadKey(pem.value)
      case Unreadable => "signature_mismatch"
      case NotEd25519 => "missing_trust_root"
      case Ed25519Key(id) =>
        if id != issuer then "unknown_issuer"
        else if !tr.verifies(pem.value, signature, signed) then "signature_mismatch"
        else ""
  }

  /** The instant a field names; None when it is not text or does not parse. */
  function TimeAt(tr: Trust, doc: PyVal, key: string): Option<int> {
    if IsText(Field(doc, key)) then tr.parseTime(TextAt(doc, key)) else None
  }

  /** To the window, at an instant; a text that does not parse is an objection by itself. */
  function WindowReason(tr: Trust, p: PyVal, at: string): string {
    if tr.parseTime(at).None? then "malformed_grant"
    else
      var t := tr.parseTime(at).value;
      if IsText(Field(p, "not_before")) && TimeAt(tr, p, "not_before").None? then "malformed_grant"
      else if IsText(Field(p, "not_before")) && t < TimeAt(tr, p, "not_before").value then "not_yet_valid"
      else if IsText(Field(p, "not_after")) && TimeAt(tr, p, "not_after").None? then "malformed_grant"
      else if IsText(Field(p, "not_after")) && TimeAt(tr, p, "not_after").value <= t then "expired"
      else ""
  }

  /** To a revocation list as such. */
  ghost function ListReason(tr: Trust, doc: PyVal, pem: Option<string>, at: string): string {
    if doc.None_? then "missing_revocation_list"
    else if !doc.Dict? || !IsText(Field(doc, "signature_scheme")) then "malformed_revocation_list"
    else if TextAt(doc, "signature_scheme") != "Ed25519" then "unsupported_scheme"
    else if TextAt(doc, "revocation_list_format_version") != "1" then "unsupported_format"
    else if !ListFits(doc) || TimeAt(tr, doc, "issued_at").None? || tr.parseTime(at).None?
    then "malformed_revocation_list"
    else if tr.parseTime(at).value < TimeAt(tr, doc, "issued_at").value then "not_yet_valid"
    else KeyReason(tr, pem, TextAt(doc, "issuer_key_id"), TextAt(doc, "signature"), Unsigned(doc))
  }

  /** Whether the grant's window reaches past the instant the list was issued. */
  predicate OutlivesList(tr: Trust, p: PyVal, list: PyVal) {
    TimeAt(tr, p, "not_after").None? || TimeAt(tr, list, "issued_at").None?
    || TimeAt(tr, p, "not_after").value > TimeAt(tr, list, "issued_at").value
  }

  /** From the list against the grant: a list that fails counts unless the grant ends before
      it; an authentic one names the grant, or is older than it. */
  ghost function RevocationReason(tr: Trust, p: PyVal, list: PyVal, pem: Option<string>, at: string): string {
    if list.None_? then ""
    else if ListReason(tr, list, pem, at) != "" then
      if OutlivesList(tr, p, list) then ListReason(tr, list, pem, at) else ""
    else if Str(TextAt(p, "grant_id")) in ItemsAt(list, "revoked_grant_ids") then "revoked"
    else if OutlivesList(tr, p, list)
            && (TimeAt(tr, p, "issued_at").None?
                || TimeAt(tr, p, "issued_at").value > TimeAt(tr, list, "issued_at").value)
    then "stale_revocation_list"
    else ""
  }

  /** To a grant; empty when there is none. */
  ghost function GrantReason(tr: Trust, grant: PyVal, pem: Option<string>, at: string, list: PyVal): string {
    if ShapeReason(grant) != "" then ShapeReason(grant)
    else
      var p := Field(grant, "payload").value;
      var key := KeyReason(tr, pem, TextAt(p, "issuer_key_id"), TextAt(grant, "signature"), p);
      if key != "" then key
      else if WindowReason(tr, p, at) != "" then WindowReason(tr, p, at)
      else RevocationReason(tr, p, list, pem, at)
  }

  // ----- the verifier agrees --------------------------------------------------------

  /** These codes give this reason: none for none, otherwise the text of the first. */
  predicate Gives(codes: seq<Code>, reason: string) {
    if codes == [] then reason == "" else reason == CodeText(codes[0])
  }

  lemma GivesThen(a: seq<Code>, x: string, b: seq<Code>, y: string)
    requires Gives(a, x) && Gives(b, y)
    ensures Gives(a + b, if x != "" then x else y)
  {
    if a != [] { CodesHaveTexts(a[0]); }
  }

  lemma CodesHaveTexts(c: Code)
    ensures CodeText(c) != ""
  {
  }

  lemma ShapeGives(grant: PyVal)
    ensures Gives(ShapeCodes(grant), ShapeReason(grant))
  {
    hide ValueIn, Field, WellShapedPayload, HasRequired, OptionalFit;
    if IsDict(Field(grant, "payload")) {
      PayloadShape(Field(grant, "payload").value);
      VersionGiven(Field(grant, "payload").value, "grant_format_version");
    }
  }

  lemma VersionGiven(doc: PyVal, key: string)
    ensures HasField(doc, (key, AText)) && TextAt(doc, key) == VERSION <==> TextAt(doc, key) == "1"
  {
    hide ValueIn;
  }

  lemma KeyGives(tr: Trust, pem: string, issuer: string, signature: string, signed: PyVal)
    ensures Gives(SignatureCodes(tr, pem, issuer, signature, signed),
                  KeyReason(tr, Some(pem), issuer, signature, signed))
  {
  }

  lemma WindowGives(tr: Trust, p: PyVal, at: string)
    requires WindowCodes(tr, p, at).Some? && OptionalFit(p)
    ensures Gives(WindowCodes(tr, p, at).value, WindowReason(tr, p, at))
  {
    hide ValueIn, Field;
  }

  /** The objection to a list's own shape, before its times are read. */
  ghost function ListShapeReason(doc: PyVal): string {
    if !IsText(Field(doc, "signature_scheme")) then "malformed_revocation_list"
    else if TextAt(doc, "signature_scheme") != "Ed25519" then "unsupported_scheme"
    else if TextAt(doc, "revocation_list_format_version") != "1" then "unsupported_format"
    else if !ListFits(doc) then "malformed_revocation_list"
    else ""
  }

  lemma ListShapeGives(doc: PyVal)
    ensures Gives(ListShapeCodes(doc), ListShapeReason(doc))
  {
    hide ValueIn, Field, WellShapedList, ListFits;
    ListShapeByName(doc);
    VersionGiven(doc, "revocation_list_format_version");
  }

  /** The objection to the time of a list, at an instant. */
  function ListTimeReason(tr: Trust, doc: PyVal, at: string): string {
    if TimeAt(tr, doc, "issued_at").None? || tr.parseTime(at).None? then "malformed_revocation_list"
    else if tr.parseTime(at).value < TimeAt(tr, doc, "issued_at").value then "not_yet_valid"
    else ""
  }

  /** The codes the verifier finds in the time of a list. */
  function TimeCodes(tr: Trust, doc: PyVal, at: string): seq<Code>
    requires TimeAt(tr, doc, "issued_at").Some?
  {
    match tr.parseTime(at)
    case None => [MalformedRevocationList]
    case Some(t) => if t < TimeAt(tr, doc, "issued_at").value then [Code.NotYetValid] else []
  }

  lemma ListTimeGives(tr: Trust, doc: PyVal, at: string)
    requires TimeAt(tr, doc, "issued_at").Some?
    ensures Gives(TimeCodes(tr, doc, at), ListTimeReason(tr, doc, at))
  {
    hide TimeAt;
  }

  lemma ListKeyGives(tr: Trust, doc: PyVal, pem: Option<string>)
    ensures Gives(if pem.None? then [MissingTrustRoot]
                  else SignatureCodes(tr, pem.value, TextAt(doc, "issuer_key_id"), TextAt(doc, "signature"),
                                      Unsigned(doc)),
                  KeyReason(tr, pem, TextAt(doc, "issuer_key_id"), TextAt(doc, "signature"), Unsigned(doc)))
  {
    hide TextAt, Unsigned;
    if pem.Some? {
      KeyGives(tr, pem.value, TextAt(doc, "issuer_key_id"), TextAt(doc, "signature"), Unsigned(doc));
    } else {
      NoKeyGives(tr, TextAt(doc, "issuer_key_id"), TextAt(doc, "signature"), Unsigned(doc));
    }
  }

  lemma ListIssuedByName(tr: Trust, doc: PyVal)
    ensures ListIssuedAt(tr, doc) == TimeAt(tr, doc, "issued_at")
  {
    hide ValueIn, Field;
  }

  lemma ListGives(tr: Trust, doc: PyVal, pem: Option<string>, at: string)
    ensures Gives(ListCodes(tr, doc, pem, at), ListReason(tr, doc, pem, at))
  {
    hide Field, ListShapeCodes, ListIssuedAt, SignatureCodes, KeyReason, ListFits, Unsigned, TimeAt, TextAt;
    if doc.Dict? {
      ListShapeGives(doc);
      ListIssuedByName(tr, doc);
      if ListShapeCodes(doc) != [] {
        CodesHaveTexts(ListShapeCodes(doc)[0]);
      } else if TimeAt(tr, doc, "issued_at").Some? {
        ListTimeGives(tr, doc, at);
        ListKeyGives(tr, doc, pem);
        GivesThen(TimeCodes(tr, doc, at), ListTimeReason(tr, doc, at),
                  if pem.None? then [MissingTrustRoot]
                  else SignatureCodes(tr, pem.value, TextAt(doc, "issuer_key_id"), TextAt(doc, "signature"),
                                      Unsigned(doc)),
                  KeyReason(tr, pem, TextAt(doc, "issuer_key_id"), TextAt(doc, "signature"), Unsigned(doc)));
      }
    }
  }

  lemma NoKeyGives(tr: Trust, issuer: string, signature: string, signed: PyVal)
    ensures Gives([MissingTrustRoot], KeyReason(tr, None, issuer, signature, signed))
  {
  }

  lemma OverlapByName(tr: Trust, p: PyVal, list: PyVal)
    requires OptionalFit(p) && BoundAt(tr, p, "not_after") != Unparseable
    ensures ListIssuedAt(tr, list) == TimeAt(tr, list, "issued_at")
    ensures ListIssuedAt(tr, list).Some? ==>
              (Overlaps(tr, p, ListIssuedAt(tr, list).value) <==> OutlivesList(tr, p, list))
    ensures ListIssuedAt(tr, list).None? ==> OutlivesList(tr, p, list)
  {
    hide ValueIn, Field;
  }

  lemma IssuedByName(tr: Trust, p: PyVal)
    requires HasRequired(p)
    ensures tr.parseTime(TextAt(p, "issued_at")) == TimeAt(tr, p, "issued_at")
  {
    hide ValueIn, Field;
  }

  lemma RevocationGives(tr: Trust, p: PyVal, list: PyVal, pem: Option<string>, at: string)
    requires HasRequired(p) && OptionalFit(p) && BoundAt(tr, p, "not_after") != Unparseable
    ensures Gives(RevocationCodes(tr, p, list, pem, at), RevocationReason(tr, p, list, pem, at))
  {
    hide ListCodes, ListReason, ListIssuedAt, Overlaps, OutlivesList, TimeAt, TextAt, ItemsAt, HasRequired, OptionalFit,
        BoundAt;
    ListGives(tr, list, pem, at);
    OverlapByName(tr, p, list);
    IssuedByName(tr, p);
    if !list.None_? && ListCodes(tr, list, pem, at) == [] { ListHasTime(tr, list, pem, at); }
    if ListCodes(tr, list, pem, at) != [] { CodesHaveTexts(ListCodes(tr, list, pem, at)[0]); }
  }

  lemma ListHasTime(tr: Trust, list: PyVal, pem: Option<string>, at: string)
    requires ListCodes(tr, list, pem, at) == []
    ensures ListIssuedAt(tr, list).Some?
  {
    hide ListIssuedAt, ListShapeCodes, SignatureCodes;
  }

  lemma NoWindowObjection(tr: Trust, p: PyVal, at: string)
    requires WindowCodes(tr, p, at) == Some([])
    ensures BoundAt(tr, p, "not_after") != Unparseable
  {
    hide BoundAt;
  }

  /** The verdict and the reason a caller is given, whenever the verifier does not raise: a
      grant is valid exactly when the reference reading has no objection, and the first code
      of any other is its first objection. */
  lemma FirstReason(tr: Trust, grant: PyVal, pem: Option<string>, at: string, list: PyVal)
    requires Verify(tr, grant, pem, at, None, list).Checked?
    ensures var v := Verify(tr, grant, pem, at, None, list).v;
            && (v.valid <==> GrantReason(tr, grant, pem, at, list) == "")
            && (!v.valid ==> v.codes != [] && CodeText(v.codes[0]) == GrantReason(tr, grant, pem, at, list))
  {
    hide ShapeCodes, ShapeReason, VerifyPayload, KeyReason, WindowReason, RevocationReason, TextAt, Field;
    ShapeGives(grant);
    RefusalSaysWhy(tr, grant, pem, at, None, list);
    if ShapeCodes(grant) == [] {
      PayloadThere(grant);
      PayloadGives(tr, PayloadOf(grant), TextAt(grant, "signature"), pem, at, list);
    } else {
      CodesHaveTexts(ShapeCodes(grant)[0]);
    }
  }

  /** A refusal lists every objection, not only the first: the key's, the window's and the
      list's, in this order, each stage led by its own reason. */
  lemma EveryObjection(tr: Trust, grant: PyVal, pem: string, at: string, list: PyVal)
    returns (key: seq<Code>, window: seq<Code>, revoked: seq<Code>)
    requires ShapeReason(grant) == "" && Verify(tr, grant, Some(pem), at, None, list).Checked?
    ensures var p := PayloadIn(grant);
      && Verify(tr, grant, Some(pem), at, None, list).v.codes == key + window + revoked
      && Gives(key, KeyReason(tr, Some(pem), TextAt(p, "issuer_key_id"), TextAt(grant, "signature"), p)) && |key| <= 1
      && Gives(window, WindowReason(tr, p, at)) && |window| <= 2
      && (window == [] ==> Gives(revoked, RevocationReason(tr, p, list, Some(pem), at)))
  {
    hide ShapeCodes, ShapeReason, SignatureCodes, KeyReason, WindowCodes, WindowReason, RevocationCodes,
        RevocationReason, TextAt, Field, WellShapedPayload, HasRequired, OptionalFit, Gives, BoundAt;
    ShapeGives(grant);
    NoCodesNoReason(ShapeCodes(grant), ShapeReason(grant));
    PayloadThere(grant);
    var p := PayloadOf(grant);
    PayloadShape(p);
    var issuer, signature := TextAt(p, "issuer_key_id"), TextAt(grant, "signature");
    key, window := SignatureCodes(tr, pem, issuer, signature, p), WindowCodes(tr, p, at).value;
    revoked := RevocationCodes(tr, p, list, Some(pem), at);
    KeyGives(tr, pem, issuer, signature, p);
    OneKeyCode(tr, pem, issuer, signature, p);
    WindowGives(tr, p, at);
    TwoWindowCodes(tr, p, at);
    if window == [] {
      NoWindowObjection(tr, p, at);
      RevocationGives(tr, p, list, Some(pem), at);
    }
    assert [] + key == key;
  }

  lemma OneKeyCode(tr: Trust, pem: string, issuer: string, signature: string, signed: PyVal)
    ensures |SignatureCodes(tr, pem, issuer, signature, signed)| <= 1
  {
  }

  lemma TwoWindowCodes(tr: Trust, p: PyVal, at: string)
    requires WindowCodes(tr, p, at).Some?
    ensures |WindowCodes(tr, p, at).value| <= 2
  {
    hide BoundAt;
  }

  /** The two flags of a verdict: a good signature under the trust root, and the window. */
  lemma VerdictFlags(tr: Trust, grant: PyVal, pem: Option<string>, at: string, list: PyVal)
    requires Verify(tr, grant, pem, at, None, list).Checked?
    ensures var v, p := Verify(tr, grant, pem, at, None, list).v, PayloadIn(grant);
      var shaped := ShapeReason(grant) == "" && pem.Some?;
      && (v.signatureValid <==>
            shaped && KeyReason(tr, pem, TextAt(p, "issuer_key_id"), TextAt(grant, "signature"), p) == "")
      && (v.withinWindow <==> shaped && WindowReason(tr, p, at) == "")
  {
    hide ShapeCodes, ShapeReason, SignatureCodes, KeyReason, WindowCodes, WindowReason, RevocationCodes, TextAt, Field,
        WellShapedPayload, HasRequired, OptionalFit, Gives;
    ShapeGives(grant);
    NoCodesNoReason(ShapeCodes(grant), ShapeReason(grant));
    if ShapeCodes(grant) == [] && pem.Some? {
      PayloadThere(grant);
      var p := PayloadOf(grant);
      PayloadShape(p);
      var issuer, signature := TextAt(p, "issuer_key_id"), TextAt(grant, "signature");
      KeyGives(tr, pem.value, issuer, signature, p);
      NoCodesNoReason(SignatureCodes(tr, pem.value, issuer, signature, p), KeyReason(tr, pem, issuer, signature, p));
      WindowGives(tr, p, at);
      NoCodesNoReason(WindowCodes(tr, p, at).value, WindowReason(tr, p, at));
    }
  }

  lemma NoCodesNoReason(codes: seq<Code>, x: string)
    requires Gives(codes, x)
    ensures codes == [] <==> x == ""
  {
    if codes != [] { CodesHaveTexts(codes[0]); }
  }

  /** The objection to a payload that has the shape of one. */
  ghost function PayloadReason(tr: Trust, p: PyVal, signature: string, pem: Option<string>, at: string,
                               list: PyVal): string
  {
    var key := KeyReason(tr, pem, TextAt(p, "issuer_key_id"), signature, p);
    if key != "" then key
    else if WindowReason(tr, p, at) != "" then WindowReason(tr, p, at)
    else RevocationReason(tr, p, list, pem, at)
  }

  lemma PayloadGives(tr: Trust, p: PyVal, signature: string, pem: Option<string>, at: string, list: PyVal)
    requires WellShapedPayload(p) && VerifyPayload(tr, p, signature, pem, at, None, list).Checked?
    ensures var v := VerifyPayload(tr, p, signature, pem, at, None, list).v;
            (v.valid <==> v.codes == []) && Gives(v.codes, PayloadReason(tr, p, signature, pem, at, list))
  {
    hide SignatureCodes, KeyReason, WindowCodes, WindowReason, RevocationCodes, RevocationReason, TextAt,
        WellShapedPayload, HasRequired, OptionalFit, BoundAt, Gives;
    PayloadShape(p);
    var issuer := TextAt(p, "issuer_key_id");
    if pem.None? {
      NoKeyGives(tr, issuer, signature, p);
      OnlyMissingRoot(tr, issuer, signature, p);
    } else {
      var sig, window := SignatureCodes(tr, pem.value, issuer, signature, p), WindowCodes(tr, p, at).value;
      KeyGives(tr, pem.value, issuer, signature, p);
      WindowGives(tr, p, at);
      AfterKey(tr, p, list, pem, at, sig, KeyReason(tr, pem, issuer, signature, p));
    }
  }

  lemma OnlyMissingRoot(tr: Trust, issuer: string, signature: string, p: PyVal)
    ensures KeyReason(tr, None, issuer, signature, p) == "missing_trust_root"
    ensures [] + [MissingTrustRoot] == [MissingTrustRoot]
  {
  }

  lemma AfterKey(tr: Trust, p: PyVal, list: PyVal, pem: Option<string>, at: string, sig: seq<Code>, key: string)
    requires HasRequired(p) && OptionalFit(p) && WindowCodes(tr, p, at).Some? && Gives(sig, key)
    ensures Gives([] + sig + WindowCodes(tr, p, at).value + RevocationCodes(tr, p, list, pem, at),
                  if key != "" then key
                  else if WindowReason(tr, p, at) != "" then WindowReason(tr, p, at)
                  else RevocationReason(tr, p, list, pem, at))
  {
    hide WindowCodes, WindowReason, RevocationCodes, RevocationReason, HasRequired, OptionalFit, Gives;
    var window, revoked := WindowCodes(tr, p, at).value, RevocationCodes(tr, p, list, pem, at);
    WindowGives(tr, p, at);
    GivesThen(sig, key, window, WindowReason(tr, p, at));
    assert [] + sig + window == sig + window;
    if window == [] {
      NoWindowObjection(tr, p, at);
      RevocationGives(tr, p, list, pem, at);
      GivesThen(sig + window, if key != "" then key else WindowReason(tr, p, at), revoked,
                RevocationReason(tr, p, list, pem, at));
    } else {
      FirstStays(sig + window, revoked, if key != "" then key else WindowReason(tr, p, at));
      SomeReason(window, WindowReason(tr, p, at));
    }
  }

  lemma FirstStays(a: seq<Code>, b: seq<Code>, x: string)
    requires a != [] && Gives(a, x)
    ensures Gives(a + b, x)
  {
  }

  lemma SomeReason(codes: seq<Code>, x: string)
    requires codes != [] && Gives(codes, x)
    ensures x != ""
  {
    CodesHaveTexts(codes[0]);
  }
}
