/** The offline verifier of governance execution grants and revocation lists (govgrants.py).
    Key loading, signatures and timestamp parsing are parameters. */
module GovGrants {
  import opened Wrappers
  import opened CanonicalJson
  import opened Documents
  import opened PyEquality

  // ----- failure codes --------------------------------------------------------------

  datatype Code =
    | MalformedGrant | UnsupportedScheme | UnsupportedFormat | KeyIdMismatch | MissingTrustRoot
    | UnknownIssuer | SignatureMismatch | NotYetValid | Expired
    | MissingRevocationList | MalformedRevocationList | Revoked | StaleRevocationList
    | ProviderMismatch | OperationNotPermitted | PrincipalMismatch | ScopeMismatch | ArgsMismatch

  function CodeText(c: Code): string {
    match c
    case MalformedGrant => "malformed_grant"
    case UnsupportedScheme => "unsupported_scheme"
    case UnsupportedFormat => "unsupported_format"
    case KeyIdMismatch => "key_id_mismatch"
    case MissingTrustRoot => "missing_trust_root"
    case UnknownIssuer => "unknown_issuer"
    case SignatureMismatch => "signature_mismatch"
    case NotYetValid => "not_yet_valid"
    case Expired => "expired"
    case MissingRevocationList => "missing_revocation_list"
    case MalformedRevocationList => "malformed_revocation_list"
    case Revoked => "revoked"
    case StaleRevocationList => "stale_revocation_list"
    case ProviderMismatch => "provider_mismatch"
    case OperationNotPermitted => "operation_not_permitted"
    case PrincipalMismatch => "principal_mismatch"
    case ScopeMismatch => "scope_mismatch"
    case ArgsMismatch => "args_mismatch"
  }

  // ----- documents ------------------------------------------------------------------

  /** The Python types a field may have; a bool is an int to `isinstance`. */
  datatype Kind = AText | AList | ADict | AnInt | TextOrNull | IntOrNull | NumberOrNull

  predicate HasKind(v: PyVal, k: Kind) {
    match k
    case AText => v.Str?
    case AList => v.List?
    case ADict => v.Dict?
    case AnInt => v.Int? || v.Bool?
    case TextOrNull => v.Str? || v.None_?
    case IntOrNull => v.Int? || v.Bool? || v.None_?
    case NumberOrNull => v.Int? || v.Bool? || v.Float? || v.None_?
  }

  const REQUIRED_PAYLOAD_FIELDS: seq<(string, Kind)> := [
    ("grant_format_version", AText), ("grant_id", AText), ("decision_record_id", AText), ("work_request_id", AText),
    ("requesting_principal_id", AText), ("organization_id", AText), ("workspace_id", AText), ("provider_id", AText),
    ("permitted_operations", AList), ("argument_constraints", ADict), ("data_classifications", AList),
    ("policy_versions", AList), ("kernel_version", AText), ("issued_at", AText), ("issuer_key_id", AText)]

  const OPTIONAL_PAYLOAD_FIELDS: seq<(string, Kind)> := [
    ("work_request_revision", TextOrNull), ("budget_limit_usd", NumberOrNull), ("delegation_depth", AnInt),
    ("delegation_max_depth", IntOrNull), ("not_before", TextOrNull), ("not_after", TextOrNull),
    ("revocation_state", TextOrNull), ("correlation_id", TextOrNull)]

  const REQUIRED_LIST_FIELDS: seq<(string, Kind)> := [
    ("revocation_list_format_version", AText), ("issuer_key_id", AText), ("issued_at", AText),
    ("revoked_grant_ids", AList), ("supersedes", TextOrNull), ("list_id", AText), ("signature_scheme", AText),
    ("signature", AText)]

  const NONEMPTY_LIST_FIELDS := {"issuer_key_id", "issued_at", "list_id", "signature"}

  const SCHEME := "Ed25519"
  const VERSION := "1"
  const INVOKE := "tool.invoke"

  predicate HasField(doc: PyVal, f: (string, Kind)) { Field(doc, f.0).Some? && HasKind(Field(doc, f.0).value, f.1) }

  /** A required payload field is there with its type, and a text one is not empty. */
  predicate RequiredOk(doc: PyVal, f: (string, Kind)) {
    HasField(doc, f) && (f.1 == AText ==> TextAt(doc, f.0) != "")
  }

  predicate OptionalOk(doc: PyVal, f: (string, Kind)) { Field(doc, f.0).Some? ==> HasField(doc, f) }

  predicate ListFieldOk(doc: PyVal, f: (string, Kind)) {
    HasField(doc, f) && (f.0 in NONEMPTY_LIST_FIELDS ==> TextAt(doc, f.0) != "")
  }

  predicate AllFields(doc: PyVal, fs: seq<(string, Kind)>, ok: (PyVal, (string, Kind)) -> bool) {
    forall i :: 0 <= i < |fs| ==> ok(doc, fs[i])
  }

  predicate WellShapedPayload(p: PyVal) {
    AllFields(p, REQUIRED_PAYLOAD_FIELDS, RequiredOk) && AllFields(p, OPTIONAL_PAYLOAD_FIELDS, OptionalOk)
  }

  predicate RevokedIdsOk(ids: seq<PyVal>) { forall i :: 0 <= i < |ids| ==> ids[i].Str? && ids[i].s != "" }

  predicate WellShapedList(doc: PyVal) {
    AllFields(doc, REQUIRED_LIST_FIELDS, ListFieldOk) && RevokedIdsOk(ItemsAt(doc, "revoked_grant_ids"))
  }

  /** The for-else scan of a field table: stops at the first field that is not as it must be. */
  method ScanFields(doc: PyVal, fs: seq<(string, Kind)>, ok: (PyVal, (string, Kind)) -> bool) returns (good: bool)
    ensures good <==> AllFields(doc, fs, ok)
  {
    for i := 0 to |fs|
      invariant forall j :: 0 <= j < i ==> ok(doc, fs[j])
    {
      if !ok(doc, fs[i]) { return false; }
    }
    return true;
  }

  // ----- trust ----------------------------------------------------------------------

  datatype Key = Unreadable | NotEd25519 | Ed25519Key(id: string)

  /** What the verifier calls out to: RFC 3339 parsing to an instant (None is ValueError),
      PEM loading with the key id, the signature check over the canonical bytes of a
      document (false is InvalidSignature or ValueError), and what floats are worth. */
  datatype Trust = Trust(parseTime: string -> Option<int>, loadKey: string -> Key,
                         verifies: (string, string, PyVal) -> bool, floats: Floats)

  /** The codes of the key and signature stage; none exactly when the signature is good. */
  function SignatureCodes(tr: Trust, pem: string, issuer: string, signature: string, signed: PyVal): seq<Code> {
    match tr.loadKey(pem)
    case Unreadable => [SignatureMismatch]
    case NotEd25519 => [MissingTrustRoot]
    case Ed25519Key(id) =>
      if id != issuer then [UnknownIssuer]
      else if !tr.verifies(pem, signature, signed) then [SignatureMismatch]
      else []
  }

  // ----- structure ------------------------------------------------------------------

  /** The failures of a grant's shape; its payload only when there are none. */
  function ShapeCodes(grant: PyVal): seq<Code> {
    if !grant.Dict? || !(Field(grant, "payload").Some? && Field(grant, "payload").value.Dict?)
       || !HasField(grant, ("signature_scheme", AText)) || !HasField(grant, ("signature", AText))
    then [MalformedGrant]
    else
      var p := Field(grant, "payload").value;
      (if TextAt(grant, "signature_scheme") != SCHEME then [UnsupportedScheme] else [])
      + (if !(HasField(p, ("grant_format_version", AText)) && TextAt(p, "grant_format_version") == VERSION)
         then [UnsupportedFormat, MalformedGrant]
         else if !WellShapedPayload(p) then [MalformedGrant]
         else [])
  }

  function PayloadOf(grant: PyVal): (p: PyVal)
    requires ShapeCodes(grant) == []
    ensures p.Dict? && WellShapedPayload(p)
  {
    Field(grant, "payload").value
  }

  /** `_structural_failures`, in the order the checks are made. */
  method StructuralFailures(grant: PyVal) returns (codes: seq<Code>, payload: Option<PyVal>)
    ensures codes == ShapeCodes(grant)
    ensures payload == if codes == [] then Some(PayloadOf(grant)) else None
  {
    if !grant.Dict? { return [MalformedGrant], None; }
    var p, scheme, signature := Field(grant, "payload"), Field(grant, "signature_scheme"), Field(grant, "signature");
    if !(p.Some? && p.value.Dict?) || !(scheme.Some? && scheme.value.Str?)
        || !(signature.Some? && signature.value.Str?) {
      return [MalformedGrant], None;
    }
    codes := [];
    if scheme.value.s != SCHEME { codes := codes + [UnsupportedScheme]; }
    var fmt := Field(p.value, "grant_format_version");
    if !(fmt.Some? && fmt.value.Str?) || fmt.value.s != VERSION {
      codes := codes + [UnsupportedFormat];
      return codes + [MalformedGrant], None;
    }
    var good := ScanFields(p.value, REQUIRED_PAYLOAD_FIELDS, RequiredOk);
    if good { good := ScanFields(p.value, OPTIONAL_PAYLOAD_FIELDS, OptionalOk); }
    if !good { codes := codes + [MalformedGrant]; }
    return codes, if codes != [] then None else p;
  }

  // ----- revocation lists -----------------------------------------------------------

  function ListShapeCodes(doc: PyVal): seq<Code> {
    (if !HasField(doc, ("signature_scheme", AText)) then [MalformedRevocationList]
     else if TextAt(doc, "signature_scheme") != SCHEME then [UnsupportedScheme]
     else [])
    + (if !(HasField(doc, ("revocation_list_format_version", AText))
            && TextAt(doc, "revocation_list_format_version") == VERSION)
       then [UnsupportedFormat, MalformedRevocationList]
       else if !WellShapedList(doc) then [MalformedRevocationList]
       else [])
  }

  function Without(fs: seq<PyField>, key: string): seq<PyField> {
    if fs == [] then []
    else (if fs[0].key == StrKey(key) then [] else [fs[0]]) + Without(fs[1..], key)
  }

  /** The part of a list document its signature covers. */
  function Unsigned(doc: PyVal): PyVal {
    if doc.Dict? then Dict(Without(doc.fields, "signature")) else doc
  }

  /** The instant a list document claims to have been issued at, authentic or not. */
  function ListIssuedAt(tr: Trust, doc: PyVal): Option<int> {
    if HasField(doc, ("issued_at", AText)) then tr.parseTime(TextAt(doc, "issued_at")) else None
  }

  function ListCodes(tr: Trust, doc: PyVal, pem: Option<string>, at: string): seq<Code> {
    if doc.None_? then [MissingRevocationList]
    else if !doc.Dict? then [MalformedRevocationList]
    else if ListShapeCodes(doc) != [] then ListShapeCodes(doc)
    else
      match ListIssuedAt(tr, doc)
      case None => [MalformedRevocationList]
      case Some(issued) =>
        (match tr.parseTime(at)
         case None => [MalformedRevocationList]
         case Some(t) => if t < issued then [NotYetValid] else [])
        + (if pem.None? then [MissingTrustRoot]
           else SignatureCodes(tr, pem.value, TextAt(doc, "issuer_key_id"), TextAt(doc, "signature"), Unsigned(doc)))
  }

  method ListStructure(tr: Trust, doc: PyVal) returns (codes: seq<Code>, issuedAt: Option<int>)
    requires doc.Dict?
    ensures ListShapeCodes(doc) != [] ==> codes == ListShapeCodes(doc) && issuedAt.None?
    ensures ListShapeCodes(doc) == [] ==> issuedAt == ListIssuedAt(tr, doc)
    ensures ListShapeCodes(doc) == [] ==> codes == if issuedAt.None? then [MalformedRevocationList] else []
  {
    hide WellShapedList;
    codes := [];
    var scheme := Field(doc, "signature_scheme");
    if !(scheme.Some? && scheme.value.Str?) {
      codes := codes + [MalformedRevocationList];
    } else if scheme.value.s != SCHEME {
      codes := codes + [UnsupportedScheme];
    }
    var fmt := Field(doc, "revocation_list_format_version");
    if !(fmt.Some? && fmt.value.Str?) || fmt.value.s != VERSION {
      codes := codes + [UnsupportedFormat];
      return codes + [MalformedRevocationList], None;
    }
    var good := ScanFields(doc, REQUIRED_LIST_FIELDS, ListFieldOk);
    if !good {
      codes := codes + [MalformedRevocationList];
    } else if !RevokedIdsOk(ItemsAt(doc, "revoked_grant_ids")) {
      codes := codes + [MalformedRevocationList];
    }
    ListShape(doc, good);
    issuedAt := None;
    if codes == [] {
      ListFieldThere(doc, 2);
      issuedAt := tr.parseTime(TextAt(doc, "issued_at"));
      if issuedAt.None? { codes := codes + [MalformedRevocationList]; }
    }
  }

  lemma ListShape(doc: PyVal, good: bool)
    requires good <==> AllFields(doc, REQUIRED_LIST_FIELDS, ListFieldOk)
    ensures WellShapedList(doc) <==> good && RevokedIdsOk(ItemsAt(doc, "revoked_grant_ids"))
  {
  }

  lemma ListFieldThere(doc: PyVal, i: nat)
    requires WellShapedList(doc) && i < |REQUIRED_LIST_FIELDS|
    ensures ListFieldOk(doc, REQUIRED_LIST_FIELDS[i])
  {
  }

  /** `verify_revocation_list`: no codes means authentic, well-formed and in force. */
  method VerifyRevocationList(tr: Trust, doc: PyVal, pem: Option<string>, at: string) returns (codes: seq<Code>)
    ensures codes == ListCodes(tr, doc, pem, at)
  {
    hide ListShapeCodes, ListIssuedAt, Field, Unsigned;
    if doc.None_? { return [MissingRevocationList]; }
    if !doc.Dict? { return [MalformedRevocationList]; }
    var issuedAt;
    codes, issuedAt := ListStructure(tr, doc);
    if issuedAt.None? { return; }
    var t := tr.parseTime(at);
    if t.None? {
      codes := codes + [MalformedRevocationList];
    } else if t.value < issuedAt.value {
      codes := codes + [NotYetValid];
    }
    if pem.None? {
      codes := codes + [MissingTrustRoot];
      return;
    }
    var found := CheckSignature(tr, pem.value, TextAt(doc, "issuer_key_id"), TextAt(doc, "signature"), Unsigned(doc));
    codes := codes + found;
  }

  /** The try block shared by both verifiers; an exception adds a code only when no more
      precise one was found. */
  method CheckSignature(tr: Trust, pem: string, issuer: string, signature: string, signed: PyVal)
    returns (codes: seq<Code>)
    ensures codes == SignatureCodes(tr, pem, issuer, signature, signed)
  {
    codes := [];
    var raised := false;
    var key := tr.loadKey(pem);
    if key.Unreadable? {
      raised := true;
    } else if !key.Ed25519Key? {
      codes := codes + [MissingTrustRoot];
    } else if key.id != issuer {
      codes := codes + [UnknownIssuer];
    } else {
      raised := !tr.verifies(pem, signature, signed);
    }
    if raised && UnknownIssuer !in codes && MissingTrustRoot !in codes {
      codes := codes + [SignatureMismatch];
    }
  }

  // ----- grants ---------------------------------------------------------------------

  datatype Verification = Verification(valid: bool, signatureValid: bool, withinWindow: bool, codes: seq<Code>,
                                       issuerKeyId: Option<string>, payload: Option<PyVal>)

  /** A lookup of an absent window key escapes as KeyError. */
  datatype Outcome = Raised | Checked(v: Verification)

  /** One end of the validity window: absent, unbounded, unparseable, or an instant. */
  datatype Bound = Absent | Unbounded | Unparseable | Instant(t: int)

  function BoundAt(tr: Trust, p: PyVal, key: string): Bound {
    match Field(p, key)
    case None => Absent
    case Some(v) =>
      if !v.Str? then Unbounded
      else match tr.parseTime(v.s) case None => Unparseable case Some(t) => Instant(t)
  }

  /** The codes of the window stage; None when a key lookup raised. */
  function WindowCodes(tr: Trust, p: PyVal, at: string): Option<seq<Code>> {
    var t, lo, hi := tr.parseTime(at), BoundAt(tr, p, "not_before"), BoundAt(tr, p, "not_after");
    if t.None? then Some([MalformedGrant])
    else if lo.Absent? then None
    else if lo.Unparseable? then Some([MalformedGrant])
    else
      var early := if lo.Instant? && t.value < lo.t then [NotYetValid] else [];
      if hi.Absent? then None
      else if hi.Unparseable? then Some(early + [MalformedGrant])
      else Some(if hi.Instant? && t.value >= hi.t then early + [Expired] else early)
  }

  /** Whether the grant can still be in force once the list claims to speak. */
  predicate Overlaps(tr: Trust, p: PyVal, coverage: int) {
    var hi := BoundAt(tr, p, "not_after");
    hi.Instant? ==> hi.t > coverage
  }

  function RevocationCodes(tr: Trust, p: PyVal, list: PyVal, pem: Option<string>, at: string): seq<Code> {
    if list.None_? then []
    else
      var codes, coverage := ListCodes(tr, list, pem, at), ListIssuedAt(tr, list);
      if codes != [] then
        if coverage.None? || Overlaps(tr, p, coverage.value) then codes else []
      else
        var issued := tr.parseTime(TextAt(p, "issued_at"));
        (if Str(TextAt(p, "grant_id")) in ItemsAt(list, "revoked_grant_ids") then [Revoked] else [])
        + (if coverage.Some? && Overlaps(tr, p, coverage.value) && (issued.None? || issued.value > coverage.value)
           then [StaleRevocationList] else [])
  }

  function IssuerCodes(issuer: string, expected: Option<string>): seq<Code> {
    if expected.Some? && issuer != expected.value then [KeyIdMismatch] else []
  }

  function Verify(tr: Trust, grant: PyVal, pem: Option<string>, at: string, expected: Option<string>,
                  list: PyVal): Outcome {
    if ShapeCodes(grant) != [] then Checked(Verification(false, false, false, ShapeCodes(grant), None, None))
    else VerifyPayload(tr, PayloadOf(grant), TextAt(grant, "signature"), pem, at, expected, list)
  }

  /** The checks that follow once a grant has the shape of one. */
  function VerifyPayload(tr: Trust, p: PyVal, signature: string, pem: Option<string>, at: string,
                         expected: Option<string>, list: PyVal): Outcome
  {
    var issuer := TextAt(p, "issuer_key_id");
    var first := IssuerCodes(issuer, expected);
    if pem.None? then
      Checked(Verification(false, false, false, first + [MissingTrustRoot], Some(issuer), Some(p)))
    else
      var sig := SignatureCodes(tr, pem.value, issuer, signature, p);
      var window := WindowCodes(tr, p, at);
      if window.None? then Raised
      else
        var codes := first + sig + window.value + RevocationCodes(tr, p, list, pem, at);
        Checked(Verification(codes == [], sig == [], window.value == [], codes, Some(issuer), Some(p)))
  }

  /** The window checks, one lookup at a time. */
  method CheckWindow(tr: Trust, p: PyVal, at: string) returns (within: bool, codes: Option<seq<Code>>)
    requires WellShapedPayload(p)
    ensures codes == WindowCodes(tr, p, at)
    ensures codes.Some? ==> (within <==> codes.value == [])
  {
    hide WellShapedPayload;
    var found: seq<Code> := [];
    var t := tr.parseTime(at);
    if t.None? { return false, Some([MalformedGrant]); }
    WindowFieldTypes(p);
    var lo := Field(p, "not_before");
    if lo.None? { return false, None; }
    if !lo.value.None_? {
      var nb := tr.parseTime(lo.value.s);
      if nb.None? { return false, Some([MalformedGrant]); }
      if t.value < nb.value { found := [NotYetValid]; }
    }
    var hi := Field(p, "not_after");
    if hi.None? { return false, None; }
    if !hi.value.None_? {
      var na := tr.parseTime(hi.value.s);
      if na.None? { return false, Some(found + [MalformedGrant]); }
      if t.value >= na.value { found := found + [Expired]; }
    }
    return found == [], Some(found);
  }

  lemma WindowFieldTypes(p: PyVal)
    requires WellShapedPayload(p)
    ensures Field(p, "not_before").Some? ==> Field(p, "not_before").value.Str? || Field(p, "not_before").value.None_?
    ensures Field(p, "not_after").Some? ==> Field(p, "not_after").value.Str? || Field(p, "not_after").value.None_?
  {
    hide ValueIn;
    assert OptionalOk(p, OPTIONAL_PAYLOAD_FIELDS[4]) && OptionalOk(p, OPTIONAL_PAYLOAD_FIELDS[5]);
  }

  /** The revocation checks: nothing without a list, the list's own failures where it claims
      to cover the grant, or what an authentic list says of it. */
  method CheckRevocation(tr: Trust, p: PyVal, list: PyVal, pem: Option<string>, at: string) returns (codes: seq<Code>)
    ensures codes == RevocationCodes(tr, p, list, pem, at)
  {
    hide ListCodes, ListIssuedAt, BoundAt, Overlaps, Field;
    if list.None_? { return []; }
    var listCodes := VerifyRevocationList(tr, list, pem, at);
    var coverage := ListIssuedAt(tr, list);
    if listCodes != [] {
      return if coverage.None? || Overlaps(tr, p, coverage.value) then listCodes else [];
    }
    codes := [];
    if Str(TextAt(p, "grant_id")) in ItemsAt(list, "revoked_grant_ids") { codes := codes + [Revoked]; }
    if coverage.Some? && Overlaps(tr, p, coverage.value) {
      var issued := tr.parseTime(TextAt(p, "issued_at"));
      if issued.None? || issued.value > coverage.value { codes := codes + [StaleRevocationList]; }
    }
  }

  lemma AllEmpty(a: seq<Code>, b: seq<Code>, c: seq<Code>, d: seq<Code>)
    ensures a + b + c + d == [] <==> a == [] && b == [] && c == [] && d == []
  {
    assert |a + b + c + d| == |a| + |b| + |c| + |d|;
  }

  method CheckIssuer(issuer: string, expected: Option<string>) returns (codes: seq<Code>)
    ensures codes == IssuerCodes(issuer, expected)
  {
    codes := [];
    if expected.Some? && issuer != expected.value { codes := codes + [KeyIdMismatch]; }
  }

  method CheckPayload(tr: Trust, p: PyVal, signature: string, pem: Option<string>, at: string,
                      expected: Option<string>, list: PyVal) returns (o: Outcome)
    requires WellShapedPayload(p)
    ensures o == VerifyPayload(tr, p, signature, pem, at, expected, list)
  {
    hide WindowCodes, SignatureCodes, RevocationCodes, TextAt, WellShapedPayload, IssuerCodes, ValueIn, Field, BoundAt,
        Overlaps;
    var issuer := TextAt(p, "issuer_key_id");
    var codes := CheckIssuer(issuer, expected);
    if pem.None? {
      return Checked(Verification(false, false, false, codes + [MissingTrustRoot], Some(issuer), Some(p)));
    }
    var sig := CheckSignature(tr, pem.value, issuer, signature, p);
    codes := codes + sig;
    var within, window := CheckWindow(tr, p, at);
    if window.None? { return Raised; }
    codes := codes + window.value;
    var revocation := CheckRevocation(tr, p, list, pem, at);
    AllEmpty(IssuerCodes(issuer, expected), sig, window.value, revocation);
    codes := codes + revocation;
    return Checked(Verification(sig == [] && within && codes == [], sig == [], within, codes, Some(issuer), Some(p)));
  }

  /** `verify_grant`: failures gathered check by check; valid when none was found. */
  method VerifyGrant(tr: Trust, grant: PyVal, pem: Option<string>, at: string, expected: Option<string>, list: PyVal)
    returns (o: Outcome)
    ensures o == Verify(tr, grant, pem, at, expected, list)
  {
    hide ShapeCodes, VerifyPayload, TextAt, WellShapedPayload, PayloadOf;
    var codes, payload := StructuralFailures(grant);
    if payload.None? { return Checked(Verification(false, false, false, codes, None, None)); }
    o := CheckPayload(tr, payload.value, TextAt(grant, "signature"), pem, at, expected, list);
  }
}
