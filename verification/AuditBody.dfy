/** The bodies of audit records and the JSON text each is stored as (store.py `_canonical`). */
module AuditBody {
  import opened Wrappers
  import opened CanonicalJsonMeaning
  import opened JsonRecord
  import opened AuditChain

  /** `datetime.isoformat()` output: nothing it can print is the separator. */
  type IsoText = s: string | SepFree(s) witness ""

  /** A stored timestamp: its text, and the instant `fromisoformat` reads back from it. */
  datatype Stamp = Stamp(text: IsoText, instant: int)

  datatype NoteKind = SourceNote | IngestNote | AssertionNote | DriftNote

  datatype Body =
    | Decision(decisionId: string, principal: string, source: string, tool: string,
               allowed: bool, reason: string, determining: seq<string>, defaultDeny: bool)
    | GrantIssue(grantId: string, decisionId: string, principalId: string, sourceId: string, name: string,
                 argsHash: string, issuedAt: Stamp, expiresAt: Stamp, ttl: Option<int>)
    | GrantRedeem(grantId: string, decisionId: string, principalId: string, sourceId: string, name: string)
    | GrantClose(grantId: string, decisionId: string, closeReason: string, alreadyClosed: bool)
    | GrantRedeemDenied(grantId: string, deniedDecision: Option<string>, principalId: string, denyReason: string)
    | Outcome(decisionId: string, decisionSeq: int, outcome: string, detail: string)
    | ProviderEnforcement(govGrantId: Option<string>, recordId: Option<string>, correlationId: Option<string>,
                          issuerKeyId: Option<string>, providerId: string, principalId: string,
                          sourceId: string, name: string, argsHash: string, verified: bool,
                          failureCodes: seq<string>, outcome: string, verificationAt: string,
                          redeemedAt: Option<Stamp>)
    | Note(noteKind: NoteKind, sourceId: string, names: seq<string>)

  function KindOf(b: Body): string {
    match b
    case Decision(_, _, _, _, _, _, _, _) => "decision"
    case GrantIssue(_, _, _, _, _, _, _, _, _) => "grant_issue"
    case GrantRedeem(_, _, _, _, _) => "grant_redeem"
    case GrantClose(_, _, _, _) => "grant_close"
    case GrantRedeemDenied(_, _, _, _) => "grant_redeem_denied"
    case Outcome(_, _, _, _) => "outcome"
    case ProviderEnforcement(_, _, _, _, _, _, _, _, _, _, _, _, _, _) => "provider_enforcement"
    case Note(k, _, _) =>
      match k
      case SourceNote => "source"
      case IngestNote => "ingest"
      case AssertionNote => "assertion"
      case DriftNote => "drift"
  }

  /** The items of the dict handed to the append, in the order the code writes them. */
  function Columns(b: Body): seq<Column> {
    match b
    case Decision(did, p, s, t, allowed, reason, ps, dd) =>
      [Column("principal", Word(p)), Column("source", Word(s)), Column("tool", Word(t)),
       Column("qualified", Word(s + ":" + t)), Column("allowed", Flag(allowed)), Column("reason", Word(reason)),
       Column("determining_policies", Words(ps)), Column("default_deny", Flag(dd)), Column("decision_id", Word(did))]
    case GrantIssue(gid, did, p, s, n, h, i, e, ttl) =>
      [Column("grant_id", Word(gid)), Column("decision_id", Word(did)), Column("principal_id", Word(p)),
       Column("source_id", Word(s)), Column("name", Word(n)), Column("args_hash", Word(h)),
       Column("issued_at", Word(i.text)), Column("expires_at", Word(e.text)),
       Column("ttl_seconds", if ttl.None? then Null else Number(ttl.value))]
    case GrantRedeem(gid, did, p, s, n) =>
      [Column("grant_id", Word(gid)), Column("decision_id", Word(did)), Column("principal_id", Word(p)),
       Column("source_id", Word(s)), Column("name", Word(n))]
    case GrantClose(gid, did, reason, already) =>
      [Column("grant_id", Word(gid)), Column("decision_id", Word(did)), Column("reason", Word(reason)),
       Column("already_closed", Flag(already))]
    case GrantRedeemDenied(gid, did, p, reason) =>
      [Column("grant_id", Word(gid)), Column("decision_id", Opt(did)), Column("principal_id", Word(p)),
       Column("reason", Word(reason))]
    case Outcome(did, n, outcome, detail) =>
      [Column("decision_id", Word(did)), Column("decision_seq", Number(n)), Column("outcome", Word(outcome)),
       Column("detail", Word(detail))]
    case ProviderEnforcement(gid, rid, cid, kid, prov, p, s, n, h, ver, codes, outcome, at, red) =>
      [Column("grant_id", Opt(gid)), Column("decision_record_id", Opt(rid)), Column("correlation_id", Opt(cid)),
       Column("issuer_key_id", Opt(kid)), Column("provider_id", Word(prov)), Column("principal_id", Word(p)),
       Column("source_id", Word(s)), Column("name", Word(n)), Column("args_hash", Word(h)),
       Column("verified", Flag(ver)),
       Column("failure_codes", Words(codes)), Column("outcome", Word(outcome)), Column("verification_at", Word(at)),
       Column("redeemed_at", if red.None? then Null else Word(red.value.text))]
    case Note(_, s, names) => [Column("source_id", Word(s)), Column("names", Words(names))]
  }

  lemma EnforcementNamesDistinct(b: Body)
    requires b.ProviderEnforcement?
    ensures DistinctColumns(Columns(b))
  {
  }

  lemma IssueNamesDistinct(b: Body)
    requires b.GrantIssue? || b.GrantRedeem? || b.GrantClose?
    ensures DistinctColumns(Columns(b))
  {
  }

  lemma ColumnNamesDistinct(b: Body)
    ensures DistinctColumns(Columns(b))
  {
    if b.ProviderEnforcement? {
      EnforcementNamesDistinct(b);
    } else if b.GrantIssue? || b.GrantRedeem? || b.GrantClose? {
      IssueNamesDistinct(b);
    }
  }

  /** The text `_canonical` stores for a body. */
  function BodyText(b: Body): string {
    ColumnNamesDistinct(b);
    RecordText(Columns(b))
  }

  /** What the program hashes never holds the separator, whatever its field values hold. */
  lemma EntryIsClean(b: Body, created: IsoText)
    ensures CleanEntry(Entry(KindOf(b), BodyText(b), created))
  {
    ColumnNamesDistinct(b);
    CanonicalIsAscii(RecordDict(Columns(b)));
    AsciiIsSepFree(BodyText(b));
    KindIsSepFree(b);
  }

  lemma AsciiIsSepFree(s: string)
    requires Ascii(s)
    ensures SepFree(s)
  {
  }

  lemma KindIsSepFree(b: Body)
    ensures SepFree(KindOf(b))
  {
  }
}
