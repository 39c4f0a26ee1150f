/** The service's governed calls (service.py): what each does to the store, and what it
    answers. Identifiers and clock readings the program draws are arguments. */
module ServiceCalls {
  import opened Wrappers
  import opened CanonicalJson
  import opened AuditChain
  import opened AuditBody
  import opened Ledger
  import opened ToolCatalog
  import opened Policy
  import G = GovGrants
  import D = Documents
  import GS = GovScope
  import opened GovAcceptance

  /** A ServiceError's status, a store exception, or a KeyError from the verifier. */
  datatype Fault = Status(code: int) | StoreRaised(e: StoreError) | KeyMissing

  const BAD_REQUEST := Status(400)
  const UNKNOWN := Status(404)

  function ArgsHash(sha: string -> Digest, args: PyVal): Option<Digest> {
    match CanonicalArgs(args)
    case Success(text) => Some(sha(text))
    case Failure(_) => None
  }

  // ----- authorize ------------------------------------------------------------------

  const DEFAULT_TTL := 60
  const MIN_TTL := 1
  const MAX_TTL := 300
  const MICROS := 1_000_000

  /** A request to authorize. `principal` is None when it does not parse; `args` is None when
      the caller did not mention it, and `ttl` is `None_` when it was not given. */
  datatype Ask = Ask(principal: Option<Principal>, sid: string, name: string, context: Option<PyVal>,
                     args: Option<PyVal>, ttl: PyVal)

  /** What one authorize draws: two fresh identifiers and the clock. */
  datatype Draw = Draw(decisionId: string, grantId: string, issued: Stamp, expiresText: IsoText)

  datatype GrantReply = GrantReply(grantId: string, argsHash: string, expiresAt: IsoText, ttl: int)
  datatype Answer = Answer(verdict: Verdict, decisionId: string, grant: Option<GrantReply>)

  /** An integer in range, and not a bool; refused otherwise, never clamped. */
  function TtlOf(ttl: PyVal): Option<int> {
    if ttl.None_? then Some(DEFAULT_TTL)
    else if ttl.Int? && MIN_TTL <= ttl.i <= MAX_TTL then Some(ttl.i)
    else None
  }

  /** Everything about the shape of a request is checked before anything is recorded. */
  predicate Malformed(a: Ask) {
    || (a.context.Some? && !a.context.value.Dict?)
    || (a.args.None? && !a.ttl.None_?)
    || (a.args.Some? && (CanonicalArgs(a.args.value).Failure? || TtlOf(a.ttl).None?))
    || a.principal.None?
  }

  function Context(a: Ask): PyVal { if a.context.None? then Dict([]) else a.context.value }

  function VerdictOn(pdp: Pdp, c: State, a: Ask): Verdict
    requires !Malformed(a)
  {
    BrokerVerdict(pdp, c, a.principal.value, a.sid, a.name, Context(a))
  }

  /** The grant an allowed request with arguments is issued. */
  function GrantFor(sha: string -> Digest, a: Ask, d: Draw): Grant
    requires !Malformed(a) && a.args.Some?
  {
    Grant(d.decisionId, a.principal.value.id, a.sid, a.name, ArgsHash(sha, a.args.value).value, d.issued,
          Stamp(d.expiresText, d.issued.instant + TtlOf(a.ttl).value * MICROS), None, None)
  }

  /** `authorize`: the decision is recorded first, whatever it is; then, on an allow of exact
      arguments, the grant and its record. */
  function Authorize(sha: string -> Digest, pdp: Pdp, s: Store, c: State, a: Ask, d: Draw, m: Moment, m2: Moment)
    : (Store, Result<Answer, Fault>)
  {
    if Malformed(a) then (s, Failure(BAD_REQUEST))
    else
      var v := VerdictOn(pdp, c, a);
      var (s1, r1) := AppendAudit(sha, s, DecisionBody(d.decisionId, a.principal.value, a.sid, a.name, v), m);
      if r1.Failure? then (s1, Failure(StoreRaised(r1.error)))
      else if a.args.None? || !v.allowed then (s1, Success(Answer(v, d.decisionId, None)))
      else
        var g, ttl := GrantFor(sha, a, d), TtlOf(a.ttl).value;
        var (s2, r2) := Issue(sha, s1, d.grantId, g, Some(ttl), m2);
        if r2.Failure? then (s2, Failure(StoreRaised(r2.error)))
        else (s2, Success(Answer(v, d.decisionId, Some(GrantReply(d.grantId, g.argsHash, d.expiresText, ttl)))))
  }

  // ----- redeem, record, close ------------------------------------------------------

  function ReasonText(r: Reason): string {
    match r
    case Ok => "ok"
    case NotFound => "not_found"
    case AlreadyRedeemed => "already_redeemed"
    case Closed => "closed"
    case Expired => "expired"
    case PrincipalMismatch => "principal_mismatch"
    case ArgsMismatch => "args_mismatch"
    case NotInvocable => "not_invocable"
  }

  /** `redeem_grant`: the presented arguments are hashed here, never by the caller; a denial
      is an answer and leaves its own record. */
  function RedeemGrant(sha: string -> Digest, s: Store, c: State, gid: string, principal: Option<Principal>,
                       args: PyVal, m: Moment, m2: Moment): (Store, Result<RedeemReply, Fault>)
  {
    if gid == "" || principal.None? || CanonicalArgs(args).Failure? then (s, Failure(BAD_REQUEST))
    else
      var p := principal.value;
      var (s1, r) := Redeem(sha, s, gid, ArgsHash(sha, args).value, p.id, Some(InvocableSet(c)), m);
      if r.Failure? then (s1, Failure(StoreRaised(r.error)))
      else if r.value.reason == Ok then (s1, Success(r.value))
      else
        var (s2, r2) := AppendAudit(sha, s1,
            GrantRedeemDenied(gid, r.value.decisionId, p.id, ReasonText(r.value.reason)), m2);
        if r2.Failure? then (s2, Failure(StoreRaised(r2.error))) else (s2, Success(r.value))
  }

  /** `record_outcome`: recorded against a known decision only; a grant named with it is
      checked, and closed, after the outcome is already on record. */
  function RecordOutcome(sha: string -> Digest, s: Store, did: string, outcome: string, detail: string,
                         gid: Option<string>, m: Moment, m2: Moment): (Store, Result<int, Fault>)
  {
    var k := FindDecision(s.bodies, did);
    if did == "" then (s, Failure(BAD_REQUEST))
    else if k >= |s.bodies| || k >= |s.log.rows| then (s, Failure(UNKNOWN))
    else
      var (s1, r) := AppendAudit(sha, s, Outcome(did, s.log.rows[k].seqNo, outcome, detail), m);
      if r.Failure? then (s1, Failure(StoreRaised(r.error)))
      else if gid.None? then (s1, Success(r.value))
      else if gid.value !in s1.grants then (s1, Failure(UNKNOWN))
      else if s1.grants[gid.value].decisionId != did then (s1, Failure(BAD_REQUEST))
      else
        var (s2, r2) := Close(sha, s1, gid.value, "outcome_reported", m2);
        if r2.Failure? then (s2, Failure(StoreRaised(r2.error))) else (s2, Success(r.value))
  }

  function CloseGrant(sha: string -> Digest, s: Store, gid: string, reason: string, m: Moment): (Store,
                      Result<CloseReply, Fault>) {
    var (s1, r) := Close(sha, s, gid, reason, m);
    (s1, match r
         case Failure(e) => Failure(StoreRaised(e))
         case Success(reply) => if reply.None? then Failure(UNKNOWN) else Success(reply.value))
  }

  // ----- governance redemption ------------------------------------------------------

  /** The configured trust root, revocation list (`None_` for none) and provider identity. */
  datatype Governance = Governance(tr: G.Trust, root: Option<string>, list: PyVal, provider: string)

  datatype GovAsk = GovAsk(grant: PyVal, principal: Option<Principal>, sid: string, name: string, args: PyVal,
      at: string)

  datatype GovReply = GovReply(redeemed: bool, reason: string, grantId: Option<string>, codes: seq<string>)

  function CodeTexts(codes: seq<G.Code>): (ts: seq<string>)
    ensures |ts| == |codes|
    ensures forall k :: 0 <= k < |codes| ==> ts[k] == G.CodeText(codes[k])
  {
    if codes == [] then [] else [G.CodeText(codes[0])] + CodeTexts(codes[1..])
  }

  function GrantIdOf(v: G.Verification): Option<string> {
    if v.payload.None? then None else Some(D.TextAt(v.payload.value, "grant_id"))
  }

  function CorrelationOf(p: PyVal): Option<string> {
    var f := D.Field(p, "correlation_id");
    if f.Some? && f.value.Str? then Some(f.value.s) else None
  }

  predicate GovMalformed(a: GovAsk) { a.principal.None? || CanonicalArgs(a.args).Failure? }

  /** The enforcement record of a refusal. */
  function DeniedBody(sha: string -> Digest, gov: Governance, a: GovAsk, v: G.Verification, reason: string): Body
    requires !GovMalformed(a)
  {
    ProviderEnforcement(GrantIdOf(v),
                        if v.payload.None? then None else Some(D.TextAt(v.payload.value, "decision_record_id")),
                        if v.payload.None? then None else CorrelationOf(v.payload.value),
                        v.issuerKeyId, gov.provider, a.principal.value.id, a.sid, a.name,
                        ArgsHash(sha, a.args).value, v.valid, CodeTexts(v.codes), "denied:" + reason, a.at, None)
  }

  function Deny(sha: string -> Digest, gov: Governance, s: Store, a: GovAsk, v: G.Verification, reason: string,
                m: Moment)
    : (Store, Result<GovReply, Fault>)
    requires !GovMalformed(a)
  {
    var (s1, r) := AppendAudit(sha, s, DeniedBody(sha, gov, a, v, reason), m);
    (s1, if r.Failure? then Failure(StoreRaised(r.error))
         else Success(GovReply(false, reason, GrantIdOf(v), CodeTexts(v.codes))))
  }

  function ScopeOf(gov: Governance, a: GovAsk): GS.Request
    requires !GovMalformed(a)
  {
    GS.Request(a.principal.value.id, gov.provider, a.sid, a.name, a.args)
  }

  /** The row a redeemed grant leaves, before its instant is stamped. */
  function RowFor(sha: string -> Digest, gov: Governance, a: GovAsk, p: PyVal, stamp: Stamp): Redemption
    requires !GovMalformed(a)
  {
    Redemption(D.TextAt(p, "decision_record_id"), CorrelationOf(p), D.TextAt(p, "issuer_key_id"), gov.provider,
               a.principal.value.id, a.sid, a.name, ArgsHash(sha, a.args).value, a.at, stamp)
  }

  /** `redeem_governance_grant`: verify, bind the scope, claim the one use; every refusal is
      recorded too. */
  function RedeemGovernance(sha: string -> Digest, gov: Governance, s: Store, a: GovAsk, m: Moment, m2: Moment)
    : (Store, Result<GovReply, Fault>)
  {
    if GovMalformed(a) then (s, Failure(BAD_REQUEST))
    else
      var o := G.Verify(gov.tr, a.grant, gov.root, a.at, None, gov.list);
      if o.Raised? then (s, Failure(KeyMissing))
      else
        RefusalSaysWhy(gov.tr, a.grant, gov.root, a.at, None, gov.list);
        if !o.v.valid then Deny(sha, gov, s, a, o.v, G.CodeText(o.v.codes[0]), m)
        else RedeemVerified(sha, gov, s, a, o.v, m, m2)
  }

  /** What follows a valid verification. */
  function RedeemVerified(sha: string -> Digest, gov: Governance, s: Store, a: GovAsk, v: G.Verification, m: Moment,
                          m2: Moment)
    : (Store, Result<GovReply, Fault>)
    requires !GovMalformed(a) && v.payload.Some?
  {
    var p := v.payload.value;
    var scope := GS.ScopeCodes(gov.tr, p, ScopeOf(gov, a));
    if scope != [] then Deny(sha, gov, s, a, v, G.CodeText(scope[0]), m)
    else
      var (s1, r) := Claim(sha, s, D.TextAt(p, "grant_id"), RowFor(sha, gov, a, p, m.stamp), m);
      if r.Failure? then (s1, Failure(StoreRaised(r.error)))
      else if !r.value then Deny(sha, gov, s1, a, v, "already_redeemed", m2)
      else (s1, Success(GovReply(true, "ok", GrantIdOf(v), [])))
  }
}
