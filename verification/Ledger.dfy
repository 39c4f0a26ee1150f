/** The grant ledger (store.py): what each store operation does to the audit log, the
    grants and the governance redemptions, as one committed or rolled-back transaction. */
module Ledger {
  import opened Wrappers
  import opened AuditChain
  import opened AuditBody

  datatype Grant = Grant(decisionId: string, principalId: string, sourceId: string, name: string,
                         argsHash: string, issuedAt: Stamp, expiresAt: Stamp,
                         redeemedAt: Option<Stamp>, closedAt: Option<Stamp>)

  datatype Redemption = Redemption(recordId: string, correlationId: Option<string>, issuerKeyId: string,
                                   providerId: string, principalId: string, sourceId: string, name: string,
                                   argsHash: string, verificationAt: string, redeemedAt: Stamp)

  /** The audit log with its decoded bodies, and the two grant tables. */
  datatype Store = Store(log: Log, bodies: seq<Body>, grants: map<string, Grant>,
                         redemptions: map<string, Redemption>)

  const EMPTY_STORE := Store(EMPTY_LOG, [], map[], map[])

  datatype StoreError = IntegrityError | AppendFailed | WriteFailed

  /** What the environment decides about one operation: whether its audit append raises,
      the instant it judges by, and the later clock readings it stamps. */
  datatype Moment = Moment(fault: bool, now: int, stamp: Stamp, created: IsoText)

  /** The `invocable_check` callback, as the (source, name) pairs it answers true for. */
  type InvocableCheck = set<(string, string)>

  function AppendBody(sha: string -> Digest, s: Store, b: Body, created: IsoText): Store {
    s.(log := Append(sha, s.log, KindOf(b), BodyText(b), created), bodies := s.bodies + [b])
  }

  /** A transaction that ends with an audit append: everything, or `before` unchanged. */
  function Commit(sha: string -> Digest, before: Store, after: Store, b: Body, m: Moment): Store {
    if m.fault then before else AppendBody(sha, after, b, m.created)
  }

  function Committed<T>(m: Moment, reply: T): Result<T, StoreError> {
    if m.fault then Failure(AppendFailed) else Success(reply)
  }

  // ----- operations -----------------------------------------------------------------

  function AppendAudit(sha: string -> Digest, s: Store, b: Body, m: Moment): (Store, Result<int, StoreError>) {
    (Commit(sha, s, s, b, m), Committed(m, NextRow(sha, s.log.rows, KindOf(b), BodyText(b), m.created).seqNo))
  }

  function IssueBody(gid: string, g: Grant, ttl: Option<int>): Body {
    GrantIssue(gid, g.decisionId, g.principalId, g.sourceId, g.name, g.argsHash, g.issuedAt, g.expiresAt, ttl)
  }

  predicate Fresh(g: Grant) { g.redeemedAt.None? && g.closedAt.None? }

  /** `issue_grant`: the row and its `grant_issue` record, or neither. */
  function Issue(sha: string -> Digest, s: Store, gid: string, g: Grant, ttl: Option<int>, m: Moment)
    : (Store, Result<int, StoreError>)
    requires Fresh(g)
  {
    if gid in s.grants then (s, Failure(IntegrityError))
    else
      var b := IssueBody(gid, g, ttl);
      (Commit(sha, s, s.(grants := s.grants[gid := g]), b, m), AppendAudit(sha, s, b, m).1)
  }

  datatype Reason = Ok | NotFound | AlreadyRedeemed | Closed | Expired | PrincipalMismatch | ArgsMismatch | NotInvocable
  datatype RedeemReply = RedeemReply(reason: Reason, decisionId: Option<string>, sourceId: Option<string>,
      name: Option<string>)

  /** The checks of `redeem_grant`, in their order. */
  function Judge(s: Store, gid: string, argsHash: string, principalId: string, check: Option<InvocableCheck>,
                 now: int): Reason {
    if gid !in s.grants then NotFound
    else
      var g := s.grants[gid];
      if g.redeemedAt.Some? then AlreadyRedeemed
      else if g.closedAt.Some? then Closed
      else if g.expiresAt.instant <= now then Expired
      else if principalId != g.principalId then PrincipalMismatch
      else if argsHash != g.argsHash then ArgsMismatch
      else if check.Some? && (g.sourceId, g.name) !in check.value then NotInvocable
      else Ok
  }

  function Reply(s: Store, gid: string, reason: Reason): RedeemReply {
    if gid !in s.grants then RedeemReply(reason, None, None, None)
    else RedeemReply(reason, Some(s.grants[gid].decisionId), Some(s.grants[gid].sourceId), Some(s.grants[gid].name))
  }

  /** `redeem_grant`: latch and record together; a lost invocability closes the grant. */
  function Redeem(sha: string -> Digest, s: Store, gid: string, argsHash: string, principalId: string,
                  check: Option<InvocableCheck>, m: Moment): (Store, Result<RedeemReply, StoreError>)
  {
    var reason := Judge(s, gid, argsHash, principalId, check, m.now);
    if reason == NotInvocable then
      var g := s.grants[gid];
      (Commit(sha, s, s.(grants := s.grants[gid := g.(closedAt := Some(m.stamp))]),
              GrantClose(gid, g.decisionId, "not_invocable", false), m),
       Committed(m, Reply(s, gid, reason)))
    else if reason == Ok then
      var g := s.grants[gid];
      (Commit(sha, s, s.(grants := s.grants[gid := g.(redeemedAt := Some(m.stamp))]),
              GrantRedeem(gid, g.decisionId, principalId, g.sourceId, g.name), m),
       Committed(m, Reply(s, gid, reason)))
    else (s, Success(Reply(s, gid, reason)))
  }

  datatype CloseReply = CloseReply(decisionId: string, alreadyClosed: bool)

  /** `close_grant`: idempotent on the row, but every close of a known grant is recorded. */
  function Close(sha: string -> Digest, s: Store, gid: string, reason: string, m: Moment)
    : (Store, Result<Option<CloseReply>, StoreError>)
  {
    if gid !in s.grants then (s, Success(None))
    else
      var g := s.grants[gid];
      var already := g.closedAt.Some?;
      var g' := if already then g else g.(closedAt := Some(m.stamp));
      (Commit(sha, s, s.(grants := s.grants[gid := g']), GrantClose(gid, g.decisionId, reason, already), m),
       Committed(m, Some(CloseReply(g.decisionId, already))))
  }

  /** The enforcement record of a successful governance redemption. */
  function ClaimBody(gid: string, r: Redemption): Body {
    ProviderEnforcement(Some(gid), Some(r.recordId), r.correlationId, Some(r.issuerKeyId), r.providerId,
                        r.principalId, r.sourceId, r.name, r.argsHash, true, [], "redeemed",
                        r.verificationAt, Some(r.redeemedAt))
  }

  /** `record_govgrant_redemption`: the primary key is the one-use guard. */
  function Claim(sha: string -> Digest, s: Store, gid: string, r: Redemption, m: Moment)
    : (Store, Result<bool, StoreError>)
  {
    if gid in s.redemptions then (s, Success(false))
    else
      var r' := r.(redeemedAt := m.stamp);
      (Commit(sha, s, s.(redemptions := s.redemptions[gid := r']), ClaimBody(gid, r'), m), Committed(m, true))
  }

  /** The first decision record with this id. */
  function FindDecision(bs: seq<Body>, did: string): (k: nat)
    ensures k <= |bs|
    ensures k < |bs| ==> bs[k].Decision? && bs[k].decisionId == did
    ensures forall j :: 0 <= j < k ==> !(bs[j].Decision? && bs[j].decisionId == did)
  {
    if bs == [] || (bs[0].Decision? && bs[0].decisionId == did) then 0 else 1 + FindDecision(bs[1..], did)
  }

  /** Every answer of a redemption, from the grant's row alone. */
  lemma ReasonsByRow(sha: string -> Digest, s: Store, gid: string, h: string, p: string,
                     check: Option<InvocableCheck>, m: Moment)
    requires Redeem(sha, s, gid, h, p, check, m).1.Success?
    ensures var why := Redeem(sha, s, gid, h, p, check, m).1.value.reason;
            && (why == NotFound <==> gid !in s.grants)
            && (gid in s.grants ==>
                  var g := s.grants[gid];
                  var live := g.redeemedAt == None && g.closedAt == None && m.now < g.expiresAt.instant;
                  var lapsed := check.Some? && (g.sourceId, g.name) !in check.value;
                  && (why == AlreadyRedeemed <==> g.redeemedAt != None)
                  && (why == Closed <==> g.redeemedAt == None && g.closedAt != None)
                  && (why == Expired <==>
                        g.redeemedAt == None && g.closedAt == None && g.expiresAt.instant <= m.now)
                  && (why == PrincipalMismatch <==> live && p != g.principalId)
                  && (why == ArgsMismatch <==> live && p == g.principalId && h != g.argsHash)
                  && (why == NotInvocable <==> live && p == g.principalId && h == g.argsHash && lapsed)
                  && (why == Ok <==> live && p == g.principalId && h == g.argsHash && !lapsed))
  {
    hide KindOf, BodyText, NextRow;
  }

  /** What a redemption writes: the latch and its record on an ok; the closed row and its
      record when the tool lapsed; nothing otherwise. The reply names what the row names. */
  lemma RedeemWrites(sha: string -> Digest, s: Store, gid: string, h: string, p: string,
                     check: Option<InvocableCheck>, m: Moment)
    requires Redeem(sha, s, gid, h, p, check, m).1.Success?
    ensures var (t, r) := Redeem(sha, s, gid, h, p, check, m);
            && t.redemptions == s.redemptions
            && (r.value.reason != Ok && r.value.reason != NotInvocable ==> t == s)
            && (gid !in s.grants ==> r.value == RedeemReply(NotFound, None, None, None))
            && (gid in s.grants ==>
                  var g := s.grants[gid];
                  && r.value.decisionId == Some(g.decisionId)
                  && r.value.sourceId == Some(g.sourceId) && r.value.name == Some(g.name)
                  && (r.value.reason == Ok ==>
                        && t.grants == s.grants[gid := g.(redeemedAt := Some(m.stamp))]
                        && t.bodies == s.bodies + [GrantRedeem(gid, g.decisionId, p, g.sourceId, g.name)])
                  && (r.value.reason == NotInvocable ==>
                        && t.grants == s.grants[gid := g.(closedAt := Some(m.stamp))]
                        && t.bodies == s.bodies + [GrantClose(gid, g.decisionId, "not_invocable", false)]))
  {
    hide KindOf, BodyText, NextRow;
  }

  /** A redemption answered ok was judged before the expiry, and stamps the row with a clock
      reading of its own; the stamp is late exactly when the expiry fell between the two. */
  lemma StampedLateIff(sha: string -> Digest, s: Store, gid: string, h: string, p: string,
                       check: Option<InvocableCheck>, m: Moment)
    requires Redeem(sha, s, gid, h, p, check, m).1.Success?
    requires Redeem(sha, s, gid, h, p, check, m).1.value.reason == Ok
    ensures gid in s.grants && s.grants[gid].redeemedAt.None?
    ensures var t, expiry := Redeem(sha, s, gid, h, p, check, m).0, s.grants[gid].expiresAt.instant;
            && gid in t.grants && t.grants[gid].redeemedAt == Some(m.stamp) && t.grants[gid].expiresAt.instant == expiry
            && (expiry <= t.grants[gid].redeemedAt.value.instant <==> m.now < expiry <= m.stamp.instant)
  {
    hide KindOf, BodyText, NextRow;
  }

  /** A grant expiring at 10, judged in time at 9, and stamped as redeemed at 12. */
  lemma AStampAfterExpiry(sha: string -> Digest)
    ensures var g := Grant("d", "p", "s", "t", "h", Stamp("", 0), Stamp("", 10), None, None);
            var s := Issue(sha, EMPTY_STORE, "g", g, None, Moment(false, 0, Stamp("", 0), "")).0;
            var (t, r) := Redeem(sha, s, "g", "h", "p", None, Moment(false, 9, Stamp("", 12), ""));
            && r.Success? && r.value.reason == Ok && "g" in t.grants
            && t.grants["g"].redeemedAt.Some?
                && t.grants["g"].redeemedAt.value.instant > t.grants["g"].expiresAt.instant
  {
    hide KindOf, BodyText, NextRow;
  }

  // ----- runs -----------------------------------------------------------------------

  datatype Op =
    | AppendOp(body: Body, m: Moment)
    | IssueOp(gid: string, grant: Grant, ttl: Option<int>, m: Moment)
    | RedeemOp(gid: string, argsHash: string, principalId: string, check: Option<InvocableCheck>, m: Moment)
    | CloseOp(gid: string, reason: string, m: Moment)
    | ClaimOp(gid: string, redemption: Redemption, m: Moment)

  /** Records of these kinds are only ever appended together with the row they record. */
  predicate Paired(b: Body) {
    b.GrantIssue? || b.GrantRedeem? || b.GrantClose? || (b.ProviderEnforcement? && b.outcome == "redeemed")
  }

  predicate Callable(op: Op) {
    match op
    case AppendOp(b, _) => !Paired(b)
    case IssueOp(_, g, _, _) => Fresh(g)
    case _ => true
  }

  function Apply(sha: string -> Digest, s: Store, op: Op): Store
    requires Callable(op)
  {
    match op
    case AppendOp(b, m) => AppendAudit(sha, s, b, m).0
    case IssueOp(gid, g, ttl, m) => Issue(sha, s, gid, g, ttl, m).0
    case RedeemOp(gid, h, p, check, m) => Redeem(sha, s, gid, h, p, check, m).0
    case CloseOp(gid, reason, m) => Close(sha, s, gid, reason, m).0
    case ClaimOp(gid, r, m) => Claim(sha, s, gid, r, m).0
  }

  /** Whether the operation reports a committed audit append to its caller. */
  function Appends(sha: string -> Digest, s: Store, op: Op): nat
    requires Callable(op)
  {
    match op
    case AppendOp(b, m) => if AppendAudit(sha, s, b, m).1.Success? then 1 else 0
    case IssueOp(gid, g, ttl, m) => if Issue(sha, s, gid, g, ttl, m).1.Success? then 1 else 0
    case RedeemOp(gid, h, p, check, m) =>
      var r := Redeem(sha, s, gid, h, p, check, m).1;
      if r.Success? && r.value.reason in {Ok, NotInvocable} then 1 else 0
    case CloseOp(gid, reason, m) =>
      var r := Close(sha, s, gid, reason, m).1;
      if r.Success? && r.value.Some? then 1 else 0
    case ClaimOp(gid, r, m) => if Claim(sha, s, gid, r, m).1 == Success(true) then 1 else 0
  }

  predicate AllCallable(ops: seq<Op>) { forall op <- ops :: Callable(op) }

  function Run(sha: string -> Digest, s: Store, ops: seq<Op>): Store
    requires AllCallable(ops)
    decreases |ops|
  {
    if ops == [] then s else Run(sha, Apply(sha, s, ops[0]), ops[1..])
  }

  function TotalAppends(sha: string -> Digest, s: Store, ops: seq<Op>): nat
    requires AllCallable(ops)
    decreases |ops|
  {
    if ops == [] then 0 else Appends(sha, s, ops[0]) + TotalAppends(sha, Apply(sha, s, ops[0]), ops[1..])
  }

  // ----- the audit trail of one grant -----------------------------------------------

  datatype Mark = IssueMark | RedeemMark | CloseMark | RecloseMark
  datatype Phase = Absent | Live | Spent | Dead(spent: bool)

  function MarkOf(b: Body, gid: string): seq<Mark> {
    if b.GrantIssue? && b.grantId == gid then [IssueMark]
    else if b.GrantRedeem? && b.grantId == gid then [RedeemMark]
    else if b.GrantClose? && b.grantId == gid then [if b.alreadyClosed then RecloseMark else CloseMark]
    else []
  }

  /** The ledger records about one grant, in log order. */
  function Marks(bs: seq<Body>, gid: string): seq<Mark> {
    if bs == [] then [] else Marks(bs[..|bs| - 1], gid) + MarkOf(bs[|bs| - 1], gid)
  }

  function Advance(p: Phase, m: Mark): Option<Phase> {
    match m
    case IssueMark => if p == Absent then Some(Live) else None
    case RedeemMark => if p == Live then Some(Spent) else None
    case CloseMark => if p == Live then Some(Dead(false)) else if p == Spent then Some(Dead(true)) else None
    case RecloseMark => if p.Dead? then Some(p) else None
  }

  /** The phase a trail ends in, if the trail is a possible life of a grant. */
  function Replay(ms: seq<Mark>): Option<Phase> {
    if ms == [] then Some(Absent)
    else
      var p := Replay(ms[..|ms| - 1]);
      if p.None? then None else Advance(p.value, ms[|ms| - 1])
  }

  function PhaseOf(grants: map<string, Grant>, gid: string): Phase {
    if gid !in grants then Absent
    else
      var g := grants[gid];
      if g.closedAt.Some? then Dead(g.redeemedAt.Some?)
      else if g.redeemedAt.Some? then Spent else Live
  }

  /** How many enforcement records say this governance grant was redeemed. */
  function Claims(bs: seq<Body>, gid: string): nat {
    if bs == [] then 0
    else
      var b := bs[|bs| - 1];
      Claims(bs[..|bs| - 1], gid)
      + if b.ProviderEnforcement? && b.outcome == "redeemed" && b.govGrantId == Some(gid) then 1 else 0
  }

  predicate SameIdentity(g: Grant, h: Grant) {
    g.(redeemedAt := None, closedAt := None) == h.(redeemedAt := None, closedAt := None)
  }

  /** A paired record repeats what its row says. */
  predicate BodyAgrees(grants: map<string, Grant>, redemptions: map<string, Redemption>, b: Body) {
    match b
    case GrantIssue(gid, _, _, _, _, _, _, _, ttl) => gid in grants && b == IssueBody(gid, grants[gid], ttl)
    case GrantRedeem(gid, did, p, sid, n) =>
      gid in grants && grants[gid].decisionId == did && grants[gid].principalId == p
      && grants[gid].sourceId == sid && grants[gid].name == n
    case GrantClose(gid, did, _, _) => gid in grants && grants[gid].decisionId == did
    case ProviderEnforcement(_, _, _, _, _, _, _, _, _, _, _, outcome, _, _) =>
      outcome == "redeemed" ==>
        b.govGrantId.Some? && b.govGrantId.value in redemptions
        && b == ClaimBody(b.govGrantId.value, redemptions[b.govGrantId.value])
    case _ => true
  }

  ghost predicate RowsMatch(s: Store) {
    && |s.log.rows| == |s.bodies|
    && forall i :: 0 <= i < |s.bodies| ==>
         s.log.rows[i].kind == KindOf(s.bodies[i]) && s.log.rows[i].body == BodyText(s.bodies[i])
  }

  /** Every grant's records spell out exactly the phase its row shows. */
  ghost predicate TrailsFit(bs: seq<Body>, grants: map<string, Grant>) {
    forall gid :: Replay(Marks(bs, gid)) == Some(PhaseOf(grants, gid))
  }

  /** One successful enforcement record per redemption row, and none without a row. */
  ghost predicate ClaimsFit(bs: seq<Body>, redemptions: map<string, Redemption>) {
    forall gid :: Claims(bs, gid) == if gid in redemptions then 1 else 0
  }

  ghost predicate BodiesAgree(s: Store) { forall b <- s.bodies :: BodyAgrees(s.grants, s.redemptions, b) }

  ghost predicate Invariant(sha: string -> Digest, s: Store) {
    && Sound(sha, s.log)
    && RowsMatch(s)
    && TrailsFit(s.bodies, s.grants)
    && ClaimsFit(s.bodies, s.redemptions)
    && BodiesAgree(s)
  }

  // ----- every operation keeps the invariant ----------------------------------------

  /** `s'` is `s` with its tables changed; the append makes the change durable. */
  lemma AppendKeeps(sha: string -> Digest, s: Store, s': Store, b: Body, created: IsoText)
    requires Invariant(sha, s)
    requires s'.log == s.log && s'.bodies == s.bodies
    requires BodiesAgree(s') && BodyAgrees(s'.grants, s'.redemptions, b)
    requires TrailsFit(s.bodies + [b], s'.grants) && ClaimsFit(s.bodies + [b], s'.redemptions)
    ensures Invariant(sha, AppendBody(sha, s', b, created))
  {
    hide KindOf, BodyText, Sound, Marks, Replay, Claims, PhaseOf, BodyAgrees;
    var t := AppendBody(sha, s', b, created);
    EntryIsClean(b, created);
    AppendKeepsSound(sha, s.log, KindOf(b), BodyText(b), created);
    assert forall c <- t.bodies :: c == b || c in s'.bodies;
  }

  lemma ReplaySnoc(ms: seq<Mark>, p: Phase, m: Mark)
    requires Replay(ms) == Some(p)
    ensures Replay(ms + [m]) == Advance(p, m)
  {
    assert (ms + [m])[..|ms|] == ms;
  }

  lemma MarksSnoc(bs: seq<Body>, b: Body, gid: string)
    ensures Marks(bs + [b], gid) == Marks(bs, gid) + MarkOf(b, gid)
  {
    assert (bs + [b])[..|bs|] == bs;
  }

  lemma ClaimsSnoc(bs: seq<Body>, b: Body, gid: string)
    ensures Claims(bs + [b], gid) == Claims(bs, gid)
      + if b.ProviderEnforcement? && b.outcome == "redeemed" && b.govGrantId == Some(gid) then 1 else 0
  {
    assert (bs + [b])[..|bs|] == bs;
  }

  predicate LedgerBody(b: Body) { b.GrantIssue? || b.GrantRedeem? || b.GrantClose? }

  lemma UnmarkedTrails(bs: seq<Body>, grants: map<string, Grant>, b: Body)
    requires TrailsFit(bs, grants) && !LedgerBody(b)
    ensures TrailsFit(bs + [b], grants)
  {
    forall k ensures Replay(Marks(bs + [b], k)) == Some(PhaseOf(grants, k)) {
      OtherTrail(bs, b, k);
    }
  }

  lemma UnclaimedClaims(bs: seq<Body>, redemptions: map<string, Redemption>, b: Body)
    requires ClaimsFit(bs, redemptions) && (b.ProviderEnforcement? ==> b.outcome != "redeemed")
    ensures ClaimsFit(bs + [b], redemptions)
  {
    forall k ensures Claims(bs + [b], k) == if k in redemptions then 1 else 0 {
      ClaimsSnoc(bs, b, k);
    }
  }

  lemma MovedTrails(bs: seq<Body>, grants: map<string, Grant>, gid: string, g: Grant, b: Body)
    requires TrailsFit(bs, grants) && LedgerBody(b) && b.grantId == gid
    requires Advance(PhaseOf(grants, gid), MarkOf(b, gid)[0]) == Some(PhaseOf(grants[gid := g], gid))
    ensures TrailsFit(bs + [b], grants[gid := g])
  {
    hide Marks, Advance, Replay;
    MarksSnoc(bs, b, gid);
    ReplaySnoc(Marks(bs, gid), PhaseOf(grants, gid), MarkOf(b, gid)[0]);
    assert MarkOf(b, gid) == [MarkOf(b, gid)[0]];
    forall k | k != gid ensures Replay(Marks(bs + [b], k)) == Some(PhaseOf(grants[gid := g], k)) {
      OtherTrail(bs, b, k);
    }
  }

  lemma OtherTrail(bs: seq<Body>, b: Body, gid: string)
    requires !LedgerBody(b) || b.grantId != gid
    ensures Marks(bs + [b], gid) == Marks(bs, gid)
  {
    MarksSnoc(bs, b, gid);
    assert Marks(bs, gid) + [] == Marks(bs, gid);
  }

  lemma MovedBodies(s: Store, gid: string, g: Grant)
    requires BodiesAgree(s)
    requires gid in s.grants ==> SameIdentity(g, s.grants[gid])
    ensures BodiesAgree(s.(grants := s.grants[gid := g]))
  {
    forall b <- s.bodies ensures BodyAgrees(s.grants[gid := g], s.redemptions, b) {
      assert BodyAgrees(s.grants, s.redemptions, b);
    }
  }

  /** One grant row moves one phase along and its record says so. */
  lemma RowMoves(sha: string -> Digest, s: Store, gid: string, g: Grant, b: Body, created: IsoText)
    requires Invariant(sha, s)
    requires LedgerBody(b) && b.grantId == gid && BodyAgrees(s.grants[gid := g], s.redemptions, b)
    requires gid in s.grants ==> SameIdentity(g, s.grants[gid])
    requires Advance(PhaseOf(s.grants, gid), MarkOf(b, gid)[0]) == Some(PhaseOf(s.grants[gid := g], gid))
    ensures Invariant(sha, AppendBody(sha, s.(grants := s.grants[gid := g]), b, created))
  {
    MovedTrails(s.bodies, s.grants, gid, g, b);
    UnclaimedClaims(s.bodies, s.redemptions, b);
    MovedBodies(s, gid, g);
    AppendKeeps(sha, s, s.(grants := s.grants[gid := g]), b, created);
  }

  lemma PlainAppendKeeps(sha: string -> Digest, s: Store, b: Body, created: IsoText)
    requires Invariant(sha, s) && !Paired(b)
    ensures Invariant(sha, AppendBody(sha, s, b, created))
  {
    UnmarkedTrails(s.bodies, s.grants, b);
    UnclaimedClaims(s.bodies, s.redemptions, b);
    AppendKeeps(sha, s, s, b, created);
  }

  lemma ClaimedClaims(bs: seq<Body>, redemptions: map<string, Redemption>, gid: string, r: Redemption)
    requires ClaimsFit(bs, redemptions) && gid !in redemptions
    ensures ClaimsFit(bs + [ClaimBody(gid, r)], redemptions[gid := r])
  {
    forall k ensures Claims(bs + [ClaimBody(gid, r)], k) == if k in redemptions[gid := r] then 1 else 0 {
      ClaimsSnoc(bs, ClaimBody(gid, r), k);
    }
  }

  lemma ClaimedBodies(s: Store, gid: string, r: Redemption)
    requires gid !in s.redemptions && BodiesAgree(s)
    ensures BodiesAgree(s.(redemptions := s.redemptions[gid := r]))
  {
    forall b <- s.bodies ensures BodyAgrees(s.grants, s.redemptions[gid := r], b) {
      assert BodyAgrees(s.grants, s.redemptions, b);
    }
  }

  lemma ClaimKeeps(sha: string -> Digest, s: Store, gid: string, r: Redemption, created: IsoText)
    requires Invariant(sha, s) && gid !in s.redemptions
    ensures Invariant(sha, AppendBody(sha, s.(redemptions := s.redemptions[gid := r]), ClaimBody(gid, r), created))
  {
    UnmarkedTrails(s.bodies, s.grants, ClaimBody(gid, r));
    ClaimedClaims(s.bodies, s.redemptions, gid, r);
    ClaimedBodies(s, gid, r);
    AppendKeeps(sha, s, s.(redemptions := s.redemptions[gid := r]), ClaimBody(gid, r), created);
  }

  lemma IssueKeeps(sha: string -> Digest, s: Store, gid: string, g: Grant, ttl: Option<int>, m: Moment)
    requires Invariant(sha, s) && Fresh(g)
    ensures Invariant(sha, Issue(sha, s, gid, g, ttl, m).0)
  {
    hide Sound, RowsMatch, TrailsFit, ClaimsFit, BodiesAgree, AppendBody, Invariant, AppendAudit, Marks;
    if gid !in s.grants && !m.fault {
      RowMoves(sha, s, gid, g, IssueBody(gid, g, ttl), m.created);
    }
  }

  lemma RedeemKeeps(sha: string -> Digest, s: Store, gid: string, h: string, p: string,
                    check: Option<InvocableCheck>, m: Moment)
    requires Invariant(sha, s)
    ensures Invariant(sha, Redeem(sha, s, gid, h, p, check, m).0)
  {
    hide Sound, RowsMatch, TrailsFit, ClaimsFit, BodiesAgree, AppendBody, Invariant, Marks;
    var reason := Judge(s, gid, h, p, check, m.now);
    if !m.fault && reason == Ok {
      var g := s.grants[gid];
      RowMoves(sha, s, gid, g.(redeemedAt := Some(m.stamp)),
               GrantRedeem(gid, g.decisionId, p, g.sourceId, g.name), m.created);
    } else if !m.fault && reason == NotInvocable {
      var g := s.grants[gid];
      RowMoves(sha, s, gid, g.(closedAt := Some(m.stamp)),
               GrantClose(gid, g.decisionId, "not_invocable", false), m.created);
    }
  }

  lemma CloseKeeps(sha: string -> Digest, s: Store, gid: string, reason: string, m: Moment)
    requires Invariant(sha, s)
    ensures Invariant(sha, Close(sha, s, gid, reason, m).0)
  {
    hide Sound, RowsMatch, TrailsFit, ClaimsFit, BodiesAgree, AppendBody, Invariant, Marks;
    if gid in s.grants && !m.fault {
      var g := s.grants[gid];
      var already := g.closedAt.Some?;
      RowMoves(sha, s, gid, if already then g else g.(closedAt := Some(m.stamp)),
               GrantClose(gid, g.decisionId, reason, already), m.created);
    }
  }

  lemma ApplyKeeps(sha: string -> Digest, s: Store, op: Op)
    requires Invariant(sha, s) && Callable(op)
    ensures Invariant(sha, Apply(sha, s, op))
  {
    match op
    case AppendOp(b, m) => if !m.fault { PlainAppendKeeps(sha, s, b, m.created); }
    case IssueOp(gid, g, ttl, m) => IssueKeeps(sha, s, gid, g, ttl, m);
    case RedeemOp(gid, h, p, check, m) => RedeemKeeps(sha, s, gid, h, p, check, m);
    case CloseOp(gid, reason, m) => CloseKeeps(sha, s, gid, reason, m);
    case ClaimOp(gid, r, m) =>
      if gid !in s.redemptions && !m.fault { ClaimKeeps(sha, s, gid, r.(redeemedAt := m.stamp), m.created); }
  }

  lemma EmptyStoreInvariant(sha: string -> Digest)
    ensures Invariant(sha, EMPTY_STORE)
  {
  }

  lemma {:induction false} RunKeeps(sha: string -> Digest, s: Store, ops: seq<Op>)
    requires Invariant(sha, s) && AllCallable(ops)
    ensures Invariant(sha, Run(sha, s, ops))
    ensures |Run(sha, s, ops).log.rows| == |s.log.rows| + TotalAppends(sha, s, ops)
    decreases |ops|
  {
    if ops != [] {
      ApplyKeeps(sha, s, ops[0]);
      AppendsCounted(sha, s, ops[0]);
      RunKeeps(sha, Apply(sha, s, ops[0]), ops[1..]);
    }
  }

  lemma AppendsCounted(sha: string -> Digest, s: Store, op: Op)
    requires Callable(op)
    ensures |Apply(sha, s, op).log.rows| == |s.log.rows| + Appends(sha, s, op)
  {
    hide KindOf, BodyText, NextRow, Judge;
  }

  // ----- what the invariant says in plain terms -------------------------------------

  lemma LivesOfAGrant(ms: seq<Mark>, p: Phase)
    requires Replay(ms) == Some(p)
    ensures multiset(ms)[IssueMark] == (if p.Absent? then 0 else 1)
    ensures multiset(ms)[RedeemMark] == (if p.Spent? || p == Dead(true) then 1 else 0)
    ensures multiset(ms)[CloseMark] == (if p.Dead? then 1 else 0)
    ensures ms == [] <==> p.Absent?
    ensures forall i, j :: 0 <= i < j < |ms| ==> ms[0] == IssueMark && (ms[j] == RedeemMark ==> ms[i] == IssueMark)
  {
    hide Replay;
    CountsOfALife(ms, p);
    OrderOfALife(ms, p);
  }

  lemma OneMoreMark(ms: seq<Mark>, m: Mark, k: Mark)
    ensures multiset(ms + [m])[k] == multiset(ms)[k] + if m == k then 1 else 0
  {
  }

  lemma {:induction false} CountsOfALife(ms: seq<Mark>, p: Phase)
    requires Replay(ms) == Some(p)
    ensures multiset(ms)[IssueMark] == (if p.Absent? then 0 else 1)
    ensures multiset(ms)[RedeemMark] == (if p.Spent? || p == Dead(true) then 1 else 0)
    ensures multiset(ms)[CloseMark] == (if p.Dead? then 1 else 0)
    ensures ms == [] <==> p.Absent?
  {
    if ms != [] {
      var n := |ms| - 1;
      assert ms == ms[..n] + [ms[n]];
      CountsOfALife(ms[..n], Replay(ms[..n]).value);
      OneMoreMark(ms[..n], ms[n], IssueMark);
      OneMoreMark(ms[..n], ms[n], RedeemMark);
      OneMoreMark(ms[..n], ms[n], CloseMark);
    }
  }

  lemma {:induction false} OrderOfALife(ms: seq<Mark>, p: Phase)
    requires Replay(ms) == Some(p)
    ensures forall i, j :: 0 <= i < j < |ms| ==> ms[0] == IssueMark && (ms[j] == RedeemMark ==> ms[i] == IssueMark)
  {
    if ms != [] {
      var n := |ms| - 1;
      var front := ms[..n];
      OrderOfALife(front, Replay(front).value);
      if front != [] { StartsIssued(front); }
      if ms[n] == RedeemMark { FirstIsIssue(front); }
      forall i, j | 0 <= i < j < |ms| ensures ms[0] == IssueMark && (ms[j] == RedeemMark ==> ms[i] == IssueMark) {
        assert ms[0] == front[0] && ms[i] == front[i];
        if j < n { assert ms[j] == front[j]; }
      }
    }
  }

  lemma {:induction false} StartsIssued(ms: seq<Mark>)
    requires Replay(ms).Some? && ms != []
    ensures ms[0] == IssueMark
  {
    var n := |ms| - 1;
    if n > 0 {
      StartsIssued(ms[..n]);
    } else {
      assert ms[..n] == [];
    }
  }

  lemma FirstIsIssue(ms: seq<Mark>)
    requires Replay(ms) == Some(Live)
    ensures ms == [IssueMark]
  {
    var n := |ms| - 1;
    assert Advance(Replay(ms[..n]).value, ms[n]) == Some(Live);
    assert ms[n] == IssueMark && Replay(ms[..n]) == Some(Absent);
    OnlyEmptyIsAbsent(ms[..n]);
  }

  lemma OnlyEmptyIsAbsent(ms: seq<Mark>)
    requires Replay(ms) == Some(Absent)
    ensures ms == []
  {
  }

  /** After any run of operations with any append failures: rows and records tell one story,
      the chain verifies, and it holds one row per committed append. */
  lemma LedgerOverEveryRun(sha: string -> Digest, ops: seq<Op>, gid: string)
    requires AllCallable(ops)
    ensures var s := Run(sha, EMPTY_STORE, ops);
            var ms := Marks(s.bodies, gid);
            && (gid in s.grants <==> multiset(ms)[IssueMark] == 1)
            && (gid !in s.grants <==> ms == [])
            && (gid in s.grants ==>
                  (s.grants[gid].redeemedAt.Some? <==> multiset(ms)[RedeemMark] == 1)
                  && (s.grants[gid].closedAt.Some? <==> multiset(ms)[CloseMark] == 1))
            && multiset(ms)[IssueMark] <= 1 && multiset(ms)[RedeemMark] <= 1 && multiset(ms)[CloseMark] <= 1
            && (forall i, j :: 0 <= i < j < |ms| ==> ms[0] == IssueMark && (ms[j] == RedeemMark ==> ms[i] == IssueMark))
            && Verifies(sha, s.log)
            && |s.log.rows| == TotalAppends(sha, EMPTY_STORE, ops)
  {
    EmptyStoreInvariant(sha);
    RunKeeps(sha, EMPTY_STORE, ops);
    var s := Run(sha, EMPTY_STORE, ops);
    LivesOfAGrant(Marks(s.bodies, gid), PhaseOf(s.grants, gid));
  }

  /** In every run the issue record of a grant repeats its row field by field, and so does the
      enforcement record of a governance redemption. */
  lemma RecordsRepeatRows(sha: string -> Digest, s: Store, b: Body)
    requires Invariant(sha, s) && b in s.bodies
    ensures b.GrantIssue? ==> b.grantId in s.grants
    ensures b.GrantIssue? ==>
              var g := s.grants[b.grantId];
              && b.decisionId == g.decisionId && b.principalId == g.principalId && b.sourceId == g.sourceId
              && b.name == g.name && b.argsHash == g.argsHash && b.issuedAt == g.issuedAt && b.expiresAt == g.expiresAt
    ensures b.ProviderEnforcement? && b.outcome == "redeemed" ==>
              b.govGrantId.Some? && b.govGrantId.value in s.redemptions
    ensures b.ProviderEnforcement? && b.outcome == "redeemed" ==>
              var row := s.redemptions[b.govGrantId.value];
              && b.recordId == Some(row.recordId) && b.correlationId == row.correlationId
              && b.issuerKeyId == Some(row.issuerKeyId) && b.providerId == row.providerId
              && b.principalId == row.principalId && b.sourceId == row.sourceId && b.name == row.name
              && b.argsHash == row.argsHash && b.verificationAt == row.verificationAt
              && b.redeemedAt == Some(row.redeemedAt) && b.verified && b.failureCodes == []
  {
    hide Sound, RowsMatch, TrailsFit, ClaimsFit;
    assert BodyAgrees(s.grants, s.redemptions, b);
  }

  // ----- latches, identity, append-only ---------------------------------------------

  ghost predicate GrantEvolves(g: Grant, h: Grant) {
    && SameIdentity(g, h)
    && (g.redeemedAt.Some? ==> h.redeemedAt == g.redeemedAt)
    && (g.closedAt.Some? ==> h.closedAt == g.closedAt && h.redeemedAt == g.redeemedAt)
  }

  /** Nothing recorded is lost or rewritten: the log grows at its end, rows stay. */
  ghost predicate Evolves(s: Store, t: Store) {
    && s.bodies <= t.bodies && s.log.rows <= t.log.rows
    && (forall gid :: gid in s.grants ==> gid in t.grants && GrantEvolves(s.grants[gid], t.grants[gid]))
    && (forall gid :: gid in s.redemptions ==> gid in t.redemptions && t.redemptions[gid] == s.redemptions[gid])
  }

  lemma CommitEvolves(sha: string -> Digest, s: Store, t: Store, b: Body, m: Moment)
    requires t.log == s.log && t.bodies == s.bodies && Evolves(s, t)
    ensures Evolves(s, Commit(sha, s, t, b, m))
  {
    hide KindOf, BodyText, NextRow;
  }

  lemma RowEvolves(s: Store, gid: string, g: Grant)
    requires gid in s.grants ==> GrantEvolves(s.grants[gid], g)
    ensures Evolves(s, s.(grants := s.grants[gid := g]))
  {
  }

  lemma ApplyEvolves(sha: string -> Digest, s: Store, op: Op)
    requires Callable(op)
    ensures Evolves(s, Apply(sha, s, op))
  {
    match op
    case AppendOp(b, m) => CommitEvolves(sha, s, s, b, m);
    case IssueOp(gid, g, ttl, m) =>
      if gid !in s.grants {
        RowEvolves(s, gid, g);
        CommitEvolves(sha, s, s.(grants := s.grants[gid := g]), IssueBody(gid, g, ttl), m);
      }
    case RedeemOp(gid, h, p, check, m) => RedeemEvolves(sha, s, gid, h, p, check, m);
    case CloseOp(gid, reason, m) => CloseEvolves(sha, s, gid, reason, m);
    case ClaimOp(gid, r, m) =>
      if gid !in s.redemptions {
        var r' := r.(redeemedAt := m.stamp);
        CommitEvolves(sha, s, s.(redemptions := s.redemptions[gid := r']), ClaimBody(gid, r'), m);
      }
  }

  lemma RedeemEvolves(sha: string -> Digest, s: Store, gid: string, h: string, p: string,
                      check: Option<InvocableCheck>, m: Moment)
    ensures Evolves(s, Redeem(sha, s, gid, h, p, check, m).0)
  {
    var reason := Judge(s, gid, h, p, check, m.now);
    if reason == Ok || reason == NotInvocable {
      var g := s.grants[gid];
      var g' := if reason == Ok then g.(redeemedAt := Some(m.stamp)) else g.(closedAt := Some(m.stamp));
      var b := if reason == Ok then GrantRedeem(gid, g.decisionId, p, g.sourceId, g.name)
               else GrantClose(gid, g.decisionId, "not_invocable", false);
      RowEvolves(s, gid, g');
      CommitEvolves(sha, s, s.(grants := s.grants[gid := g']), b, m);
    }
  }

  lemma CloseEvolves(sha: string -> Digest, s: Store, gid: string, reason: string, m: Moment)
    ensures Evolves(s, Close(sha, s, gid, reason, m).0)
  {
    if gid in s.grants {
      var g := s.grants[gid];
      var already := g.closedAt.Some?;
      var g' := if already then g else g.(closedAt := Some(m.stamp));
      RowEvolves(s, gid, g');
      CommitEvolves(sha, s, s.(grants := s.grants[gid := g']), GrantClose(gid, g.decisionId, reason, already), m);
    }
  }

  /** In every run a latch is written once, a closed grant is never redeemed, identity
      columns never change, and the audit log is append-only. */
  lemma {:induction false} RunEvolves(sha: string -> Digest, s: Store, ops: seq<Op>)
    requires AllCallable(ops)
    ensures Evolves(s, Run(sha, s, ops))
    decreases |ops|
  {
    if ops != [] {
      ApplyEvolves(sha, s, ops[0]);
      RunEvolves(sha, Apply(sha, s, ops[0]), ops[1..]);
    }
  }
}
