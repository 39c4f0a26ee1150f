/** What runs of the service guarantee: grants are bound to what was authorized and used
    once, and governance redemptions are conserved. */
module ServiceResults {
  import opened Wrappers
  import opened CanonicalJson
  import opened CanonicalJsonMeaning
  import opened AuditChain
  import opened AuditBody
  import opened Ledger
  import opened ToolCatalog
  import opened Policy
  import opened ServiceCalls
  import opened ServiceRuns
  import opened GovAcceptance
  import G = GovGrants
  import D = Documents
  import GS = GovScope
  import GX = GovExactness

  // ----- one use, exact arguments ---------------------------------------------------

  /** The call redeems the grant. */
  predicate Redeems(sha: string -> Digest, s: Store, c: State, gid: string, principal: Option<Principal>,
                    args: PyVal, m: Moment, m2: Moment)
  {
    var r := RedeemGrant(sha, s, c, gid, principal, args, m, m2).1;
    r.Success? && r.value.reason == Ok
  }

  /** The call finds the tool of the grant not invocable. */
  predicate FoundUninvocable(sha: string -> Digest, s: Store, c: State, gid: string, principal: Option<Principal>,
                             args: PyVal, m: Moment, m2: Moment)
  {
    var r := RedeemGrant(sha, s, c, gid, principal, args, m, m2).1;
    r.Success? && r.value.reason == NotInvocable
  }

  /** The call is answered with an allow and a grant. */
  predicate Issues(sha: string -> Digest, pdp: Pdp, s: Store, c: State, a: Ask, d: Draw, m: Moment, m2: Moment) {
    var r := Authorize(sha, pdp, s, c, a, d, m, m2).1;
    r.Success? && r.value.grant.Some?
  }

  lemma SpentStaysSpent(sha: string -> Digest, s: Store, t: Store, gid: string, h: string, p: string,
                        check: Option<InvocableCheck>, now: int)
    requires gid in s.grants && s.grants[gid].redeemedAt.Some? && Reaches(sha, s, t)
    ensures Judge(t, gid, h, p, check, now) == AlreadyRedeemed
  {
    hide Reaches;
    ReachesKeeps(sha, s, t);
  }

  /** Once a grant has been redeemed, every later attempt, by anyone, at any instant, after
      any calls in between, is refused as already redeemed. */
  lemma OneUse(sha: string -> Digest, s: Store, c: State, gid: string, principal: Option<Principal>, args: PyVal,
               m: Moment, m2: Moment, t: Store, c': State, principal': Option<Principal>, args': PyVal,
               n: Moment, n2: Moment)
    requires Redeems(sha, s, c, gid, principal, args, m, m2)
    requires Reaches(sha, RedeemGrant(sha, s, c, gid, principal, args, m, m2).0, t)
    ensures var r' := RedeemGrant(sha, t, c', gid, principal', args', n, n2).1;
            r'.Success? ==> r'.value.reason == AlreadyRedeemed
  {
    hide Reaches, AppendBody, CanonicalArgs, BodyText, KindOf;
    var s1 := RedeemGrant(sha, s, c, gid, principal, args, m, m2).0;
    RedeemedLatch(sha, s, gid, ArgsHash(sha, args).value, principal.value.id, Some(InvocableSet(c)), m);
    if principal'.Some? && CanonicalArgs(args').Success? {
      SpentStaysSpent(sha, s1, t, gid, ArgsHash(sha, args').value, principal'.value.id, Some(InvocableSet(c')), n.now);
    }
  }

  lemma RedeemedLatch(sha: string -> Digest, s: Store, gid: string, h: string, p: string,
                      check: Option<InvocableCheck>, m: Moment)
    requires var r := Redeem(sha, s, gid, h, p, check, m).1; r.Success? && r.value.reason == Ok
    ensures var t := Redeem(sha, s, gid, h, p, check, m).0; gid in t.grants && t.grants[gid].redeemedAt.Some?
    ensures Judge(s, gid, h, p, check, m.now) == Ok
  {
    hide KindOf, BodyText, NextRow;
  }

  /** A malformed request leaves nothing at all, and nothing else is refused as malformed; any
      other leaves its decision first. A grant is issued exactly when exact arguments were
      allowed, and never without both records; a store failure issues none. */
  lemma AuthorizeLeaves(sha: string -> Digest, pdp: Pdp, s: Store, c: State, a: Ask, d: Draw, m: Moment, m2: Moment)
    ensures var (t, r) := Authorize(sha, pdp, s, c, a, d, m, m2);
            && (r == Failure(BAD_REQUEST) <==> Malformed(a))
            && (Malformed(a) ==> t == s)
            && (!Malformed(a) ==>
                  var v := VerdictOn(pdp, c, a);
                  var decision := DecisionBody(d.decisionId, a.principal.value, a.sid, a.name, v);
                  && (r.Success? ==>
                        && r.value.verdict == v && r.value.decisionId == d.decisionId
                        && (r.value.grant.Some? <==> a.args.Some? && v.allowed)
                        && (r.value.grant.Some? ==> r.value.grant.value.grantId == d.grantId))
                  && (r.Success? && r.value.grant.None? ==> t.bodies == s.bodies + [decision] && t.grants == s.grants)
                  && (r.Success? && r.value.grant.Some? ==>
                        && d.grantId !in s.grants && t.grants == s.grants[d.grantId := GrantFor(sha, a, d)]
                        && t.bodies == s.bodies + [decision]
                            + [IssueBody(d.grantId, GrantFor(sha, a, d), Some(TtlOf(a.ttl).value))])
                  && (r.Failure? ==>
                      t.grants == s.grants && (t.bodies == s.bodies || t.bodies == s.bodies + [decision])))
  {
    hide KindOf, BodyText, NextRow, BrokerVerdict, CanonicalArgs, TtlOf, ArgsHash, Context;
  }

  /** The row an answered authorize leaves behind its grant id. */
  lemma IssuedRow(sha: string -> Digest, pdp: Pdp, s: Store, c: State, a: Ask, d: Draw, m: Moment, m2: Moment)
    requires Issues(sha, pdp, s, c, a, d, m, m2)
    ensures !Malformed(a) && a.args.Some? && VerdictOn(pdp, c, a).allowed
    ensures var t := Authorize(sha, pdp, s, c, a, d, m, m2).0;
            d.grantId in t.grants && t.grants[d.grantId] == GrantFor(sha, a, d)
  {
    hide Authorize, Malformed, VerdictOn, GrantFor;
    AuthorizeLeaves(sha, pdp, s, c, a, d, m, m2);
  }

  /** Two accepted argument values whose texts differ but hash alike. */
  predicate Collide(sha: string -> Digest, a: PyVal, b: PyVal) {
    var x, y := CanonicalArgs(a), CanonicalArgs(b);
    x.Success? && y.Success? && x.value != y.value && sha(x.value) == sha(y.value)
  }

  /** Two arguments the program accepts, and equal as JSON values. */
  ghost predicate SameJson(a: PyVal, b: PyVal) { Check(a).None? && Check(b).None? && Denote(a) == Denote(b) }

  lemma RenderedIsChecked(v: PyVal)
    requires CanonicalArgs(v).Success?
    ensures Check(v).None?
  {
    hide Norm, Print;
  }

  predicate InTime(a: Ask, d: Draw, now: int) {
    TtlOf(a.ttl).Some? && now < d.issued.instant + TtlOf(a.ttl).value * MICROS
  }

  /** A grant that redeems, however much happened since it was issued, redeems for the caller,
      tool and arguments it was authorized for: arguments equal as JSON values, or two texts
      that collide under the hash. The tool was invocable when it was authorized and is
      invocable now, and the grant has not outlived its time to live. */
  lemma GrantBinds(sha: string -> Digest, pdp: Pdp, s: Store, c: State, a: Ask, d: Draw, m: Moment, m2: Moment,
                   t: Store, c': State, principal: Option<Principal>, args: PyVal, n: Moment, n2: Moment)
    requires Issues(sha, pdp, s, c, a, d, m, m2)
    requires Reaches(sha, Authorize(sha, pdp, s, c, a, d, m, m2).0, t)
    requires Redeems(sha, t, c', d.grantId, principal, args, n, n2)
    requires a.args.Some? && a.principal.Some? && principal.Some? && WellFormed(a.args.value) && WellFormed(args)
    ensures SameJson(args, a.args.value) || Collide(sha, args, a.args.value)
    ensures principal.value.id == a.principal.value.id
    ensures Invocable(c, a.sid, a.name) && Invocable(c', a.sid, a.name)
    ensures RedeemGrant(sha, t, c', d.grantId, principal, args, n, n2).1
         == Success(RedeemReply(Ok, Some(d.decisionId), Some(a.sid), Some(a.name)))
    ensures InTime(a, d, n.now)
  {
    hide Reaches, Authorize, RedeemGrant, WellFormed, BrokerVerdict, CanonicalArgs, Invocable, TtlOf, Denote, Evolves;
    var s1 := Authorize(sha, pdp, s, c, a, d, m, m2).0;
    IssuedRow(sha, pdp, s, c, a, d, m, m2);
    BrokerAllows(pdp, c, a.principal.value, a.sid, a.name, Context(a));
    ReachesKeeps(sha, s1, t);
    KeptIdentity(s1, t, d.grantId);
    RedeemedRow(sha, t, c', d.grantId, principal, args, n, n2);
    assert s1.grants[d.grantId].argsHash == sha(CanonicalArgs(a.args.value).value);
    assert t.grants[d.grantId].argsHash == sha(CanonicalArgs(args).value);
    RenderedIsChecked(args);
    RenderedIsChecked(a.args.value);
    ArgsHashBinds(sha, args, a.args.value);
  }

  lemma KeptIdentity(s: Store, t: Store, gid: string)
    requires Evolves(s, t) && gid in s.grants
    ensures gid in t.grants && SameIdentity(s.grants[gid], t.grants[gid])
    ensures t.grants[gid].argsHash == s.grants[gid].argsHash
  {
  }

  /** What the row of a grant says when it redeems. */
  lemma RedeemedRow(sha: string -> Digest, s: Store, c: State, gid: string, principal: Option<Principal>, args: PyVal,
                    m: Moment, m2: Moment)
    requires Redeems(sha, s, c, gid, principal, args, m, m2)
    ensures gid in s.grants && principal.Some? && CanonicalArgs(args).Success?
    ensures var g := s.grants[gid];
            && g.argsHash == sha(CanonicalArgs(args).value) && g.principalId == principal.value.id
            && m.now < g.expiresAt.instant && Invocable(c, g.sourceId, g.name)
            && RedeemGrant(sha, s, c, gid, principal, args, m, m2).1
               == Success(RedeemReply(Ok, Some(g.decisionId), Some(g.sourceId), Some(g.name)))
  {
    hide KindOf, BodyText, NextRow, AppendBody, CanonicalArgs, Invocable;
  }

  /** A grant whose tool was not invocable when redeemed is dead: whoever tries again, after
      any calls in between, is told it is closed, even if the tool is invocable again. */
  lemma KilledForGood(sha: string -> Digest, s: Store, c: State, gid: string, principal: Option<Principal>, args: PyVal,
                      m: Moment, m2: Moment, t: Store, c': State, principal': Option<Principal>, args': PyVal,
                      n: Moment, n2: Moment)
    requires FoundUninvocable(sha, s, c, gid, principal, args, m, m2)
    requires Reaches(sha, RedeemGrant(sha, s, c, gid, principal, args, m, m2).0, t)
    ensures var r' := RedeemGrant(sha, t, c', gid, principal', args', n, n2).1;
            r'.Success? ==> r'.value.reason == Closed
  {
    hide Reaches, CanonicalArgs, RedeemGrant, Evolves;
    var s1 := RedeemGrant(sha, s, c, gid, principal, args, m, m2).0;
    ClosedRow(sha, s, c, gid, principal, args, m, m2);
    ReachesKeeps(sha, s1, t);
    StaysClosed(s1, t, gid);
    ClosedReply(sha, t, c', gid, principal', args', n, n2);
  }

  lemma ClosedRow(sha: string -> Digest, s: Store, c: State, gid: string, principal: Option<Principal>, args: PyVal,
                  m: Moment, m2: Moment)
    requires FoundUninvocable(sha, s, c, gid, principal, args, m, m2)
    ensures var t := RedeemGrant(sha, s, c, gid, principal, args, m, m2).0;
            gid in t.grants && t.grants[gid].closedAt.Some? && t.grants[gid].redeemedAt.None?
  {
    hide KindOf, BodyText, NextRow, CanonicalArgs, Invocable;
  }

  lemma StaysClosed(s: Store, t: Store, gid: string)
    requires Evolves(s, t) && gid in s.grants && s.grants[gid].closedAt.Some? && s.grants[gid].redeemedAt.None?
    ensures gid in t.grants && t.grants[gid].closedAt.Some? && t.grants[gid].redeemedAt.None?
  {
  }

  lemma ClosedReply(sha: string -> Digest, t: Store, c: State, gid: string, principal: Option<Principal>, args: PyVal,
                    m: Moment, m2: Moment)
    requires gid in t.grants && t.grants[gid].closedAt.Some? && t.grants[gid].redeemedAt.None?
    ensures var r := RedeemGrant(sha, t, c, gid, principal, args, m, m2).1; r.Success? ==> r.value.reason == Closed
  {
    hide KindOf, BodyText, NextRow, CanonicalArgs, Invocable, AppendBody;
  }

  // ----- what an outcome leaves -----------------------------------------------------

  /** The next record after those of `s` is this outcome, about a decision recorded in `s`. */
  predicate PointsBack(s: Store, t: Store, did: string, outcome: string) {
    && |s.bodies| < |t.bodies| && s.bodies <= t.bodies
    && var b := t.bodies[|s.bodies|];
       && b.Outcome? && b.decisionId == did && b.outcome == outcome
       && 1 <= b.decisionSeq <= |s.bodies|
       && s.bodies[b.decisionSeq - 1].Decision? && s.bodies[b.decisionSeq - 1].decisionId == did
  }

  predicate ClosedUnder(t: Store, gid: string, did: string) {
    gid in t.grants && t.grants[gid].decisionId == did && t.grants[gid].closedAt.Some?
  }

  /** An outcome that is recorded names the sequence number of the decision it is about, and
      that record is really a decision with this id; the grant named with it belongs to that
      decision and is closed afterwards. */
  lemma OutcomePointsBack(sha: string -> Digest, s: Store, did: string, outcome: string, detail: string,
                          gid: Option<string>, m: Moment, m2: Moment)
    requires Invariant(sha, s) && RecordOutcome(sha, s, did, outcome, detail, gid, m, m2).1.Success?
    ensures PointsBack(s, RecordOutcome(sha, s, did, outcome, detail, gid, m, m2).0, did, outcome)
    ensures gid.Some? ==> ClosedUnder(RecordOutcome(sha, s, did, outcome, detail, gid, m, m2).0, gid.value, did)
  {
    hide KindOf, BodyText, NextRow, FindDecision, TrailsFit, ClaimsFit, BodiesAgree, Verifies, CleanRow;
    var k := FindDecision(s.bodies, did);
    assert s.log.rows[k].seqNo == k + 1;
  }

  // ----- governance redemptions -----------------------------------------------------

  /** A call that passes the shape checks and completes leaves exactly one enforcement record
      saying what it answered; one that does not complete leaves the store as it was. Only a
      redeemed answer touches the redemptions, and only for a grant verified and in scope. */
  lemma GovRecordsOnce(sha: string -> Digest, gov: Governance, s: Store, a: GovAsk, m: Moment, m2: Moment)
    ensures var (t, r) := RedeemGovernance(sha, gov, s, a, m, m2); GovEffect(sha, gov, s, a, t, r, m.stamp)
  {
    hide AppendBody, G.Verify, GS.ScopeCodes, CanonicalArgs, GovEffect, RedeemVerified;
    if !GovMalformed(a) {
      var o := G.Verify(gov.tr, a.grant, gov.root, a.at, None, gov.list);
      if o.Checked? {
        RefusalSaysWhy(gov.tr, a.grant, gov.root, a.at, None, gov.list);
        if !o.v.valid {
          DenyEffect(sha, gov, s, a, o.v, G.CodeText(o.v.codes[0]), m, m.stamp);
        } else {
          VerifiedEffect(sha, gov, s, a, o.v, m, m2);
        }
      }
    }
    Untouched(sha, gov, s, a, m.stamp);
  }

  ghost predicate GovEffect(sha: string -> Digest, gov: Governance, s: Store, a: GovAsk, t: Store,
                            r: Result<GovReply, ServiceCalls.Fault>, stamp: Stamp)
  {
    && (r.Failure? ==> t == s)
    && (r.Success? ==>
          && !GovMalformed(a)
          && |t.bodies| == |s.bodies| + 1 && t.bodies[..|s.bodies|] == s.bodies
          && t.bodies[|s.bodies|].ProviderEnforcement?
          && t.bodies[|s.bodies|].outcome == (if r.value.redeemed then "redeemed" else "denied:" + r.value.reason)
          && t.bodies[|s.bodies|].govGrantId == r.value.grantId)
    && (r.Success? && !r.value.redeemed ==> t.redemptions == s.redemptions)
    && (r.Success? && r.value.redeemed ==>
          && Earned(sha, gov, a)
          && var gid, row := D.TextAt(PayloadIn(a.grant), "grant_id"), RowFor(sha, gov, a, PayloadIn(a.grant), stamp);
             r.value.grantId == Some(gid) && gid !in s.redemptions && t.redemptions == s.redemptions[gid := row])
  }

  /** Verified without a failure, and in scope for exactly this call. */
  ghost predicate Earned(sha: string -> Digest, gov: Governance, a: GovAsk) {
    && !GovMalformed(a)
    && Accepts(gov.tr, a.grant, gov.root, a.at, None, gov.list)
    && GS.ScopeCodes(gov.tr, PayloadIn(a.grant), ScopeOf(gov, a)) == []
  }

  lemma Untouched(sha: string -> Digest, gov: Governance, s: Store, a: GovAsk, stamp: Stamp)
    ensures forall f :: GovEffect(sha, gov, s, a, s, Failure(f), stamp)
  {
  }

  lemma DenyEffect(sha: string -> Digest, gov: Governance, s: Store, a: GovAsk, v: G.Verification, reason: string,
                   m: Moment, stamp: Stamp)
    requires !GovMalformed(a)
    ensures var (t, r) := Deny(sha, gov, s, a, v, reason, m); GovEffect(sha, gov, s, a, t, r, stamp)
  {
    hide KindOf, BodyText, NextRow, CanonicalArgs, Earned, RowFor, CodeTexts;
  }

  lemma VerifiedEffect(sha: string -> Digest, gov: Governance, s: Store, a: GovAsk, v: G.Verification, m: Moment,
                       m2: Moment)
    requires !GovMalformed(a) && Accepts(gov.tr, a.grant, gov.root, a.at, None, gov.list)
    requires v.payload == Some(PayloadIn(a.grant))
    ensures var (t, r) := RedeemVerified(sha, gov, s, a, v, m, m2); GovEffect(sha, gov, s, a, t, r, m.stamp)
  {
    hide AppendBody, G.Verify, GS.ScopeCodes, CanonicalArgs, GovEffect, Deny, Claim, RowFor, Earned, Accepts;
    var p := PayloadIn(a.grant);
    var scope := GS.ScopeCodes(gov.tr, p, ScopeOf(gov, a));
    if scope != [] {
      DenyEffect(sha, gov, s, a, v, G.CodeText(scope[0]), m, m.stamp);
    } else {
      var gid := D.TextAt(p, "grant_id");
      var (s1, r) := Claim(sha, s, gid, RowFor(sha, gov, a, p, m.stamp), m);
      EarnedHere(sha, gov, a);
      ClaimEffect(sha, gov, s, a, m);
      Untouched(sha, gov, s, a, m.stamp);
      if r == Success(false) { DenyEffect(sha, gov, s1, a, v, "already_redeemed", m2, m.stamp); }
    }
  }

  lemma EarnedHere(sha: string -> Digest, gov: Governance, a: GovAsk)
    requires !GovMalformed(a) && Accepts(gov.tr, a.grant, gov.root, a.at, None, gov.list)
    requires GS.ScopeCodes(gov.tr, PayloadIn(a.grant), ScopeOf(gov, a)) == []
    ensures Earned(sha, gov, a)
  {
  }

  lemma ClaimEffect(sha: string -> Digest, gov: Governance, s: Store, a: GovAsk, m: Moment)
    requires Earned(sha, gov, a)
    ensures var gid := D.TextAt(PayloadIn(a.grant), "grant_id");
            var (t, r) := Claim(sha, s, gid, RowFor(sha, gov, a, PayloadIn(a.grant), m.stamp), m);
            && (r != Success(true) ==> t == s)
            && (r == Success(true) ==>
                GovEffect(sha, gov, s, a, t, Success(GovReply(true, "ok", Some(gid), [])), m.stamp))
  {
    hide KindOf, BodyText, NextRow, CanonicalArgs, D.TextAt, Accepts, GS.ScopeCodes;
  }

  /** A call with `{"n": true}` that presents the grant for one. */
  function TrueAsk(gov: Governance, p: Principal, sid: string, name: string, issuer: string, gid: string,
                   signature: string, at: string): GovAsk
  {
    var payload := GX.OneOnly(issuer, gid, TrueRequest(gov, p, sid, name));
    GovAsk(GrantOf(payload, signature), Some(p), sid, name, GX.TRUE_ARGS, at)
  }

  function TrueRequest(gov: Governance, p: Principal, sid: string, name: string): GS.Request {
    GS.Request(p.id, gov.provider, sid, name, GX.TRUE_ARGS)
  }

  /** Exact JSON equality is what is documented: here a signed grant for the argument 1, not
      used before, is redeemed for the argument true. */
  lemma AGrantForOneRedeemsForTrue(sha: string -> Digest, gov: Governance, s: Store, p: Principal, sid: string,
                                   name: string, issuer: string, gid: string, signature: string, at: string,
                                   m: Moment, m2: Moment)
    requires GX.NonemptyIds(issuer, gid, TrueRequest(gov, p, sid, name)) && gov.tr.parseTime(at).Some?
    requires gov.list.None_? && gov.root.Some?
    requires Signed(gov.tr, gov.root, issuer, signature, GX.OneOnly(issuer, gid, TrueRequest(gov, p, sid, name)))
    requires gid !in s.redemptions && !m.fault
    ensures RedeemGovernance(sha, gov, s, TrueAsk(gov, p, sid, name, issuer, gid, signature, at), m, m2).1
         == Success(GovReply(true, "ok", Some(gid), []))
  {
    hide G.Verify, GX.OneOnly, GrantOf, GS.ScopeCodes, CanonicalArgs, Signed, AppendBody, RowFor, D.TextAt, Deny;
    var a, r := TrueAsk(gov, p, sid, name, issuer, gid, signature, at), TrueRequest(gov, p, sid, name);
    GX.OneOnlyAccepted(gov.tr, issuer, gid, r, signature, gov.root.value, at);
    GX.TrueIsTakenForOne(gov.tr, issuer, gid, r);
    GX.OneOnlyFields(issuer, gid, r);
    RefusalSaysWhy(gov.tr, a.grant, gov.root, at, None, gov.list);
  }

  // ----- conservation over runs -----------------------------------------------------

  function Enforcements(bs: seq<Body>): nat {
    if bs == [] then 0 else Enforcements(bs[..|bs| - 1]) + if bs[|bs| - 1].ProviderEnforcement? then 1 else 0
  }

  lemma EnforcementsSnoc(bs: seq<Body>, b: Body)
    ensures Enforcements(bs + [b]) == Enforcements(bs) + if b.ProviderEnforcement? then 1 else 0
  {
    assert (bs + [b])[..|bs|] == bs;
  }

  /** The same enforcement records, in number, and the same redemption rows. */
  predicate SameGovernance(s: Store, t: Store) {
    Enforcements(t.bodies) == Enforcements(s.bodies) && t.redemptions == s.redemptions
  }

  lemma OrdinaryOp(sha: string -> Digest, s: Store, op: Op)
    requires Callable(op) && !op.ClaimOp? && (op.AppendOp? ==> !op.body.ProviderEnforcement?)
    ensures SameGovernance(s, Apply(sha, s, op))
  {
    hide KindOf, BodyText, NextRow, Enforcements;
    match op
    case AppendOp(b, m) => EnforcementsSnoc(s.bodies, b);
    case IssueOp(gid, g, ttl, m) => EnforcementsSnoc(s.bodies, IssueBody(gid, g, ttl));
    case CloseOp(gid, reason, m) =>
      if gid in s.grants {
        EnforcementsSnoc(s.bodies, GrantClose(gid, s.grants[gid].decisionId, reason, s.grants[gid].closedAt.Some?));
      }
    case RedeemOp(gid, h, p, check, m) => RedeemOrdinary(sha, s, gid, h, p, check, m);
  }

  lemma RedeemOrdinary(sha: string -> Digest, s: Store, gid: string, h: string, p: string,
                       check: Option<InvocableCheck>, m: Moment)
    ensures SameGovernance(s, Redeem(sha, s, gid, h, p, check, m).0)
  {
    hide KindOf, BodyText, NextRow, Enforcements;
    if gid in s.grants {
      var g := s.grants[gid];
      EnforcementsSnoc(s.bodies, GrantClose(gid, g.decisionId, "not_invocable", false));
      EnforcementsSnoc(s.bodies, GrantRedeem(gid, g.decisionId, p, g.sourceId, g.name));
    }
  }

  lemma OrdinaryAuthorize(sha: string -> Digest, pdp: Pdp, s: Store, c: State, a: Ask, d: Draw, m: Moment, m2: Moment)
    ensures SameGovernance(s, Authorize(sha, pdp, s, c, a, d, m, m2).0)
  {
    hide AppendBody, Issue, BrokerVerdict, CanonicalArgs, TtlOf, GrantFor, KindOf, BodyText, Enforcements;
    if !Malformed(a) {
      var v := VerdictOn(pdp, c, a);
      var b := DecisionBody(d.decisionId, a.principal.value, a.sid, a.name, v);
      OrdinaryOp(sha, s, AppendOp(b, m));
      if a.args.Some? {
        FreshGrant(sha, a, d);
        OrdinaryOp(sha, AppendAudit(sha, s, b, m).0,
            IssueOp(d.grantId, GrantFor(sha, a, d), Some(TtlOf(a.ttl).value), m2));
      }
    }
  }

  lemma OrdinaryRedeem(sha: string -> Digest, s: Store, c: State, gid: string, principal: Option<Principal>,
                       args: PyVal, m: Moment, m2: Moment)
    ensures SameGovernance(s, RedeemGrant(sha, s, c, gid, principal, args, m, m2).0)
  {
    hide AppendBody, Redeem, CanonicalArgs, KindOf, BodyText, Enforcements;
    if gid != "" && principal.Some? && CanonicalArgs(args).Success? {
      var p, check := principal.value, Some(InvocableSet(c));
      var (s1, r) := Redeem(sha, s, gid, ArgsHash(sha, args).value, p.id, check, m);
      RedeemOrdinary(sha, s, gid, ArgsHash(sha, args).value, p.id, check, m);
      if r.Success? {
        OrdinaryOp(sha, s1, AppendOp(GrantRedeemDenied(gid, r.value.decisionId, p.id, ReasonText(r.value.reason)), m2));
      }
    }
  }

  lemma OrdinaryOutcome(sha: string -> Digest, s: Store, did: string, outcome: string, detail: string,
                        gid: Option<string>, m: Moment, m2: Moment)
    ensures SameGovernance(s, RecordOutcome(sha, s, did, outcome, detail, gid, m, m2).0)
  {
    hide Close, AppendBody, FindDecision, KindOf, BodyText, Enforcements;
    var k := FindDecision(s.bodies, did);
    if k < |s.bodies| && k < |s.log.rows| {
      var b := Outcome(did, s.log.rows[k].seqNo, outcome, detail);
      OrdinaryOp(sha, s, AppendOp(b, m));
      if gid.Some? { OrdinaryOp(sha, AppendAudit(sha, s, b, m).0, CloseOp(gid.value, "outcome_reported", m2)); }
    }
  }

  lemma OrdinaryCall(sha: string -> Digest, s: Store, call: Call)
    requires !call.GovCall?
    ensures SameGovernance(s, Serve(sha, s, call))
  {
    hide SameGovernance, Authorize, RedeemGrant, RecordOutcome, Close;
    match call
    case AuthorizeCall(pdp, c, a, d, m, m2) => OrdinaryAuthorize(sha, pdp, s, c, a, d, m, m2);
    case RedeemCall(c, gid, p, args, m, m2) => OrdinaryRedeem(sha, s, c, gid, p, args, m, m2);
    case OutcomeCall(did, outcome, detail, gid, m, m2) => OrdinaryOutcome(sha, s, did, outcome, detail, gid, m, m2);
    case CloseCall(gid, reason, m) => OrdinaryOp(sha, s, CloseOp(gid, reason, m));
  }

  /** The answer of a governance call, if the call is one. */
  function GovAnswer(sha: string -> Digest, s: Store, call: Call): Option<GovReply> {
    if !call.GovCall? then None
    else
      var r := RedeemGovernance(sha, call.gov, s, call.gask, call.m, call.m2).1;
      if r.Success? then Some(r.value) else None
  }

  /** How many governance calls of the run completed. */
  function Completed(sha: string -> Digest, s: Store, calls: seq<Call>): nat {
    if calls == [] then 0
    else
      var front := calls[..|calls| - 1];
      Completed(sha, s, front) + if GovAnswer(sha, ServeAll(sha, s, front), calls[|calls| - 1]).Some? then 1 else 0
  }

  /** How many calls of the run were answered `redeemed` for this governance grant. */
  function TimesRedeemed(sha: string -> Digest, s: Store, calls: seq<Call>, gid: string): nat {
    if calls == [] then 0
    else
      var front := calls[..|calls| - 1];
      var r := GovAnswer(sha, ServeAll(sha, s, front), calls[|calls| - 1]);
      TimesRedeemed(sha, s, front, gid) + if r.Some? && r.value.redeemed && r.value.grantId == Some(gid) then 1 else 0
  }

  /** The row of this grant is what one of these calls, verified and in scope, was owed. */
  ghost predicate EarnedRow(sha: string -> Digest, calls: seq<Call>, gid: string, row: Redemption) {
    exists i :: 0 <= i < |calls| && EarnedBy(sha, calls[i], gid, row)
  }

  ghost predicate EarnedBy(sha: string -> Digest, call: Call, gid: string, row: Redemption) {
    && call.GovCall? && Earned(sha, call.gov, call.gask)
    && gid == D.TextAt(PayloadIn(call.gask.grant), "grant_id")
    && row == RowFor(sha, call.gov, call.gask, PayloadIn(call.gask.grant), call.m.stamp)
  }

  lemma EarnedRowGrows(sha: string -> Digest, calls: seq<Call>, call: Call, gid: string, row: Redemption)
    ensures EarnedRow(sha, calls, gid, row) || EarnedBy(sha, call, gid, row) ==>
        EarnedRow(sha, calls + [call], gid, row)
  {
    if EarnedRow(sha, calls, gid, row) {
      var i :| 0 <= i < |calls| && EarnedBy(sha, calls[i], gid, row);
      assert (calls + [call])[i] == calls[i];
    } else if EarnedBy(sha, call, gid, row) {
      assert (calls + [call])[|calls|] == call;
    }
  }

  /** What one call, answered so, does to one governance grant. */
  ghost predicate Counted(sha: string -> Digest, s: Store, t: Store, call: Call, r: Option<GovReply>, gid: string) {
    && Enforcements(t.bodies) == Enforcements(s.bodies) + (if r.Some? then 1 else 0)
    && (if r.Some? && r.value.redeemed && r.value.grantId == Some(gid)
        then gid !in s.redemptions && gid in t.redemptions && EarnedBy(sha, call, gid, t.redemptions[gid])
        else (gid in t.redemptions <==> gid in s.redemptions)
             && (gid in s.redemptions ==> t.redemptions[gid] == s.redemptions[gid]))
  }

  lemma EffectCounted(sha: string -> Digest, s: Store, t: Store, call: Call, r: Result<GovReply, ServiceCalls.Fault>,
                      gid: string)
    requires call.GovCall? && GovEffect(sha, call.gov, s, call.gask, t, r, call.m.stamp)
    ensures Counted(sha, s, t, call, if r.Success? then Some(r.value) else None, gid)
  {
    hide Earned, RowFor, D.TextAt, Enforcements, GovMalformed, PayloadIn;
    if r.Success? {
      var b := t.bodies[|s.bodies|];
      EnforcementsSnoc(s.bodies, b);
      assert t.bodies == s.bodies + [b];
    }
  }

  lemma GovStep(sha: string -> Digest, s: Store, call: Call, gid: string)
    ensures Counted(sha, s, Serve(sha, s, call), call, GovAnswer(sha, s, call), gid)
  {
    hide RedeemGovernance, GovEffect, Counted, Authorize, RedeemGrant, RecordOutcome, Close, Enforcements;
    if call.GovCall? {
      GovRecordsOnce(sha, call.gov, s, call.gask, call.m, call.m2);
      var (t, r) := RedeemGovernance(sha, call.gov, s, call.gask, call.m, call.m2);
      EffectCounted(sha, s, t, call, r, gid);
    } else {
      OrdinaryCall(sha, s, call);
      OrdinaryCounted(sha, s, Serve(sha, s, call), call, gid);
    }
  }

  lemma OrdinaryCounted(sha: string -> Digest, s: Store, t: Store, call: Call, gid: string)
    requires SameGovernance(s, t)
    ensures Counted(sha, s, t, call, None, gid)
  {
  }

  /** Conservation: over any run from an empty store, one enforcement record per completed
      governance call; each grant answered `redeemed` at most once, exactly the ones with a
      row; and every row earned by a call whose verification and scope found nothing. */
  lemma {:induction false} GovernanceConserved(sha: string -> Digest, calls: seq<Call>, gid: string)
    ensures var t := ServeAll(sha, EMPTY_STORE, calls);
            && Enforcements(t.bodies) == Completed(sha, EMPTY_STORE, calls)
            && TimesRedeemed(sha, EMPTY_STORE, calls, gid) == (if gid in t.redemptions then 1 else 0)
            && Claims(t.bodies, gid) == (if gid in t.redemptions then 1 else 0)
            && (gid in t.redemptions ==> EarnedRow(sha, calls, gid, t.redemptions[gid]))
  {
    hide Serve, GovAnswer, EarnedBy, EarnedRow, Enforcements, Claims, Reaches;
    GovernanceCounted(sha, calls, gid);
    EmptyStoreInvariant(sha);
    ServiceKeepsLedger(sha, EMPTY_STORE, calls);
  }

  lemma {:induction false} GovernanceCounted(sha: string -> Digest, calls: seq<Call>, gid: string)
    ensures var t := ServeAll(sha, EMPTY_STORE, calls);
            && Enforcements(t.bodies) == Completed(sha, EMPTY_STORE, calls)
            && TimesRedeemed(sha, EMPTY_STORE, calls, gid) == (if gid in t.redemptions then 1 else 0)
            && (gid in t.redemptions ==> EarnedRow(sha, calls, gid, t.redemptions[gid]))
  {
    hide Serve, GovAnswer, EarnedBy, EarnedRow;
    if calls != [] {
      var front, call := calls[..|calls| - 1], calls[|calls| - 1];
      var s := ServeAll(sha, EMPTY_STORE, front);
      GovernanceCounted(sha, front, gid);
      GovStep(sha, s, call, gid);
      var t := Serve(sha, s, call);
      assert front + [call] == calls;
      if gid in t.redemptions { EarnedRowGrows(sha, front, call, gid, t.redemptions[gid]); }
    }
  }
}
