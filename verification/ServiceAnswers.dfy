/** What the service answers and records, read off the request and the tables alone, in the
    numbers and texts a caller sees. */
module ServiceAnswers {
  import opened Wrappers
  import opened CanonicalJson
  import opened AuditChain
  import opened AuditBody
  import opened Ledger
  import opened Descriptor
  import opened ToolCatalog
  import opened Policy
  import opened ServiceCalls
  import opened ServiceRuns
  import opened ServiceResults
  import opened GovAcceptance
  import G = GovGrants
  import D = Documents
  import GS = GovScope
  import R = GovReasons

  // ----- authorize ------------------------------------------------------------------

  /** Refused with status 400, and nothing recorded, exactly when the principal does not parse,
      the context is no object, a lifetime comes without arguments, the arguments have no
      canonical text, or the lifetime is not a whole number of seconds from 1 to 300. */
  lemma RefusedAsMalformed(sha: string -> Digest, pdp: Pdp, s: Store, c: State, a: Ask, d: Draw, m: Moment, m2: Moment)
    ensures var (t, r) := Authorize(sha, pdp, s, c, a, d, m, m2);
            && (r == Failure(Status(400)) <==>
                  || a.principal == None
                  || (a.context.Some? && !a.context.value.Dict?)
                  || (a.args == None && a.ttl != None_)
                  || (a.args.Some? && CanonicalArgs(a.args.value).Failure?)
                  || (a.args.Some? && a.ttl != None_ && !(a.ttl.Int? && 1 <= a.ttl.i <= 300)))
            && (r == Failure(Status(400)) ==> t == s)
  {
    hide Authorize, CanonicalArgs, VerdictOn, GrantFor;
    AuthorizeLeaves(sha, pdp, s, c, a, d, m, m2);
  }

  /** An issued grant: for this caller, source, tool and the hash of these arguments, under the
      decision just recorded; it lives the seconds asked for, from 1 to 300, or 60 when none
      were, counted in microseconds from its issue; and it is neither redeemed nor closed. */
  lemma GrantLives(sha: string -> Digest, pdp: Pdp, s: Store, c: State, a: Ask, d: Draw, m: Moment, m2: Moment)
    requires Issues(sha, pdp, s, c, a, d, m, m2)
    ensures a.principal.Some? && a.args.Some? && CanonicalArgs(a.args.value).Success?
    ensures var (t, r) := Authorize(sha, pdp, s, c, a, d, m, m2);
            && r.Success? && r.value.grant.Some? && d.grantId in t.grants
            && var reply, g := r.value.grant.value, t.grants[d.grantId];
               && (if a.ttl == None_ then reply.ttl == 60 else a.ttl == Int(reply.ttl)) && 1 <= reply.ttl <= 300
               && g.issuedAt == d.issued && g.expiresAt.text == d.expiresText
               && g.expiresAt.instant == g.issuedAt.instant + reply.ttl * 1_000_000
               && g.principalId == a.principal.value.id && g.sourceId == a.sid && g.name == a.name
               && g.argsHash == sha(CanonicalArgs(a.args.value).value)
               && g.decisionId == d.decisionId == r.value.decisionId
               && g.redeemedAt == None && g.closedAt == None
               && reply.grantId == d.grantId && reply.argsHash == g.argsHash && reply.expiresAt == d.expiresText
  {
    hide KindOf, BodyText, NextRow, BrokerVerdict, CanonicalArgs;
    IssuedRow(sha, pdp, s, c, a, d, m, m2);
  }

  /** Allowed exactly when the tool may run and the engine, asked of this principal, this very
      tool and the context given or an empty one, allows it. */
  lemma AllowedIff(sha: string -> Digest, pdp: Pdp, s: Store, c: State, a: Ask, d: Draw, m: Moment, m2: Moment)
    requires Authorize(sha, pdp, s, c, a, d, m, m2).1.Success?
    ensures a.principal.Some?
    ensures var v := Authorize(sha, pdp, s, c, a, d, m, m2).1.value.verdict;
            var context := if a.context == None then Dict([]) else a.context.value;
            && (MayRun(c, a.sid, a.name) ==>
                  v == pdp.decide(a.principal.value, c.tools[(a.sid, a.name)], context))
            && (v.allowed <==> MayRun(c, a.sid, a.name)
                               && pdp.decide(a.principal.value, c.tools[(a.sid, a.name)], context).allowed)
  {
    hide Authorize, CanonicalArgs, GrantFor, TtlOf, BrokerVerdict;
    AuthorizeLeaves(sha, pdp, s, c, a, d, m, m2);
    BrokerAnswers(pdp, c, a.principal.value, a.sid, a.name, Context(a));
  }

  // ----- redeem ---------------------------------------------------------------------

  /** Refused with status 400 exactly without a grant id, a principal or hashable arguments. */
  lemma RedeemRefused(sha: string -> Digest, s: Store, c: State, gid: string, principal: Option<Principal>, args: PyVal,
                      m: Moment, m2: Moment)
    ensures var (t, r) := RedeemGrant(sha, s, c, gid, principal, args, m, m2);
            && (r == Failure(Status(400)) <==> gid == "" || principal == None || CanonicalArgs(args).Failure?)
            && (r == Failure(Status(400)) ==> t == s)
  {
    hide Redeem, AppendAudit, CanonicalArgs;
  }

  /** The tool is asserted and its source is verified or known. */
  predicate MayRun(c: State, sid: string, name: string) {
    && (sid, name) in c.tools && c.tools[(sid, name)].asserted != None
    && sid in c.sources && (c.sources[sid].tier == VerifiedTier || c.sources[sid].tier == KnownTier)
  }

  lemma InvocableMayRun(c: State, sid: string, name: string)
    ensures (sid, name) in InvocableSet(c) <==> MayRun(c, sid, name)
    ensures Invocable(c, sid, name) <==> MayRun(c, sid, name)
  {
  }

  /** Every answer to a presented grant, from its row, the presenter, the hash of what was
      presented, the instant, and whether the tool may run. */
  lemma RedeemAnswers(sha: string -> Digest, s: Store, c: State, gid: string, principal: Option<Principal>, args: PyVal,
                      m: Moment, m2: Moment)
    requires RedeemGrant(sha, s, c, gid, principal, args, m, m2).1.Success?
    ensures principal.Some? && CanonicalArgs(args).Success?
    ensures var r := RedeemGrant(sha, s, c, gid, principal, args, m, m2).1.value;
            && (r.reason == NotFound <==> gid !in s.grants)
            && (gid in s.grants ==>
                  var g := s.grants[gid];
                  var live := g.redeemedAt == None && g.closedAt == None && m.now < g.expiresAt.instant;
                  var mine := g.principalId == principal.value.id;
                  var exact := g.argsHash == sha(CanonicalArgs(args).value);
                  && (r.reason == AlreadyRedeemed <==> g.redeemedAt != None)
                  && (r.reason == Closed <==> g.redeemedAt == None && g.closedAt != None)
                  && (r.reason == Expired <==>
                        g.redeemedAt == None && g.closedAt == None && g.expiresAt.instant <= m.now)
                  && (r.reason == PrincipalMismatch <==> live && !mine)
                  && (r.reason == ArgsMismatch <==> live && mine && !exact)
                  && (r.reason == NotInvocable <==> live && mine && exact && !MayRun(c, g.sourceId, g.name))
                  && (r.reason == Ok <==> live && mine && exact && MayRun(c, g.sourceId, g.name)))
  {
    hide Redeem, AppendAudit, CanonicalArgs, MayRun, InvocableSet, Invocable;
    if gid in s.grants { InvocableMayRun(c, s.grants[gid].sourceId, s.grants[gid].name); }
    ReasonsByRow(sha, s, gid, sha(CanonicalArgs(args).value), principal.value.id, Some(InvocableSet(c)), m);
  }

  /** The text a reason is known by. */
  predicate KnownBy(why: Reason, text: string) {
    && (why == Ok ==> text == "ok")
    && (why == NotFound ==> text == "not_found")
    && (why == AlreadyRedeemed ==> text == "already_redeemed")
    && (why == Closed ==> text == "closed")
    && (why == Expired ==> text == "expired")
    && (why == PrincipalMismatch ==> text == "principal_mismatch")
    && (why == ArgsMismatch ==> text == "args_mismatch")
    && (why == NotInvocable ==> text == "not_invocable")
  }

  /** The newest record denies the grant to this principal for this reason. */
  predicate DeniesAs(b: Body, gid: string, did: Option<string>, principalId: string, why: Reason) {
    && b.GrantRedeemDenied? && b.grantId == gid && b.deniedDecision == did && b.principalId == principalId
    && KnownBy(why, b.denyReason)
  }

  /** What an answered redemption leaves on record: its own record for an ok; for every denial
      a last record under the text of its reason, after the close of a grant whose tool may
      not run. Nothing else is written. */
  lemma RedeemRecords(sha: string -> Digest, s: Store, c: State, gid: string, principal: Option<Principal>, args: PyVal,
                      m: Moment, m2: Moment)
    requires RedeemGrant(sha, s, c, gid, principal, args, m, m2).1.Success?
    ensures principal.Some?
    ensures var (t, r) := RedeemGrant(sha, s, c, gid, principal, args, m, m2);
            var why, p := r.value.reason, principal.value.id;
            && t.redemptions == s.redemptions
            && (why == Ok ==> gid in s.grants && r.value.decisionId.Some?
                              && r.value.sourceId.Some? && r.value.name.Some?
                              && t.bodies == s.bodies + [GrantRedeem(gid, r.value.decisionId.value, p,
                                                                     r.value.sourceId.value, r.value.name.value)])
            && (why != Ok ==> t.bodies != [] && DeniesAs(t.bodies[|t.bodies| - 1], gid, r.value.decisionId, p, why))
            && (why == NotInvocable ==>
                  gid in s.grants
                  && t.bodies[..|t.bodies| - 1]
                     == s.bodies + [GrantClose(gid, s.grants[gid].decisionId, "not_invocable", false)])
            && (why != Ok && why != NotInvocable ==>
                  t.grants == s.grants && t.bodies[..|t.bodies| - 1] == s.bodies)
  {
    hide Redeem, KindOf, BodyText, NextRow, CanonicalArgs, InvocableSet;
    var h, p, check := ArgsHash(sha, args).value, principal.value.id, Some(InvocableSet(c));
    RedeemWrites(sha, s, gid, h, p, check, m);
    ReasonsByRow(sha, s, gid, h, p, check, m);
  }

  /** The words of a denial are those of its reason. */
  lemma ReasonWords(why: Reason)
    ensures KnownBy(why, ReasonText(why))
  {
  }

  // ----- outcomes and closing -------------------------------------------------------

  ghost predicate Decided(s: Store, did: string) {
    exists i :: 0 <= i < |s.bodies| && s.bodies[i].Decision? && s.bodies[i].decisionId == did
  }

  /** How a reported outcome is answered: 400 without a decision id, 404 for a decision not on
      record, and then, with the outcome already recorded, 404 for a grant that does not exist
      and 400 for one of another decision. */
  lemma OutcomeAnswers(sha: string -> Digest, s: Store, did: string, outcome: string, detail: string,
                       gid: Option<string>, m: Moment, m2: Moment)
    requires |s.log.rows| == |s.bodies| && !m.fault && !m2.fault
    ensures var (t, r) := RecordOutcome(sha, s, did, outcome, detail, gid, m, m2);
            if did == "" then t == s && r == Failure(Status(400))
            else if !Decided(s, did) then t == s && r == Failure(Status(404))
            else
              && |s.bodies| < |t.bodies| && t.bodies[..|s.bodies|] == s.bodies
              && t.bodies[|s.bodies|].Outcome? && t.bodies[|s.bodies|].decisionId == did
              && t.bodies[|s.bodies|].outcome == outcome && t.bodies[|s.bodies|].detail == detail
              && (gid.Some? && gid.value !in s.grants ==> r == Failure(Status(404)) && t.grants == s.grants)
              && (gid.Some? && gid.value in s.grants && s.grants[gid.value].decisionId != did ==>
                    r == Failure(Status(400)) && t.grants == s.grants)
              && (gid == None || (gid.value in s.grants && s.grants[gid.value].decisionId == did) ==> r.Success?)
              && (gid == None ==> t.grants == s.grants)
  {
    hide KindOf, BodyText, NextRow, FindDecision;
    var k := FindDecision(s.bodies, did);
    if k < |s.bodies| { assert Decided(s, did); }
  }

  /** Closing a grant that does not exist is a 404; any other close latches its first instant
      and is recorded with its reason and whether it was the first. */
  lemma CloseAnswers(sha: string -> Digest, s: Store, gid: string, reason: string, m: Moment)
    requires !m.fault
    ensures var (t, r) := ServiceCalls.CloseGrant(sha, s, gid, reason, m);
            if gid !in s.grants then t == s && r == Failure(Status(404))
            else
              var g := s.grants[gid];
              && r == Success(CloseReply(g.decisionId, g.closedAt != None))
              && t.bodies == s.bodies + [GrantClose(gid, g.decisionId, reason, g.closedAt != None)]
              && t.grants == s.grants[gid := if g.closedAt != None then g else g.(closedAt := Some(m.stamp))]
  {
    hide KindOf, BodyText, NextRow;
  }

  // ----- governance redemption ------------------------------------------------------

  /** Refused with status 400 exactly without a principal or hashable arguments. */
  lemma GovRefused(sha: string -> Digest, gov: Governance, s: Store, a: GovAsk, m: Moment, m2: Moment)
    ensures RedeemGovernance(sha, gov, s, a, m, m2).1 == Failure(Status(400)) <==>
              a.principal == None || CanonicalArgs(a.args).Failure?
  {
    hide G.Verify, CanonicalArgs, Deny, RedeemVerified;
    if !GovMalformed(a) { GovAnswersOrRaises(sha, gov, s, a, m, m2); }
  }

  lemma GovAnswersOrRaises(sha: string -> Digest, gov: Governance, s: Store, a: GovAsk, m: Moment, m2: Moment)
    requires !GovMalformed(a)
    ensures var r := RedeemGovernance(sha, gov, s, a, m, m2).1;
            r.Failure? ==> r.error.StoreRaised? || r.error.KeyMissing?
  {
    hide G.Verify, CanonicalArgs, AppendBody, GS.ScopeCodes, RowFor, DeniedBody, KindOf, BodyText, NextRow;
    var o := G.Verify(gov.tr, a.grant, gov.root, a.at, None, gov.list);
    if o.Checked? { RefusalSaysWhy(gov.tr, a.grant, gov.root, a.at, None, gov.list); }
  }

  /** The request as the scope check sees it. */
  lemma ScopeOfAsk(gov: Governance, a: GovAsk)
    requires a.principal.Some? && CanonicalArgs(a.args).Success?
    ensures ScopeOf(gov, a) == GS.Request(a.principal.value.id, gov.provider, a.sid, a.name, a.args)
  {
  }

  /** The one word a governance call is answered by: the first objection to the grant, then to
      its scope, then an earlier use; otherwise ok. */
  ghost function AnswerWord(gov: Governance, s: Store, a: GovAsk): string
    requires a.principal.Some?
  {
    var refused := R.GrantReason(gov.tr, a.grant, gov.root, a.at, gov.list);
    var scope := GS.ScopeReason(gov.tr, PayloadIn(a.grant),
                                GS.Request(a.principal.value.id, gov.provider, a.sid, a.name, a.args));
    if refused != "" then refused
    else if scope != "" then scope
    else if D.TextAt(PayloadIn(a.grant), "grant_id") in s.redemptions then "already_redeemed"
    else "ok"
  }

  /** Whenever the call is well-formed, the verifier does not raise and no append fails, that
      word is the answer, and the grant is redeemed exactly when the word is ok. */
  lemma GovAnswers(sha: string -> Digest, gov: Governance, s: Store, a: GovAsk, m: Moment, m2: Moment)
    requires a.principal.Some? && CanonicalArgs(a.args).Success? && !m.fault && !m2.fault
    requires G.Verify(gov.tr, a.grant, gov.root, a.at, None, gov.list).Checked?
    ensures var r := RedeemGovernance(sha, gov, s, a, m, m2).1;
            && r.Success? && r.value.reason == AnswerWord(gov, s, a)
            && (r.value.redeemed <==> AnswerWord(gov, s, a) == "ok")
  {
    hide G.Verify, CanonicalArgs, AppendBody, GS.ScopeCodes, GS.ScopeReason, R.GrantReason, RowFor, DeniedBody, KindOf,
        BodyText, NextRow, G.CodeText, D.TextAt;
    R.FirstReason(gov.tr, a.grant, gov.root, a.at, gov.list);
    RefusalSaysWhy(gov.tr, a.grant, gov.root, a.at, None, gov.list);
    ScopeOfAsk(gov, a);
    GS.FirstScopeCode(gov.tr, PayloadIn(a.grant), ScopeOf(gov, a));
    WordsAreNotOk(gov.tr, a.grant, gov.root, a.at, gov.list);
    ScopeWordsAreNotOk(gov.tr, PayloadIn(a.grant), ScopeOf(gov, a));
  }

  lemma WordsAreNotOk(tr: G.Trust, grant: PyVal, pem: Option<string>, at: string, list: PyVal)
    requires G.Verify(tr, grant, pem, at, None, list).Checked?
    ensures R.GrantReason(tr, grant, pem, at, list) != "ok"
  {
    hide G.Verify, R.GrantReason;
    R.FirstReason(tr, grant, pem, at, list);
    if !G.Verify(tr, grant, pem, at, None, list).v.valid {
      NoCodeIsOk(G.Verify(tr, grant, pem, at, None, list).v.codes[0]);
    }
  }

  lemma ScopeWordsAreNotOk(tr: G.Trust, p: PyVal, r: GS.Request)
    ensures GS.ScopeReason(tr, p, r) != "ok"
  {
    hide GS.ArgumentsMet, GS.ConstraintOn, D.TextAt, D.ItemsAt;
  }

  lemma NoCodeIsOk(c: G.Code)
    ensures G.CodeText(c) != "ok"
  {
  }

  /** The call is bound to the grant it was redeemed under: the grant's own identifier, its
      caller, the provider, the permitted operation, the tool it was written for, its source
      if it names one, and every other constraint. */
  ghost predicate BoundTo(gov: Governance, a: GovAsk) {
    var p := PayloadIn(a.grant);
    && a.principal.Some?
    && R.GrantReason(gov.tr, a.grant, gov.root, a.at, gov.list) == ""
    && D.TextAt(p, "provider_id") == gov.provider
    && D.TextAt(p, "requesting_principal_id") == a.principal.value.id
    && Str("tool.invoke") in D.ItemsAt(p, "permitted_operations")
    && GS.ConstraintOn(p, "tool") == Some(Str(a.name))
    && (GS.ConstraintOn(p, "source") == None || GS.ConstraintOn(p, "source") == Some(Str(a.sid)))
    && GS.ArgumentsMet(gov.tr, p, a.args)
  }

  lemma EarnedIsBound(sha: string -> Digest, gov: Governance, a: GovAsk)
    requires Earned(sha, gov, a)
    ensures BoundTo(gov, a) && CanonicalArgs(a.args).Success?
  {
    hide G.Verify, GS.ScopeCodes, CanonicalArgs, D.TextAt, D.ItemsAt, GS.ConstraintOn, GS.ArgumentsMet, R.GrantReason;
    GS.InScopeByName(gov.tr, PayloadIn(a.grant), ScopeOf(gov, a));
    R.FirstReason(gov.tr, a.grant, gov.root, a.at, gov.list);
  }

  /** A redeemed answer is given only to a call bound to its grant; and to every such call, if
      the grant was not used before and its record can be written. */
  lemma RedeemedIffBound(sha: string -> Digest, gov: Governance, s: Store, a: GovAsk, m: Moment, m2: Moment)
    ensures var r := RedeemGovernance(sha, gov, s, a, m, m2).1;
            && (r.Success? && r.value.redeemed ==> BoundTo(gov, a) && CanonicalArgs(a.args).Success?)
            && (BoundTo(gov, a) && CanonicalArgs(a.args).Success? && !m.fault && !m2.fault
                && G.Verify(gov.tr, a.grant, gov.root, a.at, None, gov.list).Checked?
                && D.TextAt(PayloadIn(a.grant), "grant_id") !in s.redemptions ==>
                  r == Success(GovReply(true, "ok", Some(D.TextAt(PayloadIn(a.grant), "grant_id")), [])))
  {
    hide RedeemGovernance, GovEffect, BoundTo, Earned, G.Verify, AnswerWord, CanonicalArgs, D.TextAt;
    GovRecordsOnce(sha, gov, s, a, m, m2);
    EffectEarned(sha, gov, s, a, m, m2);
    if Earned(sha, gov, a) { EarnedIsBound(sha, gov, a); }
    if BoundTo(gov, a) { BoundHasShape(gov, a); }
    if BoundTo(gov, a) && CanonicalArgs(a.args).Success? && !m.fault && !m2.fault
       && G.Verify(gov.tr, a.grant, gov.root, a.at, None, gov.list).Checked?
       && D.TextAt(PayloadIn(a.grant), "grant_id") !in s.redemptions {
      GovAnswers(sha, gov, s, a, m, m2);
      BoundIsOk(gov, s, a);
      RedeemedReply(sha, gov, s, a, m, m2);
    }
  }

  lemma EffectEarned(sha: string -> Digest, gov: Governance, s: Store, a: GovAsk, m: Moment, m2: Moment)
    requires var (t, r) := RedeemGovernance(sha, gov, s, a, m, m2); GovEffect(sha, gov, s, a, t, r, m.stamp)
    ensures var r := RedeemGovernance(sha, gov, s, a, m, m2).1; r.Success? && r.value.redeemed ==> Earned(sha, gov, a)
  {
    hide RedeemGovernance, Earned, D.TextAt, RowFor;
  }

  lemma BoundIsOk(gov: Governance, s: Store, a: GovAsk)
    requires BoundTo(gov, a) && D.TextAt(PayloadIn(a.grant), "grant_id") !in s.redemptions
    ensures AnswerWord(gov, s, a) == "ok"
  {
    hide D.TextAt, D.ItemsAt, GS.ConstraintOn, GS.ArgumentsMet, R.GrantReason;
  }

  lemma RedeemedReply(sha: string -> Digest, gov: Governance, s: Store, a: GovAsk, m: Moment, m2: Moment)
    requires var r := RedeemGovernance(sha, gov, s, a, m, m2).1; r.Success? && r.value.redeemed
    ensures RedeemGovernance(sha, gov, s, a, m, m2).1
         == Success(GovReply(true, "ok", Some(D.TextAt(PayloadIn(a.grant), "grant_id")), []))
  {
    hide G.Verify, CanonicalArgs, AppendBody, GS.ScopeCodes, RowFor, DeniedBody, KindOf, BodyText, NextRow, D.TextAt;
    RefusalSaysWhy(gov.tr, a.grant, gov.root, a.at, None, gov.list);
  }

  // ----- what a governance call leaves ----------------------------------------------

  /** The text under an optional key, if it is one. */
  function TextIfAny(p: PyVal, key: string): Option<string> {
    var v := D.Field(p, key);
    if v.Some? && v.value.Str? then Some(v.value.s) else None
  }

  /** What every enforcement record says of the call. */
  predicate SaysOfCall(sha: string -> Digest, gov: Governance, a: GovAsk, b: Body)
    requires a.principal.Some? && CanonicalArgs(a.args).Success?
  {
    && b.ProviderEnforcement? && b.providerId == gov.provider && b.principalId == a.principal.value.id
    && b.sourceId == a.sid && b.name == a.name && b.argsHash == sha(CanonicalArgs(a.args).value)
    && b.verificationAt == a.at
  }

  /** And of the grant: what its payload says, or nothing when it is no grant at all. */
  predicate SaysOfGrant(a: GovAsk, b: Body)
    requires b.ProviderEnforcement?
  {
    var p := PayloadIn(a.grant);
    if R.ShapeReason(a.grant) == "" then
      && b.govGrantId == Some(D.TextAt(p, "grant_id")) && b.recordId == Some(D.TextAt(p, "decision_record_id"))
      && b.correlationId == TextIfAny(p, "correlation_id") && b.issuerKeyId == Some(D.TextAt(p, "issuer_key_id"))
    else b.govGrantId == None && b.recordId == None && b.correlationId == None && b.issuerKeyId == None
  }

  lemma VerificationNames(tr: G.Trust, grant: PyVal, pem: Option<string>, at: string, list: PyVal)
    requires G.Verify(tr, grant, pem, at, None, list).Checked?
    ensures var v := G.Verify(tr, grant, pem, at, None, list).v;
            if R.ShapeReason(grant) == "" then
              v.payload == Some(PayloadIn(grant)) && v.issuerKeyId == Some(D.TextAt(PayloadIn(grant), "issuer_key_id"))
            else v.payload == None && v.issuerKeyId == None && !v.valid
  {
    hide G.ShapeCodes, R.ShapeReason, G.SignatureCodes, G.WindowCodes, G.RevocationCodes, D.TextAt;
    R.ShapeGives(grant);
    if G.ShapeCodes(grant) == [] { PayloadThere(grant); } else { R.CodesHaveTexts(G.ShapeCodes(grant)[0]); }
  }

  lemma DeniedSays(sha: string -> Digest, gov: Governance, a: GovAsk, reason: string)
    requires a.principal.Some? && CanonicalArgs(a.args).Success?
    requires G.Verify(gov.tr, a.grant, gov.root, a.at, None, gov.list).Checked?
    ensures var v := G.Verify(gov.tr, a.grant, gov.root, a.at, None, gov.list).v;
            var b := DeniedBody(sha, gov, a, v, reason);
            && SaysOfCall(sha, gov, a, b) && SaysOfGrant(a, b)
            && b.outcome == "denied:" + reason && b.redeemedAt == None && (b.verified <==> v.valid)
  {
    hide G.Verify, CanonicalArgs, D.TextAt, R.ShapeReason, CodeTexts;
    VerificationNames(gov.tr, a.grant, gov.root, a.at, gov.list);
  }

  /** The row and the record of a redeemed grant, field by field. */
  lemma RedeemedSays(sha: string -> Digest, gov: Governance, a: GovAsk, stamp: Stamp)
    requires a.principal.Some? && CanonicalArgs(a.args).Success? && R.ShapeReason(a.grant) == ""
    ensures var p := PayloadIn(a.grant);
            var row := RowFor(sha, gov, a, p, stamp);
            var b := ClaimBody(D.TextAt(p, "grant_id"), row);
            && row.recordId == D.TextAt(p, "decision_record_id")
            && row.correlationId == TextIfAny(p, "correlation_id")
            && row.issuerKeyId == D.TextAt(p, "issuer_key_id")
            && row.providerId == gov.provider && row.principalId == a.principal.value.id
            && row.sourceId == a.sid && row.name == a.name && row.argsHash == sha(CanonicalArgs(a.args).value)
            && row.verificationAt == a.at && row.redeemedAt == stamp
            && SaysOfCall(sha, gov, a, b) && SaysOfGrant(a, b)
            && b.outcome == "redeemed" && b.redeemedAt == Some(stamp) && b.verified && b.failureCodes == []
  {
    hide CanonicalArgs, D.TextAt, R.ShapeReason;
  }

  /** A completed call adds one enforcement record about this call and this grant; it says
      redeemed and when, or denied with the reason answered. */
  ghost predicate RecordedSo(sha: string -> Digest, gov: Governance, s: Store, a: GovAsk, t: Store, r: GovReply,
                             stamp: Stamp)
    requires a.principal.Some? && CanonicalArgs(a.args).Success?
  {
    && |t.bodies| == |s.bodies| + 1 && t.bodies[..|s.bodies|] == s.bodies
    && var b := t.bodies[|s.bodies|];
       && SaysOfCall(sha, gov, a, b) && SaysOfGrant(a, b)
       && b.outcome == (if r.redeemed then "redeemed" else "denied:" + r.reason)
       && b.redeemedAt == (if r.redeemed then Some(stamp) else None)
       && (b.verified <==> R.GrantReason(gov.tr, a.grant, gov.root, a.at, gov.list) == "")
  }

  lemma GovRecordSays(sha: string -> Digest, gov: Governance, s: Store, a: GovAsk, m: Moment, m2: Moment)
    requires RedeemGovernance(sha, gov, s, a, m, m2).1.Success?
    ensures a.principal.Some? && CanonicalArgs(a.args).Success?
    ensures var (t, r) := RedeemGovernance(sha, gov, s, a, m, m2); RecordedSo(sha, gov, s, a, t, r.value, m.stamp)
  {
    hide G.Verify, CanonicalArgs, GS.ScopeCodes, RowFor, DeniedBody, D.TextAt, R.GrantReason, RecordedSo, Claim, Deny;
    var o := G.Verify(gov.tr, a.grant, gov.root, a.at, None, gov.list);
    R.FirstReason(gov.tr, a.grant, gov.root, a.at, gov.list);
    RefusalSaysWhy(gov.tr, a.grant, gov.root, a.at, None, gov.list);
    if !o.v.valid {
      DenyRecorded(sha, gov, s, a, G.CodeText(o.v.codes[0]), m, m.stamp);
    } else {
      var p := o.v.payload.value;
      var scope := GS.ScopeCodes(gov.tr, p, ScopeOf(gov, a));
      if scope != [] {
        DenyRecorded(sha, gov, s, a, G.CodeText(scope[0]), m, m.stamp);
      } else {
        ClaimRecorded(sha, gov, s, a, m);
        ClaimAnswers(sha, s, D.TextAt(p, "grant_id"), RowFor(sha, gov, a, p, m.stamp), m);
        if D.TextAt(p, "grant_id") in s.redemptions {
          DenyRecorded(sha, gov, s, a, "already_redeemed", m2, m.stamp);
        }
      }
    }
  }

  lemma ClaimAnswers(sha: string -> Digest, s: Store, gid: string, row: Redemption, m: Moment)
    ensures gid in s.redemptions ==> Claim(sha, s, gid, row, m) == (s, Success(false))
    ensures gid !in s.redemptions ==>
              Claim(sha, s, gid, row, m).1 == if m.fault then Failure(AppendFailed) else Success(true)
  {
    hide KindOf, BodyText, NextRow;
  }

  lemma DenyRecorded(sha: string -> Digest, gov: Governance, s: Store, a: GovAsk, reason: string, m: Moment,
                     stamp: Stamp)
    requires a.principal.Some? && CanonicalArgs(a.args).Success?
    requires G.Verify(gov.tr, a.grant, gov.root, a.at, None, gov.list).Checked?
    ensures var v := G.Verify(gov.tr, a.grant, gov.root, a.at, None, gov.list).v;
            var (t, r) := Deny(sha, gov, s, a, v, reason, m);
            r.Success? ==> RecordedSo(sha, gov, s, a, t, r.value, stamp)
  {
    hide G.Verify, CanonicalArgs, DeniedBody, R.GrantReason, SaysOfCall, SaysOfGrant, KindOf, BodyText, NextRow;
    R.FirstReason(gov.tr, a.grant, gov.root, a.at, gov.list);
    DeniedSays(sha, gov, a, reason);
  }

  lemma ClaimRecorded(sha: string -> Digest, gov: Governance, s: Store, a: GovAsk, m: Moment)
    requires a.principal.Some? && CanonicalArgs(a.args).Success?
    requires G.Verify(gov.tr, a.grant, gov.root, a.at, None, gov.list).Checked?
    requires G.Verify(gov.tr, a.grant, gov.root, a.at, None, gov.list).v.valid
    ensures var p := PayloadIn(a.grant);
            var gid := D.TextAt(p, "grant_id");
            var (t, r) := Claim(sha, s, gid, RowFor(sha, gov, a, p, m.stamp), m);
            r == Success(true) ==> RecordedSo(sha, gov, s, a, t, GovReply(true, "ok", Some(gid), []), m.stamp)
    ensures GrantIdOf(G.Verify(gov.tr, a.grant, gov.root, a.at, None, gov.list).v)
         == Some(D.TextAt(PayloadIn(a.grant), "grant_id"))
  {
    hide G.Verify, CanonicalArgs, RowFor, R.GrantReason, R.ShapeReason, SaysOfCall, SaysOfGrant, KindOf, BodyText,
        NextRow, ClaimBody, D.TextAt;
    R.FirstReason(gov.tr, a.grant, gov.root, a.at, gov.list);
    VerificationNames(gov.tr, a.grant, gov.root, a.at, gov.list);
    RedeemedSays(sha, gov, a, m.stamp);
    StampedAlready(sha, gov, a, m.stamp);
  }

  lemma StampedAlready(sha: string -> Digest, gov: Governance, a: GovAsk, stamp: Stamp)
    requires !GovMalformed(a)
    ensures var row := RowFor(sha, gov, a, PayloadIn(a.grant), stamp); row.(redeemedAt := stamp) == row
  {
  }

  /** The row of a redemption and the call that earned it, field by field. */
  ghost predicate RowOf(sha: string -> Digest, call: Call, gid: string, row: Redemption) {
    && call.GovCall? && BoundTo(call.gov, call.gask) && CanonicalArgs(call.gask.args).Success?
    && var a, p := call.gask, PayloadIn(call.gask.grant);
       && gid == D.TextAt(p, "grant_id")
       && row.recordId == D.TextAt(p, "decision_record_id") && row.correlationId == TextIfAny(p, "correlation_id")
       && row.issuerKeyId == D.TextAt(p, "issuer_key_id")
       && row.providerId == call.gov.provider && row.principalId == a.principal.value.id
       && row.sourceId == a.sid && row.name == a.name && row.argsHash == sha(CanonicalArgs(a.args).value)
       && row.verificationAt == a.at && row.redeemedAt == call.m.stamp
  }

  /** Every row of every run was written for a call bound to that grant, and says so. */
  lemma RowsAreBound(sha: string -> Digest, calls: seq<Call>, gid: string)
    ensures var rows := ServeAll(sha, EMPTY_STORE, calls).redemptions;
            gid in rows ==> exists i :: 0 <= i < |calls| && RowOf(sha, calls[i], gid, rows[gid])
  {
    hide ServeAll, EarnedBy, RowOf, EarnedRow, Enforcements, Completed, TimesRedeemed, Claims;
    GovernanceConserved(sha, calls, gid);
    var rows := ServeAll(sha, EMPTY_STORE, calls).redemptions;
    if gid in rows { EarnedOf(sha, calls, gid, rows[gid]); }
  }

  lemma EarnedOf(sha: string -> Digest, calls: seq<Call>, gid: string, row: Redemption)
    requires EarnedRow(sha, calls, gid, row)
    ensures exists i :: 0 <= i < |calls| && RowOf(sha, calls[i], gid, row)
  {
    hide EarnedBy, RowOf;
    var i :| 0 <= i < |calls| && EarnedBy(sha, calls[i], gid, row);
    EarnedRowOf(sha, calls[i], gid, row);
  }

  lemma EarnedRowOf(sha: string -> Digest, call: Call, gid: string, row: Redemption)
    requires EarnedBy(sha, call, gid, row)
    ensures RowOf(sha, call, gid, row)
  {
    hide Earned, BoundTo, CanonicalArgs, D.TextAt, R.ShapeReason, R.GrantReason;
    EarnedIsBound(sha, call.gov, call.gask);
    BoundHasShape(call.gov, call.gask);
    RedeemedSays(sha, call.gov, call.gask, call.m.stamp);
  }

  lemma BoundHasShape(gov: Governance, a: GovAsk)
    requires BoundTo(gov, a)
    ensures R.ShapeReason(a.grant) == "" && a.principal.Some?
  {
    hide R.ShapeReason, D.TextAt, D.ItemsAt, GS.ConstraintOn, GS.ArgumentsMet;
  }
}
