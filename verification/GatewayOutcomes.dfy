/** What a forwarded call leaves in the store: its outcome, and a grant that is closed. */
module GatewayOutcomes {
  import opened Wrappers
  import opened CanonicalJson
  import opened AuditChain
  import opened AuditBody
  import opened Ledger
  import opened ServiceCalls
  import opened ServiceRuns
  import opened GatewaySession
  import opened GatewaySafety
  import opened GatewayForwarding
  import L = ToolListing
  import SR = ServiceResults

  /** The store the outcome is reported to: after the redemption, and what others did during
      the call. */
  function Awaiting(g: Config, s: Session, name: string, args: PyVal, ch: Choice): Store
    requires Possible(ch)
  {
    var s1 := Asked(g, s, name, args, ch).0;
    Run(g.sha, RedeemGrant(g.sha, Run(g.sha, s1, ch.between), ch.later, ch.draw.grantId, g.principal, args,
                           ch.redeemed, ch.refused).0, ch.after)
  }

  /** What reporting the outcome adds to `u`: nothing when its append fails (or the decision has
      no id); else one outcome
      record, pointing back at its decision; and, unless that append fails, one close record
      with the grant closed. */
  predicate Settled(u: Store, t: Store, did: string, gid: string, outcome: string, ch: Choice) {
    if did == "" || ch.recorded.fault then t == u
    else
      && SR.PointsBack(u, t, did, outcome) && t.bodies[|u.bodies|].detail == ch.detail
      && (ch.closed.fault ==> |t.bodies| == |u.bodies| + 1 && t.grants == u.grants)
      && (!ch.closed.fault ==>
            && SR.ClosedUnder(t, gid, did) && |t.bodies| == |u.bodies| + 2
            && gid in u.grants
            && t.bodies[|u.bodies| + 1] == GrantClose(gid, did, "outcome_reported", u.grants[gid].closedAt.Some?)
            && t.grants == u.grants[gid := t.grants[gid]])
  }

  /** The decision is on record and the grant is filed under it. */
  ghost predicate Filed(u: Store, did: string, gid: string) {
    && gid in u.grants && u.grants[gid].decisionId == did
    && exists i :: 0 <= i < |u.bodies| && u.bodies[i].Decision? && u.bodies[i].decisionId == did
  }

  lemma FiledKept(s: Store, t: Store, did: string, gid: string)
    requires Filed(s, did, gid) && Evolves(s, t)
    ensures Filed(t, did, gid)
  {
    var i :| 0 <= i < |s.bodies| && s.bodies[i].Decision? && s.bodies[i].decisionId == did;
    assert t.bodies[i] == s.bodies[i];
  }

  lemma AskedIsFiled(g: Config, s: Session, name: string, args: PyVal, ch: Choice)
    requires Possible(ch) && EndOf(g, s, name, args, ch).Sent?
    ensures var (s1, r) := Asked(g, s, name, args, ch);
            && r.Success? && r.value.decisionId == ch.draw.decisionId
            && r.value.grant.Some? && r.value.grant.value.grantId == ch.draw.grantId
            && Filed(s1, ch.draw.decisionId, ch.draw.grantId)
  {
    hide Authorize, Run, Presented, SpendEnd, Offered, Malformed, VerdictOn, GrantFor;
    var ask, before := AskFor(g, name, args), Run(g.sha, s.store, ch.before);
    SR.AuthorizeLeaves(g.sha, g.pdp, before, ch.cat, ask, ch.draw, ch.decided, ch.issued);
    AuthorizedEvidence(g.sha, g.pdp, before, ch.cat, ask, ch.draw, ch.decided, ch.issued);
    DecidedIsFiled(Asked(g, s, name, args, ch).0, ch.draw.decisionId, ch.draw.grantId);
  }

  lemma DecidedIsFiled(s: Store, did: string, gid: string)
    requires gid in s.grants && s.grants[gid].decisionId == did
    requires DecidedBefore(s.bodies, |s.bodies|, s.grants[gid])
    ensures Filed(s, did, gid)
  {
  }

  lemma StillFiled(g: Config, s: Session, name: string, args: PyVal, ch: Choice)
    requires Possible(ch) && EndOf(g, s, name, args, ch).Sent?
    ensures Filed(Awaiting(g, s, name, args, ch), ch.draw.decisionId, ch.draw.grantId)
    ensures Invariant(g.sha, s.store) ==> Invariant(g.sha, Awaiting(g, s, name, args, ch))
  {
    hide Authorize, Run, RedeemGrant, Filed, Evolves, Invariant, EndOf;
    var before, s1 := Run(g.sha, s.store, ch.before), Asked(g, s, name, args, ch).0;
    var between := Run(g.sha, s1, ch.between);
    var s2 := RedeemGrant(g.sha, between, ch.later, ch.draw.grantId, g.principal, args, ch.redeemed, ch.refused).0;
    AskedIsFiled(g, s, name, args, ch);
    RunOn(g.sha, s.store, ch.before);
    AuthorizeReaches(g.sha, g.pdp, before, ch.cat, AskFor(g, name, args), ch.draw, ch.decided, ch.issued);
    RunOn(g.sha, s1, ch.between);
    RedeemReaches(g.sha, between, ch.later, ch.draw.grantId, g.principal, args, ch.redeemed, ch.refused);
    RunOn(g.sha, s2, ch.after);
    ReachesKeeps(g.sha, s.store, before);
    ReachesKeeps(g.sha, before, s1);
    ReachesKeeps(g.sha, s1, between);
    ReachesKeeps(g.sha, between, s2);
    ReachesKeeps(g.sha, s2, Awaiting(g, s, name, args, ch));
    FiledKept(s1, between, ch.draw.decisionId, ch.draw.grantId);
    FiledKept(between, s2, ch.draw.decisionId, ch.draw.grantId);
    FiledKept(s2, Awaiting(g, s, name, args, ch), ch.draw.decisionId, ch.draw.grantId);
  }

  lemma RunOn(sha: string -> Digest, s: Store, ops: seq<Op>)
    requires AllCallable(ops)
    ensures Reaches(sha, s, Run(sha, s, ops))
  {
  }

  /** Reported against its own decision and grant, an outcome is refused by nothing but a
      failing append. */
  lemma OutcomeSettles(sha: string -> Digest, u: Store, did: string, gid: string, outcome: string, ch: Choice)
    requires Invariant(sha, u) && Filed(u, did, gid)
    ensures Settled(u, RecordOutcome(sha, u, did, outcome, ch.detail, Some(gid), ch.recorded, ch.closed).0, did, gid,
                    outcome, ch)
  {
    hide KindOf, BodyText, NextRow, FindDecision, TrailsFit, ClaimsFit, BodiesAgree, Verifies, CleanRow;
    var k := FindDecision(u.bodies, did);
    assert k < |u.bodies|;
    assert u.log.rows[k].seqNo == k + 1;
  }

  /** The store at the end of a sent call is what reporting its outcome makes of `Awaiting`. */
  lemma SentEndsWithItsOutcome(g: Config, s: Session, id: PyVal, name: string, args: PyVal, ch: Choice)
    requires Possible(ch) && EndOf(g, s, name, args, ch).Sent?
    ensures var t := Governed(g, s, id, name, args, ch);
            && t.store == RecordOutcome(g.sha, Awaiting(g, s, name, args, ch), ch.draw.decisionId,
                                        if Offered(ch).reply.Transport? then "error" else "executed", ch.detail,
                                        Some(ch.draw.grantId), ch.recorded, ch.closed).0
            && t.out == s.out + [Reported(id, Offered(ch).reply)]
  {
    hide Authorize, Run, RedeemGrant, RecordOutcome, L.FramesOf, CallParams, Reported, Offered, Filed;
    AskedIsFiled(g, s, name, args, ch);
  }

  /** Every call that is sent, whatever the downstream makes of it and whoever shares the
      store: its outcome ("error" exactly for a transport fault) is recorded once, pointing at
      its decision, unless that very append fails; its grant is then closed, with its record,
      unless that one fails; nothing else is added; and the client gets the reply either way. */
  lemma SentCallsAreSettled(g: Config, s: Session, id: PyVal, name: string, args: PyVal, ch: Choice)
    requires Possible(ch) && Invariant(g.sha, s.store)
    requires EndOf(g, s, name, args, ch).Sent?
    ensures var t := Governed(g, s, id, name, args, ch);
            && Settled(Awaiting(g, s, name, args, ch), t.store, ch.draw.decisionId, ch.draw.grantId,
                       if Offered(ch).reply.Transport? then "error" else "executed", ch)
            && t.out == s.out + [Reported(id, Offered(ch).reply)]
  {
    hide Awaiting, Settled, Governed, EndOf, Invariant, Filed, Reported, Offered;
    StillFiled(g, s, name, args, ch);
    SentEndsWithItsOutcome(g, s, id, name, args, ch);
    OutcomeSettles(g.sha, Awaiting(g, s, name, args, ch), ch.draw.decisionId, ch.draw.grantId,
                   if Offered(ch).reply.Transport? then "error" else "executed", ch);
  }
}
