/** Runs of service calls (service.py): every call is a run of ledger operations, a grant is
    used once and only for the arguments it was issued for, and every governance redemption
    is accounted for. */
module ServiceRuns {
  import opened Wrappers
  import opened CanonicalJson
  import opened AuditChain
  import opened AuditBody
  import opened Ledger
  import opened ToolCatalog
  import opened Policy
  import opened ServiceCalls
  import opened GovAcceptance
  import G = GovGrants
  import D = Documents
  import GS = GovScope

  // ----- reaching one store from another --------------------------------------------

  /** `t` is what some run of store operations makes of `s`. */
  ghost predicate Reaches(sha: string -> Digest, s: Store, t: Store) {
    exists ops :: AllCallable(ops) && Run(sha, s, ops) == t
  }

  lemma {:induction false} RunConcat(sha: string -> Digest, s: Store, a: seq<Op>, b: seq<Op>)
    requires AllCallable(a) && AllCallable(b)
    ensures AllCallable(a + b) && Run(sha, s, a + b) == Run(sha, Run(sha, s, a), b)
    decreases |a|
  {
    hide Apply, Callable;
    if a == [] {
      assert a + b == b;
    } else {
      RunConcat(sha, Apply(sha, s, a[0]), a[1..], b);
      assert (a + b)[1..] == a[1..] + b;
      assert (a + b)[0] == a[0];
    }
  }

  lemma ReachesSelf(sha: string -> Digest, s: Store)
    ensures Reaches(sha, s, s)
  {
    assert Run(sha, s, []) == s && AllCallable([]);
  }

  lemma ReachesOne(sha: string -> Digest, s: Store, op: Op)
    requires Callable(op)
    ensures Reaches(sha, s, Apply(sha, s, op))
  {
    assert AllCallable([op]);
    assert Run(sha, s, [op]) == Apply(sha, s, op);
  }

  lemma ReachesOn(sha: string -> Digest, s: Store, t: Store, u: Store)
    requires Reaches(sha, s, t) && Reaches(sha, t, u)
    ensures Reaches(sha, s, u)
  {
    var a :| AllCallable(a) && Run(sha, s, a) == t;
    var b :| AllCallable(b) && Run(sha, t, b) == u;
    RunConcat(sha, s, a, b);
  }

  lemma ReachesKeeps(sha: string -> Digest, s: Store, t: Store)
    requires Reaches(sha, s, t)
    ensures Evolves(s, t)
    ensures Invariant(sha, s) ==> Invariant(sha, t)
  {
    var ops :| AllCallable(ops) && Run(sha, s, ops) == t;
    RunEvolves(sha, s, ops);
    if Invariant(sha, s) { RunKeeps(sha, s, ops); }
  }

  // ----- every call is a run --------------------------------------------------------

  datatype Call =
    | AuthorizeCall(pdp: Pdp, cat: State, ask: Ask, draw: Draw, m: Moment, m2: Moment)
    | RedeemCall(cat: State, gid: string, principal: Option<Principal>, args: PyVal, m: Moment, m2: Moment)
    | OutcomeCall(decisionId: string, outcome: string, detail: string, of: Option<string>, m: Moment, m2: Moment)
    | CloseCall(gid: string, reason: string, m: Moment)
    | GovCall(gov: Governance, gask: GovAsk, m: Moment, m2: Moment)

  /** One call, with the catalog in memory when it is made. */
  function Serve(sha: string -> Digest, s: Store, call: Call): Store {
    match call
    case AuthorizeCall(pdp, c, a, d, m, m2) => Authorize(sha, pdp, s, c, a, d, m, m2).0
    case RedeemCall(c, gid, p, args, m, m2) => RedeemGrant(sha, s, c, gid, p, args, m, m2).0
    case OutcomeCall(did, outcome, detail, gid, m, m2) => RecordOutcome(sha, s, did, outcome, detail, gid, m, m2).0
    case CloseCall(gid, reason, m) => ServiceCalls.CloseGrant(sha, s, gid, reason, m).0
    case GovCall(gov, a, m, m2) => RedeemGovernance(sha, gov, s, a, m, m2).0
  }

  function ServeAll(sha: string -> Digest, s: Store, calls: seq<Call>): Store {
    if calls == [] then s
    else Serve(sha, ServeAll(sha, s, calls[..|calls| - 1]), calls[|calls| - 1])
  }

  lemma AuthorizeReaches(sha: string -> Digest, pdp: Pdp, s: Store, c: State, a: Ask, d: Draw, m: Moment, m2: Moment)
    ensures Reaches(sha, s, Authorize(sha, pdp, s, c, a, d, m, m2).0)
  {
    hide Reaches, AppendBody, Issue, BrokerVerdict, CanonicalArgs, TtlOf, GrantFor, KindOf, BodyText;
    ReachesSelf(sha, s);
    if !Malformed(a) {
      var v := VerdictOn(pdp, c, a);
      var b := DecisionBody(d.decisionId, a.principal.value, a.sid, a.name, v);
      var s1 := AppendAudit(sha, s, b, m).0;
      ReachesOne(sha, s, AppendOp(b, m));
      if !m.fault && a.args.Some? && v.allowed {
        var g := GrantFor(sha, a, d);
        FreshGrant(sha, a, d);
        ReachesOne(sha, s1, IssueOp(d.grantId, g, Some(TtlOf(a.ttl).value), m2));
        ReachesOn(sha, s, s1, Issue(sha, s1, d.grantId, g, Some(TtlOf(a.ttl).value), m2).0);
      }
    }
  }

  lemma FreshGrant(sha: string -> Digest, a: Ask, d: Draw)
    requires !Malformed(a) && a.args.Some?
    ensures Fresh(GrantFor(sha, a, d))
  {
  }

  lemma RedeemReaches(sha: string -> Digest, s: Store, c: State, gid: string, principal: Option<Principal>,
                      args: PyVal, m: Moment, m2: Moment)
    ensures Reaches(sha, s, RedeemGrant(sha, s, c, gid, principal, args, m, m2).0)
  {
    hide Reaches, Redeem, AppendBody, CanonicalArgs, KindOf, BodyText;
    ReachesSelf(sha, s);
    if gid != "" && principal.Some? && CanonicalArgs(args).Success? {
      var p, check := principal.value, Some(InvocableSet(c));
      var (s1, r) := Redeem(sha, s, gid, ArgsHash(sha, args).value, p.id, check, m);
      ReachesOne(sha, s, RedeemOp(gid, ArgsHash(sha, args).value, p.id, check, m));
      if r.Success? && r.value.reason != Ok {
        var b := GrantRedeemDenied(gid, r.value.decisionId, p.id, ReasonText(r.value.reason));
        ReachesOne(sha, s1, AppendOp(b, m2));
        ReachesOn(sha, s, s1, AppendAudit(sha, s1, b, m2).0);
      }
    }
  }

  lemma OutcomeReaches(sha: string -> Digest, s: Store, did: string, outcome: string, detail: string,
                       gid: Option<string>, m: Moment, m2: Moment)
    ensures Reaches(sha, s, RecordOutcome(sha, s, did, outcome, detail, gid, m, m2).0)
  {
    hide Reaches, Close, AppendBody, FindDecision, KindOf, BodyText;
    ReachesSelf(sha, s);
    var k := FindDecision(s.bodies, did);
    if did != "" && k < |s.bodies| && k < |s.log.rows| {
      var b := Outcome(did, s.log.rows[k].seqNo, outcome, detail);
      var s1 := AppendAudit(sha, s, b, m).0;
      ReachesOne(sha, s, AppendOp(b, m));
      if gid.Some? {
        ReachesOne(sha, s1, CloseOp(gid.value, "outcome_reported", m2));
        ReachesOn(sha, s, s1, Close(sha, s1, gid.value, "outcome_reported", m2).0);
      }
    }
  }

  lemma DenyReaches(sha: string -> Digest, gov: Governance, s: Store, a: GovAsk, v: G.Verification, reason: string,
                    m: Moment)
    requires !GovMalformed(a)
    ensures Reaches(sha, s, Deny(sha, gov, s, a, v, reason, m).0)
  {
    hide Reaches, AppendBody, KindOf, BodyText;
    var b := DeniedBody(sha, gov, a, v, reason);
    assert b.outcome[0] == 'd';
    ReachesOne(sha, s, AppendOp(b, m));
  }

  lemma GovReaches(sha: string -> Digest, gov: Governance, s: Store, a: GovAsk, m: Moment, m2: Moment)
    ensures Reaches(sha, s, RedeemGovernance(sha, gov, s, a, m, m2).0)
  {
    hide Reaches, Claim, Deny, CanonicalArgs, RowFor;
    ReachesSelf(sha, s);
    if !GovMalformed(a) {
      var o := G.Verify(gov.tr, a.grant, gov.root, a.at, None, gov.list);
      if o.Checked? {
        RefusalSaysWhy(gov.tr, a.grant, gov.root, a.at, None, gov.list);
        if !o.v.valid {
          DenyReaches(sha, gov, s, a, o.v, G.CodeText(o.v.codes[0]), m);
        } else {
          VerifiedReaches(sha, gov, s, a, o.v, m, m2);
        }
      }
    }
  }

  lemma VerifiedReaches(sha: string -> Digest, gov: Governance, s: Store, a: GovAsk, v: G.Verification, m: Moment,
                        m2: Moment)
    requires !GovMalformed(a) && v.payload.Some?
    ensures Reaches(sha, s, RedeemVerified(sha, gov, s, a, v, m, m2).0)
  {
    hide Reaches, Claim, Deny, CanonicalArgs, RowFor;
    var p := v.payload.value;
    var scope := GS.ScopeCodes(gov.tr, p, ScopeOf(gov, a));
    if scope != [] {
      DenyReaches(sha, gov, s, a, v, G.CodeText(scope[0]), m);
    } else {
      var gid, row := D.TextAt(p, "grant_id"), RowFor(sha, gov, a, p, m.stamp);
      var s1 := Claim(sha, s, gid, row, m).0;
      ReachesOne(sha, s, ClaimOp(gid, row, m));
      DenyReaches(sha, gov, s1, a, v, "already_redeemed", m2);
      ReachesOn(sha, s, s1, Deny(sha, gov, s1, a, v, "already_redeemed", m2).0);
    }
  }

  lemma ServeReaches(sha: string -> Digest, s: Store, call: Call)
    ensures Reaches(sha, s, Serve(sha, s, call))
  {
    hide Reaches;
    match call
    case AuthorizeCall(pdp, c, a, d, m, m2) => AuthorizeReaches(sha, pdp, s, c, a, d, m, m2);
    case RedeemCall(c, gid, p, args, m, m2) => RedeemReaches(sha, s, c, gid, p, args, m, m2);
    case OutcomeCall(did, outcome, detail, gid, m, m2) => OutcomeReaches(sha, s, did, outcome, detail, gid, m, m2);
    case CloseCall(gid, reason, m) => ReachesOne(sha, s, CloseOp(gid, reason, m));
    case GovCall(gov, a, m, m2) => GovReaches(sha, gov, s, a, m, m2);
  }

  /** Whatever the service is asked, in any order and with any append failing, its store is
      one that a run of ledger operations makes: the ledger invariant holds, nothing recorded
      is lost, and the chain verifies. */
  lemma {:induction false} ServiceKeepsLedger(sha: string -> Digest, s: Store, calls: seq<Call>)
    ensures Reaches(sha, s, ServeAll(sha, s, calls))
    ensures Evolves(s, ServeAll(sha, s, calls))
    ensures Invariant(sha, s) ==> Invariant(sha, ServeAll(sha, s, calls))
  {
    hide Reaches, Serve, Invariant, Evolves;
    if calls == [] {
      ReachesSelf(sha, s);
    } else {
      var front := ServeAll(sha, s, calls[..|calls| - 1]);
      ServiceKeepsLedger(sha, s, calls[..|calls| - 1]);
      ServeReaches(sha, front, calls[|calls| - 1]);
      ReachesOn(sha, s, front, ServeAll(sha, s, calls));
    }
    ReachesKeeps(sha, s, ServeAll(sha, s, calls));
  }
}
