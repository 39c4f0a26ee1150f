/** Whole-session safety of the gateway: every tool call that reaches the downstream was
    decided, bound and redeemed, and nothing else gets there as a tool call. */
module GatewaySafety {
  import opened Wrappers
  import opened CanonicalJson
  import opened AuditChain
  import opened AuditBody
  import opened Ledger
  import opened ToolCatalog
  import opened Policy
  import opened ServiceCalls
  import opened ServiceRuns
  import opened GatewaySession
  import SR = ServiceResults
  import L = ToolListing
  import F = Framing
  import CA = ConcurrentAuthorize
  import D = Documents

  predicate IsToolCall(f: F.Frame) { (f.Request? || f.Notify?) && f.method_ == "tools/call" }

  predicate NoToolCalls(fs: seq<F.Frame>) { forall i :: 0 <= i < |fs| ==> !IsToolCall(fs[i]) }

  ghost predicate DecidedBefore(bs: seq<Body>, n: nat, gr: Grant) {
    exists d :: 0 <= d < n && d < |bs| && CA.Backs(bs[d], gr)
  }

  /** A forwarded call with its evidence: the frame carries these arguments; the audit record
      is the redemption of a grant for this source, tool and principal, bound to the hash of
      the arguments; an allowed decision for the same was recorded earlier; and the tool was
      invocable when it was redeemed. */
  ghost predicate Governs(g: Config, store: Store, sent: seq<F.Frame>, f: Forward) {
    && f.frame < |sent| && sent[f.frame].Request?
    && sent[f.frame].method_ == "tools/call" && sent[f.frame].params == CallParams(f.name, f.args)
    && f.record < |store.bodies| && f.grantId in store.grants && g.principal.Some?
    && var gr := store.grants[f.grantId];
       && store.bodies[f.record] == GrantRedeem(f.grantId, gr.decisionId, g.principal.value.id, g.sid, f.name)
       && gr.principalId == g.principal.value.id && gr.sourceId == g.sid && gr.name == f.name
       && CanonicalArgs(f.args).Success? && gr.argsHash == g.sha(CanonicalArgs(f.args).value)
       && DecidedBefore(store.bodies, f.record, gr)
       && Invocable(f.cat, g.sid, f.name)
  }

  /** Frames and records pair up in order, so no record answers for two calls. */
  ghost predicate InOrder(fs: seq<Forward>) {
    forall i, j :: 0 <= i < j < |fs| ==> fs[i].frame < fs[j].frame && fs[i].record < fs[j].record
  }

  ghost predicate Accounted(sent: seq<F.Frame>, fs: seq<Forward>) {
    forall k :: 0 <= k < |sent| && IsToolCall(sent[k]) ==> exists i :: 0 <= i < |fs| && fs[i].frame == k
  }

  ghost predicate Safe(g: Config, s: Session) {
    && (forall i :: 0 <= i < |s.forwards| ==> Governs(g, s.store, s.sent, s.forwards[i]))
    && InOrder(s.forwards)
    && Accounted(s.sent, s.forwards)
  }

  // ----- what keeps a session safe --------------------------------------------------

  lemma BacksKept(b: Body, x: Grant, y: Grant)
    requires CA.Backs(b, x) && SameIdentity(x, y)
    ensures CA.Backs(b, y)
  {
  }

  lemma GovernsKept(g: Config, s: Store, t: Store, sent: seq<F.Frame>, sent': seq<F.Frame>, f: Forward)
    requires Governs(g, s, sent, f) && Evolves(s, t) && sent <= sent'
    ensures Governs(g, t, sent', f)
  {
    hide Invocable, CanonicalArgs, CallParams;
    var x, y := s.grants[f.grantId], t.grants[f.grantId];
    var d :| 0 <= d < f.record && d < |s.bodies| && CA.Backs(s.bodies[d], x);
    BacksKept(s.bodies[d], x, y);
    assert t.bodies[d] == s.bodies[d] && t.bodies[f.record] == s.bodies[f.record];
    assert sent'[f.frame] == sent[f.frame];
  }

  /** Frames that are no tool calls, and a store that only grew. */
  lemma QuietStep(g: Config, s: Session, t: Session, fs: seq<F.Frame>)
    requires Safe(g, s) && Evolves(s.store, t.store) && t.sent == s.sent + fs && NoToolCalls(fs)
        && t.forwards == s.forwards
    ensures Safe(g, t)
  {
    hide Governs, Evolves, IsToolCall;
    forall i | 0 <= i < |t.forwards| ensures Governs(g, t.store, t.sent, t.forwards[i]) {
      GovernsKept(g, s.store, t.store, s.sent, t.sent, t.forwards[i]);
    }
    forall k | |s.sent| <= k < |t.sent| ensures !IsToolCall(t.sent[k]) { assert t.sent[k] == fs[k - |s.sent|]; }
  }

  lemma AllKept(g: Config, s: Session, t: Session)
    requires Safe(g, s) && Evolves(s.store, t.store) && s.sent <= t.sent
    ensures forall i :: 0 <= i < |s.forwards| ==> Governs(g, t.store, t.sent, s.forwards[i])
    ensures forall i :: 0 <= i < |s.forwards| ==>
        s.forwards[i].frame < |s.sent| && s.forwards[i].record < |s.store.bodies|
  {
    hide Evolves, Invocable, CanonicalArgs, CallParams, DecidedBefore;
    forall i | 0 <= i < |s.forwards| ensures Governs(g, t.store, t.sent, s.forwards[i]) {
      GovernsKept(g, s.store, t.store, s.sent, t.sent, s.forwards[i]);
    }
  }

  lemma StillAccounted(sent: seq<F.Frame>, hops: seq<Forward>, fs: seq<F.Frame>, f: Forward)
    requires Accounted(sent, hops) && fs != [] && NoToolCalls(fs[1..]) && f.frame == |sent|
    ensures Accounted(sent + fs, hops + [f])
  {
    hide IsToolCall;
    var all := sent + fs;
    forall k | |sent| < k < |all| ensures !IsToolCall(all[k]) { assert all[k] == fs[1..][k - |sent| - 1]; }
    forall k | 0 <= k < |all| && IsToolCall(all[k]) ensures exists i :: 0 <= i <= |hops| && (hops + [f])[i].frame == k {
      if k == |sent| {
        assert (hops + [f])[|hops|].frame == k;
      } else {
        var i :| 0 <= i < |hops| && hops[i].frame == k;
        assert (hops + [f])[i].frame == k;
      }
    }
  }

  /** One more governed call, recorded after everything recorded when the message came in. */
  lemma GovernedStep(g: Config, s: Session, t: Session, fs: seq<F.Frame>, f: Forward)
    requires Safe(g, s) && Evolves(s.store, t.store)
    requires fs != [] && NoToolCalls(fs[1..]) && t.sent == s.sent + fs && t.forwards == s.forwards + [f]
    requires Governs(g, t.store, t.sent, f) && f.frame == |s.sent| && f.record >= |s.store.bodies|
    ensures Safe(g, t)
  {
    hide Evolves, Governs, Accounted, NoToolCalls;
    AllKept(g, s, t);
    StillAccounted(s.sent, s.forwards, fs, f);
  }

  // ----- frames by method -----------------------------------------------------------

  lemma FramesQuiet(x: L.Exchange, method_: string, params: PyVal)
    requires method_ != "tools/call"
    ensures NoToolCalls(L.FramesOf(x, method_, params))
  {
  }

  lemma CallFrames(x: L.Exchange, params: PyVal)
    requires x.delivered
    ensures var fs := L.FramesOf(x, "tools/call", params);
            fs != [] && fs[0] == F.Request(x.id, "tools/call", params) && NoToolCalls(fs[1..])
  {
  }

  lemma {:induction false} ListFramesQuiet(st: L.Progress, xs: seq<L.Exchange>)
    ensures NoToolCalls(L.ListFrames(st, xs))
    decreases |xs|
  {
    hide L.Turn, L.FramesOf;
    if xs != [] {
      var t := L.Turn(st, xs[0].reply);
      FramesQuiet(xs[0], "tools/list", L.CursorParams(st.cursor));
      if t.More? { ListFramesQuiet(t.next, xs[1..]); }
    }
  }

  // ----- the governed call ----------------------------------------------------------

  lemma EvolvesSelf(s: Store)
    ensures Evolves(s, s)
  {
  }

  lemma EvolvesOn(s: Store, t: Store, u: Store)
    requires Evolves(s, t) && Evolves(t, u)
    ensures Evolves(s, u)
  {
  }

  /** An allow with a grant leaves its decision recorded and the grant's row behind it. */
  lemma AuthorizedEvidence(sha: string -> Digest, pdp: Pdp, s: Store, c: State, a: Ask, d: Draw, m: Moment, m2: Moment)
    requires Authorize(sha, pdp, s, c, a, d, m, m2).1.Success?
        && Authorize(sha, pdp, s, c, a, d, m, m2).1.value.grant.Some?
    ensures !Malformed(a) && a.args.Some?
    ensures var (t, r) := Authorize(sha, pdp, s, c, a, d, m, m2);
            && r.value.grant.value.grantId in t.grants
            && var gr := t.grants[r.value.grant.value.grantId];
               && DecidedBefore(t.bodies, |t.bodies|, gr) && gr.decisionId == r.value.decisionId
               && gr.principalId == a.principal.value.id && gr.sourceId == a.sid && gr.name == a.name
               && gr.argsHash == sha(CanonicalArgs(a.args.value).value)
  {
    hide Authorize, BrokerVerdict, CanonicalArgs, TtlOf;
    SR.AuthorizeLeaves(sha, pdp, s, c, a, d, m, m2);
    var t := Authorize(sha, pdp, s, c, a, d, m, m2).0;
    assert CA.Backs(t.bodies[|s.bodies|], t.grants[d.grantId]);
  }

  /** A redemption answered ok ends the log with its record. */
  lemma RedeemedEvidence(sha: string -> Digest, s: Store, c: State, gid: string, p: Option<Principal>, args: PyVal,
                         m: Moment, m2: Moment)
    requires var r := RedeemGrant(sha, s, c, gid, p, args, m, m2).1; r.Success? && r.value.reason == Ok
    ensures p.Some? && gid in s.grants && CanonicalArgs(args).Success?
    ensures var t := RedeemGrant(sha, s, c, gid, p, args, m, m2).0;
            var gr := s.grants[gid];
            && t.bodies == s.bodies + [GrantRedeem(gid, gr.decisionId, p.value.id, gr.sourceId, gr.name)]
            && Invocable(c, gr.sourceId, gr.name)
            && gr.principalId == p.value.id && gr.argsHash == sha(CanonicalArgs(args).value)
            && gid in t.grants && SameIdentity(gr, t.grants[gid])
  {
    hide KindOf, BodyText, NextRow, CanonicalArgs, Invocable;
  }

  lemma DecidedLater(bs: seq<Body>, n: nat, x: Grant, cs: seq<Body>, m: nat, y: Grant)
    requires DecidedBefore(bs, n, x) && bs <= cs && n <= m && SameIdentity(x, y)
    ensures DecidedBefore(cs, m, y)
  {
    var d :| 0 <= d < n && d < |bs| && CA.Backs(bs[d], x);
    BacksKept(bs[d], x, y);
    assert cs[d] == bs[d];
  }

  lemma RunGrows(sha: string -> Digest, s: Store, ops: seq<Op>)
    requires AllCallable(ops)
    ensures Evolves(s, Run(sha, s, ops))
  {
    RunEvolves(sha, s, ops);
  }

  lemma AuthorizeGrows(sha: string -> Digest, pdp: Pdp, s: Store, c: State, a: Ask, d: Draw, m: Moment, m2: Moment)
    ensures Evolves(s, Authorize(sha, pdp, s, c, a, d, m, m2).0)
  {
    hide Authorize, Reaches;
    AuthorizeReaches(sha, pdp, s, c, a, d, m, m2);
    ReachesKeeps(sha, s, Authorize(sha, pdp, s, c, a, d, m, m2).0);
  }

  lemma RedeemGrows(sha: string -> Digest, s: Store, c: State, gid: string, p: Option<Principal>, args: PyVal,
                    m: Moment, m2: Moment)
    ensures Evolves(s, RedeemGrant(sha, s, c, gid, p, args, m, m2).0)
  {
    hide RedeemGrant, Reaches;
    RedeemReaches(sha, s, c, gid, p, args, m, m2);
    ReachesKeeps(sha, s, RedeemGrant(sha, s, c, gid, p, args, m, m2).0);
  }

  lemma OutcomeGrows(sha: string -> Digest, s: Store, did: string, outcome: string, detail: string,
                     gid: Option<string>, m: Moment, m2: Moment)
    ensures Evolves(s, RecordOutcome(sha, s, did, outcome, detail, gid, m, m2).0)
  {
    hide RecordOutcome, Reaches;
    OutcomeReaches(sha, s, did, outcome, detail, gid, m, m2);
    ReachesKeeps(sha, s, RecordOutcome(sha, s, did, outcome, detail, gid, m, m2).0);
  }

  /** What is known when a call is about to be sent. */
  ghost predicate Ready(g: Config, store: Store, name: string, args: PyVal, gid: string, cat: State) {
    && store.bodies != [] && g.principal.Some? && gid in store.grants
    && var n, gr := |store.bodies| - 1, store.grants[gid];
       && store.bodies[n] == GrantRedeem(gid, gr.decisionId, g.principal.value.id, g.sid, name)
       && gr.principalId == g.principal.value.id && gr.sourceId == g.sid && gr.name == name
       && CanonicalArgs(args).Success? && gr.argsHash == g.sha(CanonicalArgs(args).value)
       && DecidedBefore(store.bodies, n, gr)
       && Invocable(cat, g.sid, name)
  }

  lemma SendSafe(g: Config, s0: Session, s: Session, id: PyVal, name: string, args: PyVal, did: string, gid: string,
                 ch: Choice)
    requires Possible(ch) && Safe(g, s0) && s == s0.(store := s.store)
    requires Evolves(s0.store, s.store) && |s0.store.bodies| < |s.store.bodies|
    requires Ready(g, s.store, name, args, gid, ch.later)
    ensures Safe(g, Send(g, s, id, name, args, did, gid, ch))
  {
    hide Safe, Evolves, Ready, RecordOutcome, L.FramesOf, Governs, CallParams, Reported, NoToolCalls, Run;
    var t := Send(g, s, id, name, args, did, gid, ch);
    var x := Offered(ch);
    var fs := L.FramesOf(x, "tools/call", CallParams(name, args));
    RunGrows(g.sha, s.store, ch.after);
    OutcomeGrows(g.sha, Run(g.sha, s.store, ch.after), did,
                 if x.reply.Transport? then "error" else "executed", ch.detail,
                 Some(gid), ch.recorded, ch.closed);
    EvolvesOn(s.store, Run(g.sha, s.store, ch.after), t.store);
    EvolvesOn(s0.store, s.store, t.store);
    if x.delivered {
      var f := Forward(|s.sent|, |s.store.bodies| - 1, gid, name, args, ch.later);
      CallFrames(x, CallParams(name, args));
      ReadyGoverns(g, s.store, s.sent + fs, f);
      GovernsKept(g, s.store, t.store, s.sent + fs, t.sent, f);
      GovernedStep(g, s0, t, fs, f);
    } else {
      NotDelivered(x, CallParams(name, args));
      QuietStep(g, s0, t, fs);
    }
  }

  lemma NotDelivered(x: L.Exchange, params: PyVal)
    requires !x.delivered
    ensures L.FramesOf(x, "tools/call", params) == [] && NoToolCalls([])
  {
  }

  lemma ReadyGoverns(g: Config, store: Store, sent: seq<F.Frame>, f: Forward)
    requires Ready(g, store, f.name, f.args, f.grantId, f.cat) && f.record == |store.bodies| - 1
    requires f.frame < |sent| && sent[f.frame].Request?
    requires sent[f.frame].method_ == "tools/call" && sent[f.frame].params == CallParams(f.name, f.args)
    ensures Governs(g, store, sent, f)
  {
    hide CanonicalArgs, Invocable, DecidedBefore;
  }

  /** A grant as authorize left it for this gateway's call. */
  ghost predicate Granted(g: Config, store: Store, name: string, gid: string) {
    && gid in store.grants
    && store.grants[gid].sourceId == g.sid && store.grants[gid].name == name
    && DecidedBefore(store.bodies, |store.bodies|, store.grants[gid])
  }

  lemma GrantedKept(g: Config, s: Store, t: Store, name: string, gid: string)
    requires Granted(g, s, name, gid) && Evolves(s, t)
    ensures Granted(g, t, name, gid)
  {
    DecidedLater(s.bodies, |s.bodies|, s.grants[gid], t.bodies, |t.bodies|, t.grants[gid]);
  }

  lemma RedeemReady(g: Config, s: Store, name: string, args: PyVal, gid: string, c: State, m: Moment, m2: Moment)
    requires Granted(g, s, name, gid)
    requires var r := RedeemGrant(g.sha, s, c, gid, g.principal, args, m, m2).1; r.Success? && r.value.reason == Ok
    ensures var t := RedeemGrant(g.sha, s, c, gid, g.principal, args, m, m2).0;
            Ready(g, t, name, args, gid, c) && |t.bodies| == |s.bodies| + 1
  {
    hide RedeemGrant, CanonicalArgs, Invocable, DecidedBefore;
    RedeemedEvidence(g.sha, s, c, gid, g.principal, args, m, m2);
    var t := RedeemGrant(g.sha, s, c, gid, g.principal, args, m, m2).0;
    DecidedLater(s.bodies, |s.bodies|, s.grants[gid], t.bodies, |t.bodies| - 1, t.grants[gid]);
  }

  lemma SpendSafe(g: Config, s0: Session, s: Session, id: PyVal, name: string, args: PyVal, did: string, gid: string,
                  ch: Choice)
    requires Possible(ch) && Safe(g, s0) && s == s0.(store := s.store) && Evolves(s0.store, s.store)
    requires Granted(g, s.store, name, gid)
    ensures Safe(g, Spend(g, s, id, name, args, did, gid, ch))
  {
    hide Safe, Granted, Evolves, RedeemGrant, Send, Ready;
    var between := Run(g.sha, s.store, ch.between);
    RunGrows(g.sha, s.store, ch.between);
    EvolvesOn(s0.store, s.store, between);
    GrantedKept(g, s.store, between, name, gid);
    var (s2, r) := RedeemGrant(g.sha, between, ch.later, gid, g.principal, args, ch.redeemed, ch.refused);
    RedeemGrows(g.sha, between, ch.later, gid, g.principal, args, ch.redeemed, ch.refused);
    EvolvesOn(s0.store, between, s2);
    if r.Success? && r.value.reason == Ok {
      RedeemReady(g, between, name, args, gid, ch.later, ch.redeemed, ch.refused);
      BodiesGrow(s0.store, between);
      SendSafe(g, s0, s.(store := s2), id, name, args, did, gid, ch);
    } else {
      QuietStep(g, s0, Spend(g, s, id, name, args, did, gid, ch), []);
    }
  }

  lemma BodiesGrow(s: Store, t: Store)
    requires Evolves(s, t)
    ensures |s.bodies| <= |t.bodies|
  {
  }

  lemma GovernedSafe(g: Config, s: Session, id: PyVal, name: string, args: PyVal, ch: Choice)
    requires Possible(ch) && Safe(g, s)
    ensures Safe(g, Governed(g, s, id, name, args, ch))
  {
    hide Safe, Granted, Evolves, Authorize, Spend, Malformed;
    var before := Run(g.sha, s.store, ch.before);
    RunGrows(g.sha, s.store, ch.before);
    var ask := AskFor(g, name, args);
    var (s1, r) := Authorize(g.sha, g.pdp, before, ch.cat, ask, ch.draw, ch.decided, ch.issued);
    AuthorizeGrows(g.sha, g.pdp, before, ch.cat, ask, ch.draw, ch.decided, ch.issued);
    EvolvesOn(s.store, before, s1);
    if r.Success? && r.value.verdict.allowed && r.value.grant.Some? {
      AuthorizedEvidence(g.sha, g.pdp, before, ch.cat, ask, ch.draw, ch.decided, ch.issued);
      AuthorizedGrants(g, s1, name, r.value.grant.value.grantId);
      SpendSafe(g, s, s.(store := s1), id, name, args, r.value.decisionId, r.value.grant.value.grantId, ch);
    } else {
      QuietStep(g, s, Governed(g, s, id, name, args, ch), []);
    }
  }

  lemma AuthorizedGrants(g: Config, s: Store, name: string, gid: string)
    requires gid in s.grants && DecidedBefore(s.bodies, |s.bodies|, s.grants[gid])
    requires s.grants[gid].sourceId == g.sid && s.grants[gid].name == name
    ensures Granted(g, s, name, gid)
  {
  }

  // ----- every message --------------------------------------------------------------

  lemma PassThroughSafe(g: Config, s: Session, id: PyVal, m: string, params: PyVal, ch: Choice)
    requires Safe(g, s) && m != "tools/call"
    ensures Safe(g, PassThrough(s, id, m, params, ch))
  {
    hide Safe, L.FramesOf, Evolves, Reported;
    EvolvesSelf(s.store);
    FramesQuiet(Offered(ch), m, params);
    QuietStep(g, s, PassThrough(s, id, m, params, ch), L.FramesOf(Offered(ch), m, params));
  }

  lemma ListSafe(g: Config, s: Session, id: PyVal, ch: Choice)
    requires Safe(g, s)
    ensures Safe(g, HandleList(g, s, id, ch))
  {
    hide Safe, L.ListFrames, Evolves, ListReply, L.Ending;
    EvolvesSelf(s.store);
    ListFramesQuiet(L.FIRST, ch.exchanges);
    QuietStep(g, s, HandleList(g, s, id, ch), L.ListFrames(L.FIRST, ch.exchanges));
  }

  lemma RefusedSafe(g: Config, s: Session, id: PyVal, why: Refusal)
    requires Safe(g, s)
    ensures Safe(g, Refuse(s, id, why))
  {
    hide Safe, Evolves;
    EvolvesSelf(s.store);
    QuietStep(g, s, Refuse(s, id, why), []);
  }

  lemma PassedIsNoCall(m: string)
    requires BucketOf(m).PassedThrough?
    ensures m != "tools/call"
  {
  }

  lemma RequestSafe(g: Config, s: Session, id: PyVal, m: string, params: PyVal, ch: Choice)
    requires Possible(ch) && Safe(g, s)
    ensures Safe(g, HandleRequest(g, s, id, m, params, ch))
  {
    hide Safe, Governed, PassThrough, HandleList, Refuse, ToolNameOf, FrozenArgs, BucketOf;
    match BucketOf(m)
    case PassedThrough =>
      PassedIsNoCall(m);
      PassThroughSafe(g, s, id, m, params, ch);
    case FilteredList => ListSafe(g, s, id, ch);
    case GovernedCall =>
      if ToolNameOf(params).Some? && FrozenArgs(params).Dict? {
        GovernedSafe(g, s, id, ToolNameOf(params).value, FrozenArgs(params), ch);
      } else {
        RefusedSafe(g, s, id, BadCall);
      }
    case Outside => RefusedSafe(g, s, id, NotPermitted);
  }

  lemma NotificationSafe(g: Config, s: Session, m: string, params: PyVal, ch: Choice)
    requires Safe(g, s)
    ensures Safe(g, HandleNotification(s, m, params, ch))
  {
    hide Safe, Evolves;
    EvolvesSelf(s.store);
    var t := HandleNotification(s, m, params, ch);
    QuietStep(g, s, t, if t.sent == s.sent then [] else [F.Notify(m, params)]);
  }

  lemma ObjectSafe(g: Config, s: Session, msg: PyVal, ch: Choice)
    requires Possible(ch) && Safe(g, s)
    ensures Safe(g, HandleObject(g, s, msg, ch))
  {
    hide Safe, Evolves, D.Field, HandleRequest, HandleNotification;
    EvolvesSelf(s.store);
    var t := HandleObject(g, s, msg, ch);
    var id, m, params := D.Field(msg, "id"), D.Field(msg, "method"), ParamsOf(D.Field(msg, "params"));
    if t.sent == s.sent && t.store == s.store && t.forwards == s.forwards {
      QuietStep(g, s, t, []);
    } else if id.None? {
      NotificationSafe(g, s, m.value.s, params, ch);
    } else {
      RequestSafe(g, s, id.value, m.value.s, params, ch);
    }
  }

  lemma HandleSafe(g: Config, s: Session, i: Input, ch: Choice)
    requires Possible(ch) && Safe(g, s)
    ensures Safe(g, Act(g, s, i, ch))
  {
    hide Safe, Evolves, HandleObject;
    EvolvesSelf(s.store);
    if i.Line? && g.parse(i.text).Some? && g.parse(i.text).value.Dict? {
      ObjectSafe(g, s, g.parse(i.text).value, ch);
    } else {
      QuietStep(g, s, Act(g, s, i, ch), []);
    }
  }

  lemma {:induction false} ActAllSafe(g: Config, s: Session, steps: seq<(Input, Choice)>)
    requires AllPossible(steps) && Safe(g, s)
    ensures Safe(g, ActAll(g, s, steps))
  {
    hide Act, Safe;
    if steps != [] {
      var n := |steps| - 1;
      ActAllSafe(g, s, steps[..n]);
      HandleSafe(g, ActAll(g, s, steps[..n]), steps[n].0, steps[n].1);
    }
  }

  lemma NewSessionSafe(g: Config, store: Store)
    ensures Safe(g, Session(store, [], [], []))
  {
  }

  /** In every session, whatever arrives on either side and whoever shares the store: the
      `tools/call` frames that reach the downstream pair up, in order, with distinct
      redemption records for the same source, tool and principal, each spent on exactly the
      arguments forwarded, under an allowed decision recorded before it, for a tool invocable
      at that moment. No other frame is a tool call. */
  lemma EverySessionIsSafe(g: Config, store: Store, steps: seq<(Input, Choice)>)
    requires AllPossible(steps)
    ensures Safe(g, SessionOf(g, store, steps))
  {
    hide Act, Safe, ActAll;
    NewSessionSafe(g, store);
    ActAllSafe(g, Session(store, [], [], []), steps);
  }

  // ----- replies --------------------------------------------------------------------

  /** A parsed object without an id: nothing may be sent back for it. */
  predicate IsNotification(g: Config, i: Input) {
    i.Line? && g.parse(i.text).Some? && g.parse(i.text).value.Dict? && D.Field(g.parse(i.text).value, "id").None?
  }

  /** The id a reply must carry: the request's own, or null when it could not be read. */
  function ExpectedId(g: Config, i: Input): PyVal {
    if i.Line? && g.parse(i.text).Some? && g.parse(i.text).value.Dict? && D.Field(g.parse(i.text).value, "id").Some?
    then D.Field(g.parse(i.text).value, "id").value else None_
  }

  /** `id` is answered with one reply and nothing else is said. */
  predicate OneReply(s: Session, t: Session, id: PyVal) {
    |t.out| == |s.out| + 1 && t.out[..|s.out|] == s.out && t.out[|s.out|].id == id
  }

  lemma Said(s: Session, t: Session, r: ToClient)
    requires t.out == s.out
    ensures OneReply(s, Say(t, r), r.id)
  {
  }

  lemma RefusedOnce(s: Session, t: Session, id: PyVal, why: Refusal)
    requires t.out == s.out
    ensures OneReply(s, Refuse(t, id, why), id)
  {
  }

  lemma SameOut(s: Session, t: Session, u: Session, id: PyVal)
    requires OneReply(t, u, id) && s.out == t.out
    ensures OneReply(s, u, id)
  {
  }

  lemma ReportedId(id: PyVal, reply: F.Reply)
    ensures Reported(id, reply).id == id
  {
  }

  lemma SendReplies(g: Config, s: Session, id: PyVal, name: string, args: PyVal, did: string, gid: string, ch: Choice)
    requires Possible(ch)
    ensures OneReply(s, Send(g, s, id, name, args, did, gid, ch), id)
  {
    hide RecordOutcome, Run, L.FramesOf, OneReply, Offered, Reported, CallParams;
    var reply := Reported(id, Offered(ch).reply);
    ReportedId(id, Offered(ch).reply);
    assert Send(g, s, id, name, args, did, gid, ch).out == s.out + [reply];
    Appended(s, Send(g, s, id, name, args, did, gid, ch), reply);
  }

  lemma Appended(s: Session, t: Session, r: ToClient)
    requires t.out == s.out + [r]
    ensures OneReply(s, t, r.id)
  {
  }

  lemma SpendReplies(g: Config, s: Session, id: PyVal, name: string, args: PyVal, did: string, gid: string, ch: Choice)
    requires Possible(ch)
    ensures OneReply(s, Spend(g, s, id, name, args, did, gid, ch), id)
  {
    hide RedeemGrant, Run, OneReply, Send, Refuse, ReasonText;
    var (s2, r) := RedeemGrant(g.sha, Run(g.sha, s.store, ch.between), ch.later, gid, g.principal, args, ch.redeemed,
        ch.refused);
    var t := s.(store := s2);
    if r.Failure? {
      RefusedOnce(s, t, id, FaultRefusal(r.error));
    } else if r.value.reason != Ok {
      RefusedOnce(s, t, id, RedeemDenied(ReasonText(r.value.reason), did, gid));
    } else {
      SendReplies(g, t, id, name, args, did, gid, ch);
      SameOut(s, t, Send(g, t, id, name, args, did, gid, ch), id);
    }
  }

  lemma GovernedReplies(g: Config, s: Session, id: PyVal, name: string, args: PyVal, ch: Choice)
    requires Possible(ch)
    ensures OneReply(s, Governed(g, s, id, name, args, ch), id)
  {
    hide Authorize, Run, Spend, OneReply, Refuse;
    var (s1, r) := Authorize(g.sha, g.pdp, Run(g.sha, s.store, ch.before), ch.cat, AskFor(g, name, args), ch.draw,
        ch.decided, ch.issued);
    var t := s.(store := s1);
    if r.Failure? {
      RefusedOnce(s, t, id, FaultRefusal(r.error));
    } else if !r.value.verdict.allowed {
      RefusedOnce(s, t, id, Denied(r.value.verdict.reason, r.value.decisionId));
    } else if r.value.grant.None? {
      RefusedOnce(s, t, id, Internal);
    } else {
      SpendReplies(g, t, id, name, args, r.value.decisionId, r.value.grant.value.grantId, ch);
      SameOut(s, t, Spend(g, t, id, name, args, r.value.decisionId, r.value.grant.value.grantId, ch), id);
    }
  }

  lemma ListReplyId(c: State, sid: string, id: PyVal, v: L.Verdict)
    ensures ListReply(c, sid, id, v).id == id
  {
  }

  lemma RequestReplies(g: Config, s: Session, id: PyVal, m: string, params: PyVal, ch: Choice)
    requires Possible(ch)
    ensures OneReply(s, HandleRequest(g, s, id, m, params, ch), id)
  {
    hide Governed, L.FramesOf, L.ListFrames, ListReply, Reported, ToolNameOf, FrozenArgs, OneReply, Offered, Refuse,
        Say, BucketOf;
    match BucketOf(m)
    case PassedThrough =>
      ReportedId(id, Offered(ch).reply);
      Said(s, s.(sent := s.sent + L.FramesOf(Offered(ch), m, params)), Reported(id, Offered(ch).reply));
    case FilteredList =>
      var v := L.Ending(L.FIRST, ch.exchanges);
      ListReplyId(ch.cat, g.sid, id, v);
      Said(s, s.(sent := s.sent + L.ListFrames(L.FIRST, ch.exchanges)), ListReply(ch.cat, g.sid, id, v));
    case GovernedCall =>
      if ToolNameOf(params).Some? && FrozenArgs(params).Dict? {
        GovernedReplies(g, s, id, ToolNameOf(params).value, FrozenArgs(params), ch);
      } else {
        RefusedOnce(s, s, id, BadCall);
      }
    case Outside => RefusedOnce(s, s, id, NotPermitted);
  }

  /** Every request gets exactly one reply, with its own id; input that cannot be read gets
      one with a null id; a notification gets none (sections 4.1 and 5 of JSON-RPC 2.0). */
  lemma AnsweredOnce(g: Config, s: Session, i: Input, ch: Choice)
    requires Possible(ch)
    ensures if IsNotification(g, i) then Act(g, s, i, ch).out == s.out
            else OneReply(s, Act(g, s, i, ch), ExpectedId(g, i))
  {
    hide HandleRequest, D.Field;
    if i.Line? && g.parse(i.text).Some? && g.parse(i.text).value.Dict? {
      var msg := g.parse(i.text).value;
      var id, m, params := D.Field(msg, "id"), D.Field(msg, "method"), ParamsOf(D.Field(msg, "params"));
      if id.Some? && m.Some? && m.value.Str? { RequestReplies(g, s, id.value, m.value.s, params, ch); }
    }
  }
}
