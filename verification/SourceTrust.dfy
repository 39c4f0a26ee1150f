/** Which sources are trusted enough (descriptor.py `TrustTier`): a tool runs only while its
    source was last registered as verified or known, all the way to what is forwarded. */
module SourceTrust {
  import opened Wrappers
  import opened CanonicalJson
  import opened AuditChain
  import opened AuditBody
  import opened Ledger
  import opened Descriptor
  import opened ToolCatalog
  import opened Policy
  import opened ServiceCalls
  import opened GatewaySession
  import opened GatewaySafety
  import A = ServiceAnswers
  import P = Persistence
  import U = GatewaySurface
  import F = Framing

  /** The tier a source was last registered under, read off the calls; a registration without
      an id, or under any other tier, is refused and does not count. */
  function LastTier(calls: seq<P.Call>, sid: string): Option<string> {
    if calls == [] then None
    else
      var call := calls[|calls| - 1];
      if call.RegisterCall? && call.sid == sid && sid != ""
         && (call.tier == "verified" || call.tier == "known" || call.tier == "untrusted" || call.tier == "quarantined")
      then Some(call.tier)
      else LastTier(calls[..|calls| - 1], sid)
  }

  /** The catalog holds each source under the tier last given. */
  ghost predicate HoldsTier(c: State, sid: string, tier: Option<string>) {
    if sid !in c.sources then tier == None
    else
      match c.sources[sid].tier
      case VerifiedTier => tier == Some("verified")
      case KnownTier => tier == Some("known")
      case UntrustedTier => tier == Some("untrusted")
      case QuarantinedTier => tier == Some("quarantined")
  }

  lemma {:induction false} IngestKeepsSources(digest: string -> nat, w: P.World, sid: string, claims: seq<P.Claim>)
    requires sid in w.cat.sources
    ensures P.IngestAll(digest, w, sid, claims).cat.sources == w.cat.sources
    decreases |claims|
  {
    hide P.IngestOne;
    if claims != [] { IngestKeepsSources(digest, P.IngestOne(digest, w, sid, claims[0]), sid, claims[1..]); }
  }

  lemma OneCall(digest: string -> nat, w: P.World, call: P.Call, sid: string, tier: Option<string>)
    requires HoldsTier(w.cat, sid, tier)
    ensures HoldsTier(P.Complete(digest, w, call).cat, sid,
                      if call.RegisterCall? && call.sid == sid && sid != ""
                         && (call.tier == "verified" || call.tier == "known" || call.tier == "untrusted"
                             || call.tier == "quarantined")
                      then Some(call.tier) else tier)
  {
    hide P.IngestAll, P.PayloadRefusal, P.UpsertSource, P.UpsertTool, P.UpsertAssertion, P.RecordDiscovery;
    if call.IngestCall? && P.Refusal(w.cat, call).None? { IngestKeepsSources(digest, w, call.sid, call.claims); }
  }

  /** After any calls. */
  lemma {:induction false} TierByCalls(digest: string -> nat, calls: seq<P.Call>, sid: string)
    ensures HoldsTier(P.CompleteAll(digest, calls).cat, sid, LastTier(calls, sid))
  {
    hide P.Complete, HoldsTier;
    if calls == [] {
      NoSources(sid);
    } else {
      var front, call := calls[..|calls| - 1], calls[|calls| - 1];
      TierByCalls(digest, front, sid);
      OneCall(digest, P.CompleteAll(digest, front), call, sid, LastTier(front, sid));
    }
  }

  lemma NoSources(sid: string)
    ensures HoldsTier(P.NEW_WORLD.cat, sid, None)
  {
  }

  /** Last registered as verified or known. */
  predicate Trusted(calls: seq<P.Call>, sid: string) {
    LastTier(calls, sid) == Some("verified") || LastTier(calls, sid) == Some("known")
  }

  /** The claim a tool last made has the fingerprint of the one last vouched for. */
  predicate Stands(digest: string -> nat, calls: seq<P.Call>, id: ToolId) {
    var ops := P.History(digest, calls);
    var claim, vouch := LastClaim(ops, id), LastVouch(ops, id);
    && claim.Some? && vouch.Some?
    && Fingerprint(digest, claim.value.0, claim.value.1)
       == Fingerprint(digest, vouch.value.version, vouch.value.claimed)
  }

  /** After any calls, a tool may run exactly when its assertion stands and its source was last
      registered as verified or known. */
  lemma InvocableByCalls(digest: string -> nat, calls: seq<P.Call>, sid: string, name: string)
    ensures Invocable(P.CompleteAll(digest, calls).cat, sid, name) <==>
              Stands(digest, calls, (sid, name)) && Trusted(calls, sid)
  {
    hide P.CompleteAll, P.History, DoAll, LastClaim, LastVouch, LastTier, Fingerprint, StatusOf, Invocable;
    P.CallsAreCatalogRuns(digest, calls);
    StatusFromHistory(digest, P.History(digest, calls), sid, name);
    TierByCalls(digest, calls, sid);
    TierDecides(P.CompleteAll(digest, calls).cat, sid, LastTier(calls, sid));
  }

  lemma TierDecides(c: State, sid: string, tier: Option<string>)
    requires HoldsTier(c, sid, tier)
    ensures sid in c.sources && c.sources[sid].tier.Invocable() <==> tier == Some("verified") || tier == Some("known")
  {
  }

  // ----- the service ----------------------------------------------------------------

  /** A tool of any other source is never allowed: the verdict says so without asking the
      engine, and no grant is issued. */
  lemma DistrustedIsDenied(sha: string -> Digest, pdp: Pdp, s: Store, digest: string -> nat, calls: seq<P.Call>,
                           a: Ask, d: Draw, m: Moment, m2: Moment)
    requires !Trusted(calls, a.sid)
    ensures var (t, r) := Authorize(sha, pdp, s, P.CompleteAll(digest, calls).cat, a, d, m, m2);
            && t.grants == s.grants
            && (r.Success? ==>
                  && !r.value.verdict.allowed && r.value.grant == None
                  && r.value.verdict.determining in {["<unregistered>"], ["<not-invocable>"]})
  {
    hide P.CompleteAll, LastTier, BrokerVerdict, KindOf, BodyText, NextRow, CanonicalArgs, TtlOf, Stands, Invocable;
    var c := P.CompleteAll(digest, calls).cat;
    InvocableByCalls(digest, calls, a.sid, a.name);
    if !Malformed(a) {
      BrokerAllows(pdp, c, a.principal.value, a.sid, a.name, Context(a));
      DistrustedVerdict(pdp, c, a.principal.value, a.sid, a.name, Context(a));
    }
  }

  lemma DistrustedVerdict(pdp: Pdp, c: State, p: Principal, sid: string, name: string, context: PyVal)
    requires !Invocable(c, sid, name)
    ensures BrokerVerdict(pdp, c, p, sid, name, context).determining in {["<unregistered>"], ["<not-invocable>"]}
  {
  }

  /** And a grant issued while its source was trusted does not redeem once it is not. */
  lemma DistrustedDoesNotRedeem(sha: string -> Digest, s: Store, digest: string -> nat, calls: seq<P.Call>, gid: string,
                                principal: Option<Principal>, args: PyVal, m: Moment, m2: Moment)
    requires gid in s.grants && !Trusted(calls, s.grants[gid].sourceId)
    ensures var r := RedeemGrant(sha, s, P.CompleteAll(digest, calls).cat, gid, principal, args, m, m2).1;
            r.Success? ==> r.value.reason != Ok
  {
    hide P.CompleteAll, RedeemGrant, LastTier, Stands, Invocable, A.MayRun, CanonicalArgs;
    var c := P.CompleteAll(digest, calls).cat;
    InvocableByCalls(digest, calls, s.grants[gid].sourceId, s.grants[gid].name);
    A.InvocableMayRun(c, s.grants[gid].sourceId, s.grants[gid].name);
    if RedeemGrant(sha, s, c, gid, principal, args, m, m2).1.Success? {
      A.RedeemAnswers(sha, s, c, gid, principal, args, m, m2);
    }
  }

  // ----- the session ----------------------------------------------------------------

  /** The catalog in memory is what some calls made of it, after which the source is not
      trusted. */
  ghost predicate Distrusts(digest: string -> nat, c: State, sid: string) {
    exists calls :: c == P.CompleteAll(digest, calls).cat && !Trusted(calls, sid)
  }

  /** A forwarded call was redeemed while its source was trusted and its assertion stood. */
  lemma ForwardedIsTrusted(g: Config, digest: string -> nat, store: Store, steps: seq<(Input, Choice)>, f: Forward,
                           calls: seq<P.Call>)
    requires AllPossible(steps) && f in SessionOf(g, store, steps).forwards
    requires f.cat == P.CompleteAll(digest, calls).cat
    ensures Trusted(calls, g.sid) && Stands(digest, calls, (g.sid, f.name))
  {
    hide P.CompleteAll, SessionOf, LastTier, Stands, Invocable, CanonicalArgs, DecidedBefore, CallParams;
    EverySessionIsSafe(g, store, steps);
    InvocableByCalls(digest, calls, g.sid, f.name);
    var s := SessionOf(g, store, steps);
    var i :| 0 <= i < |s.forwards| && s.forwards[i] == f;
    assert Governs(g, s.store, s.sent, s.forwards[i]);
  }

  /** A session whose source is never trusted when a grant is presented sends no tool call. */
  lemma DistrustedSendsNoCalls(g: Config, digest: string -> nat, store: Store, steps: seq<(Input, Choice)>)
    requires AllPossible(steps)
    requires forall k :: 0 <= k < |steps| ==> Distrusts(digest, steps[k].1.later, g.sid)
    ensures SessionOf(g, store, steps).forwards == []
    ensures forall k :: 0 <= k < |SessionOf(g, store, steps).sent| ==>
              var f := SessionOf(g, store, steps).sent[k];
              !((f.Request? || f.Notify?) && f.method_ == "tools/call")
  {
    hide SessionOf, Distrusts, Governs, U.OnSurface, InOrder;
    U.OnlyTheSurfaceIsSent(g, store, steps);
    EverySessionIsSafe(g, store, steps);
    var s := SessionOf(g, store, steps);
    if s.forwards != [] {
      var f := s.forwards[0];
      var k :| 0 <= k < |steps| && steps[k].1.later == f.cat;
      ForwardedNotDistrusted(g, digest, store, steps, f);
    }
    CallsAreForwards(s.sent, s.forwards);
  }

  lemma CallsAreForwards(sent: seq<F.Frame>, fs: seq<Forward>)
    requires Accounted(sent, fs)
    ensures forall k :: 0 <= k < |sent| && IsToolCall(sent[k]) ==> fs != []
  {
    forall k | 0 <= k < |sent| && IsToolCall(sent[k]) ensures fs != [] {
      var i :| 0 <= i < |fs| && fs[i].frame == k;
    }
  }

  lemma ForwardedNotDistrusted(g: Config, digest: string -> nat, store: Store, steps: seq<(Input, Choice)>, f: Forward)
    requires AllPossible(steps) && f in SessionOf(g, store, steps).forwards
    ensures !Distrusts(digest, f.cat, g.sid)
  {
    hide SessionOf, P.CompleteAll, LastTier, Trusted, Stands;
    forall calls | f.cat == P.CompleteAll(digest, calls).cat ensures Trusted(calls, g.sid) {
      ForwardedIsTrusted(g, digest, store, steps, f, calls);
    }
  }
}
