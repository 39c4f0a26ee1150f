/** Threads calling authorize at once (service.py `_authz_lock`): whatever the interleaving,
    a grant is bound to its own decision. */
module ConcurrentAuthorize {
  import opened Wrappers
  import opened CanonicalJson
  import opened AuditChain
  import opened AuditBody
  import opened Ledger
  import opened ToolCatalog
  import opened Policy
  import opened ServiceCalls
  import opened ServiceRuns

  /** Where a thread stands between two points at which others may run. */
  datatype Thread =
    | Outside
    | Waiting(ask: Ask)
    | Holding(ask: Ask)
    | Recorded(ask: Ask, verdict: Verdict, body: Body)
    | Listed(ask: Ask, verdict: Verdict)
    | Bound(ask: Ask, verdict: Verdict, decisionId: string)

  /** The shared state: the store, the broker's list, the lock, the threads, and the
      identifiers drawn so far. */
  datatype System = System(store: Store, list: seq<Body>, lock: Option<nat>, threads: map<nat, Thread>,
      drawn: set<string>)

  /** A process has just started over a store that others left: its list is empty, and no
      thread is inside. Each grant there has its own allowed decision, under an id drawn. */
  ghost predicate Started(y: System) {
    && y.list == [] && y.lock.None? && y.threads == map[]
    && AllBacked(y.store) && OneGrantEach(y.store.grants)
    && forall gid <- y.store.grants :: y.store.grants[gid].decisionId in y.drawn
  }

  function At(y: System, t: nat): Thread { if t in y.threads then y.threads[t] else Outside }

  function Moved(y: System, t: nat, th: Thread): System { y.(threads := y.threads[t := th]) }

  /** Leaving the lock's block, by either way out. */
  function Released(y: System, t: nat): System { Moved(y, t, Outside).(lock := None) }

  datatype Event =
    | Enter(t: nat, ask: Ask)
    | Acquire(t: nat)
    | RecordDecision(t: nat, cat: State, id: string, m: Moment)
    | AppendToList(t: nat)
    | ReadLast(t: nat)
    | FinishWithoutGrant(t: nat)
    | IssueTheGrant(t: nat, draw: Draw, m: Moment)
    | Elsewhere(op: Op)

  /** What other callers do to the store meanwhile: anything except deciding and issuing,
      which only happen inside authorize. */
  predicate Foreign(op: Op) {
    Callable(op) && !op.IssueOp? && (op.AppendOp? ==> !op.body.Decision?)
  }

  predicate WantsGrant(ask: Ask, v: Verdict) { ask.args.Some? && v.allowed }

  /** An event the thread is not ready for does not happen. Identifiers are drawn fresh. */
  function Step(sha: string -> Digest, pdp: Pdp, y: System, e: Event): System {
    match e
    case Enter(t, ask) =>
      if At(y, t).Outside? && !Malformed(ask) then Moved(y, t, Waiting(ask)) else y
    case Acquire(t) =>
      if At(y, t).Waiting? && y.lock.None? then Moved(y, t, Holding(At(y, t).ask)).(lock := Some(t)) else y
    case RecordDecision(t, cat, id, m) => DecideStep(sha, pdp, y, t, cat, id, m)
    case AppendToList(t) =>
      var th := At(y, t);
      if th.Recorded? then Moved(y, t, Listed(th.ask, th.verdict)).(list := y.list + [th.body]) else y
    case ReadLast(t) =>
      var th := At(y, t);
      if th.Listed? && y.list != [] && y.list[|y.list| - 1].Decision?
      then Moved(y, t, Bound(th.ask, th.verdict, y.list[|y.list| - 1].decisionId)) else y
    case FinishWithoutGrant(t) =>
      if At(y, t).Bound? && !WantsGrant(At(y, t).ask, At(y, t).verdict) then Released(y, t) else y
    case IssueTheGrant(t, draw, m) => IssueStep(sha, y, t, draw, m)
    case Elsewhere(op) => if Foreign(op) then y.(store := Apply(sha, y.store, op)) else y
  }

  /** The broker decides and its record is stored; a failed append leaves the block. */
  function DecideStep(sha: string -> Digest, pdp: Pdp, y: System, t: nat, cat: State, id: string, m: Moment): System {
    var th := At(y, t);
    if !th.Holding? || Malformed(th.ask) || id in y.drawn then y
    else
      var v := VerdictOn(pdp, cat, th.ask);
      var b := DecisionBody(id, th.ask.principal.value, th.ask.sid, th.ask.name, v);
      var drawn := y.(store := AppendAudit(sha, y.store, b, m).0, drawn := y.drawn + {id});
      if m.fault then Released(drawn, t) else Moved(drawn, t, Recorded(th.ask, v, b))
  }

  /** The grant is written under the id read back; the block is left either way. */
  function IssueStep(sha: string -> Digest, y: System, t: nat, draw: Draw, m: Moment): System {
    var th := At(y, t);
    if !th.Bound? || Malformed(th.ask) || !WantsGrant(th.ask, th.verdict) || draw.grantId in y.drawn then y
    else
      var g := GrantFor(sha, th.ask, draw).(decisionId := th.decisionId);
      Released(y.(store := Issue(sha, y.store, draw.grantId, g, Some(TtlOf(th.ask.ttl).value), m).0,
                  drawn := y.drawn + {draw.grantId}), t)
  }

  function Steps(sha: string -> Digest, pdp: Pdp, y: System, es: seq<Event>): System {
    if es == [] then y
    else Step(sha, pdp, Steps(sha, pdp, y, es[..|es| - 1]), es[|es| - 1])
  }

  // ----- the invariant --------------------------------------------------------------

  /** An allowed decision about exactly this principal, source and tool. */
  predicate Backs(b: Body, g: Grant) {
    b.Decision? && b.decisionId == g.decisionId && b.allowed
    && b.principal == g.principalId && b.source == g.sourceId && b.tool == g.name
  }

  ghost predicate AllBacked(s: Store) {
    forall gid <- s.grants :: exists i :: 0 <= i < |s.bodies| && Backs(s.bodies[i], s.grants[gid])
  }

  /** No two grants carry one decision id. */
  ghost predicate OneGrantEach(grants: map<string, Grant>) {
    forall a, b :: a in grants && b in grants && grants[a].decisionId == grants[b].decisionId ==> a == b
  }

  ghost predicate Unbound(grants: map<string, Grant>, id: string) {
    forall gid <- grants :: grants[gid].decisionId != id
  }

  predicate Critical(th: Thread) { th.Holding? || th.Recorded? || th.Listed? || th.Bound? }

  /** What a thread inside the block knows: its own decision is stored, and not yet bound. */
  ghost predicate Knows(y: System, th: Thread) {
    match th
    case Recorded(a, v, b) => Own(y, a, v, b)
    case Listed(a, v) => y.list != [] && Own(y, a, v, y.list[|y.list| - 1])
    case Bound(a, v, id) => exists b :: Own(y, a, v, b) && b.Decision? && b.decisionId == id
    case _ => true
  }

  ghost predicate Own(y: System, a: Ask, v: Verdict, b: Body) {
    && a.principal.Some? && b in y.store.bodies
    && b.Decision? && b == DecisionBody(b.decisionId, a.principal.value, a.sid, a.name, v)
    && b.decisionId in y.drawn && Unbound(y.store.grants, b.decisionId)
  }

  ghost predicate Mutex(y: System) {
    forall t: nat :: Critical(At(y, t)) <==> y.lock == Some(t)
  }

  ghost predicate Good(y: System) {
    && Mutex(y)
    && AllBacked(y.store) && OneGrantEach(y.store.grants)
    && (forall gid <- y.store.grants :: y.store.grants[gid].decisionId in y.drawn)
    && (forall t: nat :: Knows(y, At(y, t)))
  }

  // ----- preservation ---------------------------------------------------------------

  /** Grants keep their identity, none appears, and no record is lost. */
  ghost predicate Quiet(s: Store, s': Store) {
    && s'.grants.Keys == s.grants.Keys && s.bodies <= s'.bodies
    && (forall gid <- s.grants :: SameIdentity(s.grants[gid], s'.grants[gid]))
  }

  lemma ForeignIsQuiet(sha: string -> Digest, s: Store, op: Op)
    requires Callable(op) && !op.IssueOp?
    ensures Quiet(s, Apply(sha, s, op))
  {
    hide BodyText, KindOf, NextRow;
  }

  lemma QuietKeepsBacked(s: Store, s': Store)
    requires Quiet(s, s') && AllBacked(s) && OneGrantEach(s.grants)
    ensures AllBacked(s') && OneGrantEach(s'.grants)
  {
    forall gid <- s'.grants ensures exists i :: 0 <= i < |s'.bodies| && Backs(s'.bodies[i], s'.grants[gid]) {
      assert SameIdentity(s.grants[gid], s'.grants[gid]);
      var i :| 0 <= i < |s.bodies| && Backs(s.bodies[i], s.grants[gid]);
      assert Backs(s'.bodies[i], s'.grants[gid]);
    }
    forall a, b | a in s'.grants && b in s'.grants && s'.grants[a].decisionId == s'.grants[b].decisionId
        ensures a == b {
      assert SameIdentity(s.grants[a], s'.grants[a]) && SameIdentity(s.grants[b], s'.grants[b]);
    }
  }

  lemma QuietKeepsOwn(y: System, y': System, a: Ask, v: Verdict, b: Body)
    requires Quiet(y.store, y'.store) && y.drawn <= y'.drawn && Own(y, a, v, b)
    ensures Own(y', a, v, b)
  {
    forall gid <- y'.store.grants ensures y'.store.grants[gid].decisionId != b.decisionId {
      assert SameIdentity(y.store.grants[gid], y'.store.grants[gid]);
    }
  }

  lemma QuietKeepsKnowledge(y: System, y': System, th: Thread)
    requires Quiet(y.store, y'.store) && y.drawn <= y'.drawn && Knows(y, th) && y'.list == y.list
    ensures Knows(y', th)
  {
    hide Own, Quiet;
    match th
    case Recorded(a, v, b) => QuietKeepsOwn(y, y', a, v, b);
    case Listed(a, v) => QuietKeepsOwn(y, y', a, v, y.list[|y.list| - 1]);
    case Bound(a, v, id) =>
      var b :| Own(y, a, v, b) && b.Decision? && b.decisionId == id;
      QuietKeepsOwn(y, y', a, v, b);
    case _ =>
  }

  /** A step of one thread that leaves store and list alone. */
  lemma MoveKeeps(y: System, y': System, t: nat)
    requires Good(y) && y'.store == y.store && y'.list == y.list && y'.drawn == y.drawn
    requires forall u :: u != t ==> At(y', u) == At(y, u)
    requires Knows(y', At(y', t)) && Mutex(y')
    ensures Good(y')
  {
    hide Knows, AllBacked, OneGrantEach;
    forall u ensures Knows(y', At(y', u)) {
      assert Knows(y, At(y, u));
      QuietSelf(y.store);
      if u != t { QuietKeepsKnowledge(y, y', At(y, u)); }
    }
  }

  lemma QuietSelf(s: Store)
    ensures Quiet(s, s)
  {
  }

  lemma ForeignKeeps(sha: string -> Digest, y: System, op: Op)
    requires Good(y) && Callable(op) && !op.IssueOp?
    ensures Good(y.(store := Apply(sha, y.store, op)))
  {
    hide Knows, AllBacked, OneGrantEach, Apply;
    var y' := y.(store := Apply(sha, y.store, op));
    ForeignIsQuiet(sha, y.store, op);
    QuietKeepsBacked(y.store, y'.store);
    forall u ensures Knows(y', At(y', u)) {
      assert Knows(y, At(y, u));
      QuietKeepsKnowledge(y, y', At(y, u));
    }
    forall gid <- y'.store.grants ensures y'.store.grants[gid].decisionId in y'.drawn {
      assert SameIdentity(y.store.grants[gid], y'.store.grants[gid]);
    }
  }

  lemma OthersOutside(y: System, t: nat, u: nat)
    requires Mutex(y) && Critical(At(y, t)) && u != t
    ensures !Critical(At(y, u))
  {
  }

  lemma DrawingKeeps(y: System, id: string)
    requires Good(y)
    ensures Good(y.(drawn := y.drawn + {id}))
  {
    var y' := y.(drawn := y.drawn + {id});
    forall u ensures Knows(y', At(y', u)) {
      QuietSelf(y.store);
      QuietKeepsKnowledge(y, y', At(y, u));
    }
  }

  lemma DecideKeeps(sha: string -> Digest, pdp: Pdp, y: System, t: nat, cat: State, id: string, m: Moment)
    requires Good(y)
    ensures Good(DecideStep(sha, pdp, y, t, cat, id, m))
  {
    hide BrokerVerdict, AppendAudit, Good, CanonicalArgs, TtlOf, Mutex, Knows;
    var th := At(y, t);
    if th.Holding? && !Malformed(th.ask) && id !in y.drawn {
      var v := VerdictOn(pdp, cat, th.ask);
      var b := DecisionBody(id, th.ask.principal.value, th.ask.sid, th.ask.name, v);
      ForeignKeeps(sha, y, AppendOp(b, m));
      var y1 := y.(store := AppendAudit(sha, y.store, b, m).0);
      DrawingKeeps(y1, id);
      var y2 := y1.(drawn := y1.drawn + {id});
      DecidedMove(sha, y, y2, t, th.ask, v, b, m);
    }
  }

  lemma DecidedMove(sha: string -> Digest, y: System, y2: System, t: nat, a: Ask, v: Verdict, b: Body, m: Moment)
    requires Good(y) && Good(y2) && At(y, t) == Holding(a) && y2.threads == y.threads && y2.lock == y.lock
    requires a.principal.Some? && b.Decision? && b == DecisionBody(b.decisionId, a.principal.value, a.sid, a.name, v)
    requires b.decisionId !in y.drawn && b.decisionId in y2.drawn && y2.store == AppendAudit(sha, y.store, b, m).0
    ensures Good(if m.fault then Released(y2, t) else Moved(y2, t, Recorded(a, v, b)))
  {
    hide AllBacked, OneGrantEach, BodyText, KindOf, NextRow;
    var y3 := if m.fault then Released(y2, t) else Moved(y2, t, Recorded(a, v, b));
    assert Critical(At(y, t));
    if !m.fault { assert Own(y3, a, v, b); }
    MoveKeeps(y2, y3, t);
  }

  lemma AppendKeepsGood(y: System, t: nat)
    requires Good(y) && At(y, t).Recorded?
    ensures Good(Moved(y, t, Listed(At(y, t).ask, At(y, t).verdict)).(list := y.list + [At(y, t).body]))
  {
    hide AllBacked, OneGrantEach, Own;
    var th := At(y, t);
    var y' := Moved(y, t, Listed(th.ask, th.verdict)).(list := y.list + [th.body]);
    assert Critical(th) && Knows(y, th);
    QuietSelf(y.store);
    QuietKeepsOwn(y, y', th.ask, th.verdict, th.body);
    forall u ensures Knows(y', At(y', u)) {
      if u != t { OthersOutside(y, t, u); }
    }
  }

  lemma ReadKeeps(y: System, t: nat)
    requires Good(y) && At(y, t).Listed? && y.list != [] && y.list[|y.list| - 1].Decision?
    ensures Good(Moved(y, t, Bound(At(y, t).ask, At(y, t).verdict, y.list[|y.list| - 1].decisionId)))
  {
    hide AllBacked, OneGrantEach, Own;
    var th, b := At(y, t), y.list[|y.list| - 1];
    var y' := Moved(y, t, Bound(th.ask, th.verdict, b.decisionId));
    assert Critical(th) && Knows(y, th);
    QuietSelf(y.store);
    QuietKeepsOwn(y, y', th.ask, th.verdict, b);
    MoveKeeps(y, y', t);
  }

  /** The new grant is backed by the thread's own decision, and by no one else's grant. */
  lemma IssuedBacked(s: Store, gid: string, g: Grant, b: Body, s': Store)
    requires AllBacked(s) && OneGrantEach(s.grants) && gid !in s.grants
    requires b in s.bodies && Backs(b, g) && Unbound(s.grants, g.decisionId)
    requires s'.grants == s.grants[gid := g] && s.bodies <= s'.bodies
    ensures AllBacked(s') && OneGrantEach(s'.grants)
  {
    var k :| 0 <= k < |s.bodies| && s.bodies[k] == b;
    forall x <- s'.grants ensures exists i :: 0 <= i < |s'.bodies| && Backs(s'.bodies[i], s'.grants[x]) {
      if x == gid {
        assert Backs(s'.bodies[k], s'.grants[x]);
      } else {
        var i :| 0 <= i < |s.bodies| && Backs(s.bodies[i], s.grants[x]);
        assert Backs(s'.bodies[i], s'.grants[x]);
      }
    }
  }

  lemma IssueKeepsGood(sha: string -> Digest, y: System, t: nat, draw: Draw, m: Moment)
    requires Good(y)
    ensures Good(IssueStep(sha, y, t, draw, m))
  {
    hide AllBacked, OneGrantEach, BodyText, KindOf, NextRow, Own, Malformed, GrantFor;
    var th := At(y, t);
    if th.Bound? && !Malformed(th.ask) && WantsGrant(th.ask, th.verdict) && draw.grantId !in y.drawn {
      assert Critical(th) && Knows(y, th);
      var b :| Own(y, th.ask, th.verdict, b) && b.Decision? && b.decisionId == th.decisionId;
      IssuedGood(sha, y, t, th.ask, draw, m, b);
    }
  }

  lemma IssuedGood(sha: string -> Digest, y: System, t: nat, a: Ask, draw: Draw, m: Moment, b: Body)
    requires Good(y) && At(y, t).Bound? && At(y, t).ask == a && !Malformed(a) && WantsGrant(a, At(y, t).verdict)
    requires draw.grantId !in y.drawn
    requires Own(y, a, At(y, t).verdict, b) && b.Decision? && b.decisionId == At(y, t).decisionId
    ensures Good(IssueStep(sha, y, t, draw, m))
  {
    hide AllBacked, OneGrantEach, BodyText, KindOf, NextRow, Malformed;
    var y' := IssueStep(sha, y, t, draw, m);
    var g := GrantFor(sha, a, draw).(decisionId := b.decisionId);
    if draw.grantId in y.store.grants || m.fault {
      assert y'.store == y.store;
    } else {
      assert y'.store.grants == y.store.grants[draw.grantId := g];
      IssuedBacked(y.store, draw.grantId, g, b, y'.store);
    }
    forall u ensures Knows(y', At(y', u)) {
      if u != t { OthersOutside(y, t, u); }
    }
  }

  lemma StepKeeps(sha: string -> Digest, pdp: Pdp, y: System, e: Event)
    requires Good(y)
    ensures Good(Step(sha, pdp, y, e))
  {
    hide DecideStep, IssueStep, AllBacked, OneGrantEach, Malformed, Own, Apply;
    match e
    case Enter(t, ask) => if At(y, t).Outside? && !Malformed(ask) { MoveKeeps(y, Step(sha, pdp, y, e), t); }
    case Acquire(t) => if At(y, t).Waiting? && y.lock.None? { MoveKeeps(y, Step(sha, pdp, y, e), t); }
    case RecordDecision(t, cat, id, m) => DecideKeeps(sha, pdp, y, t, cat, id, m);
    case AppendToList(t) => if At(y, t).Recorded? { AppendKeepsGood(y, t); }
    case ReadLast(t) =>
      if At(y, t).Listed? && y.list != [] && y.list[|y.list| - 1].Decision? { ReadKeeps(y, t); }
    case FinishWithoutGrant(t) =>
      if At(y, t).Bound? && !WantsGrant(At(y, t).ask, At(y, t).verdict) {
        assert Critical(At(y, t));
        MoveKeeps(y, Step(sha, pdp, y, e), t);
      }
    case IssueTheGrant(t, draw, m) => IssueKeepsGood(sha, y, t, draw, m);
    case Elsewhere(op) => if Foreign(op) { ForeignKeeps(sha, y, op); }
  }

  lemma StartedIsGood(y: System)
    requires Started(y)
    ensures Good(y)
  {
    hide AllBacked, OneGrantEach;
  }

  lemma {:induction false} StepsKeep(sha: string -> Digest, pdp: Pdp, y: System, es: seq<Event>)
    requires Good(y)
    ensures Good(Steps(sha, pdp, y, es))
  {
    if es != [] {
      StepsKeep(sha, pdp, y, es[..|es| - 1]);
      StepKeeps(sha, pdp, Steps(sha, pdp, y, es[..|es| - 1]), es[|es| - 1]);
    }
  }

  /** From any store a process starts over, for any number of threads and any interleaving with
      the other store operations: every grant carries the id of an allowed decision recorded for
      the same principal, source and tool, and no decision id has two grants. */
  lemma GrantsAreBoundToTheirDecisions(sha: string -> Digest, pdp: Pdp, y: System, es: seq<Event>, gid: string,
                                       other: string)
    requires Started(y)
    ensures var s := Steps(sha, pdp, y, es).store;
            && (gid in s.grants ==> exists i :: 0 <= i < |s.bodies| && Backs(s.bodies[i], s.grants[gid]))
            && (gid in s.grants && other in s.grants && gid != other ==>
                  s.grants[gid].decisionId != s.grants[other].decisionId)
  {
    hide Knows, Mutex;
    StartedIsGood(y);
    StepsKeep(sha, pdp, y, es);
  }

  /** The process dies and starts again over what it left. */
  function Restarted(y: System): System { System(y.store, [], None, map[], y.drawn) }

  /** So a process may die at any step, with threads anywhere in the block, and start again:
      the next run begins from such a system once more. A new store is one too. */
  lemma ACrashStartsAgain(sha: string -> Digest, pdp: Pdp, y: System, es: seq<Event>)
    requires Started(y)
    ensures Started(Restarted(Steps(sha, pdp, y, es)))
    ensures Started(System(EMPTY_STORE, [], None, map[], {}))
  {
    hide Knows, Mutex, AllBacked, OneGrantEach;
    StartedIsGood(y);
    StepsKeep(sha, pdp, y, es);
    NothingToBack();
  }

  lemma NothingToBack()
    ensures AllBacked(EMPTY_STORE) && OneGrantEach(EMPTY_STORE.grants)
  {
  }

  lemma StepReaches(sha: string -> Digest, pdp: Pdp, y: System, e: Event)
    ensures Reaches(sha, y.store, Step(sha, pdp, y, e).store)
  {
    hide Reaches, BrokerVerdict, CanonicalArgs, TtlOf, AppendBody, GrantFor;
    ReachesSelf(sha, y.store);
    match e
    case RecordDecision(t, cat, id, m) =>
      var th := At(y, t);
      if th.Holding? && !Malformed(th.ask) {
        var v := VerdictOn(pdp, cat, th.ask);
        ReachesOne(sha, y.store, AppendOp(DecisionBody(id, th.ask.principal.value, th.ask.sid, th.ask.name, v), m));
      }
    case IssueTheGrant(t, draw, m) =>
      var th := At(y, t);
      if th.Bound? && !Malformed(th.ask) && th.ask.args.Some? {
        FreshGrant(sha, th.ask, draw);
        var g := GrantFor(sha, th.ask, draw).(decisionId := th.decisionId);
        ReachesOne(sha, y.store, IssueOp(draw.grantId, g, Some(TtlOf(th.ask.ttl).value), m));
      }
    case Elsewhere(op) => if Foreign(op) { ReachesOne(sha, y.store, op); }
    case _ =>
  }

  /** And under every interleaving the ledger invariant holds: rows and records agree, and
      the chain verifies. */
  lemma {:induction false} InterleavingsKeepTheLedger(sha: string -> Digest, pdp: Pdp, y: System, es: seq<Event>)
    requires Invariant(sha, y.store)
    ensures Invariant(sha, Steps(sha, pdp, y, es).store) && Verifies(sha, Steps(sha, pdp, y, es).store.log)
  {
    hide Reaches, Step;
    if es != [] {
      var z := Steps(sha, pdp, y, es[..|es| - 1]);
      InterleavingsKeepTheLedger(sha, pdp, y, es[..|es| - 1]);
      StepReaches(sha, pdp, z, es[|es| - 1]);
      ReachesKeeps(sha, z.store, Steps(sha, pdp, y, es).store);
    }
  }

  // ----- one thread by itself -------------------------------------------------------

  function Entered(sha: string -> Digest, pdp: Pdp, y: System, t: nat, ask: Ask): System {
    Step(sha, pdp, Step(sha, pdp, y, Enter(t, ask)), Acquire(t))
  }

  function Deciding(sha: string -> Digest, pdp: Pdp, y: System, t: nat, cat: State, id: string, m: Moment): System {
    Step(sha, pdp, Step(sha, pdp, y, RecordDecision(t, cat, id, m)), AppendToList(t))
  }

  function Ending(sha: string -> Digest, pdp: Pdp, y: System, t: nat, d: Draw, m: Moment): System {
    var bound := Step(sha, pdp, y, ReadLast(t));
    Step(sha, pdp, Step(sha, pdp, bound, FinishWithoutGrant(t)), IssueTheGrant(t, d, m))
  }

  /** What a thread does when nobody comes between its steps. */
  function Undisturbed(sha: string -> Digest, pdp: Pdp, y: System, t: nat, ask: Ask, cat: State, d: Draw, m: Moment,
                       m2: Moment): System
  {
    Ending(sha, pdp, Deciding(sha, pdp, Entered(sha, pdp, y, t, ask), t, cat, d.decisionId, m), t, d, m2)
  }

  lemma EntersAlone(sha: string -> Digest, pdp: Pdp, y: System, t: nat, ask: Ask)
    requires At(y, t).Outside? && y.lock == None && !Malformed(ask)
    ensures var z := Entered(sha, pdp, y, t, ask);
            At(z, t) == Holding(ask) && z.lock == Some(t) && z.store == y.store && z.drawn == y.drawn
  {
    hide Malformed;
  }

  lemma DecidesAlone(sha: string -> Digest, pdp: Pdp, y: System, t: nat, ask: Ask, cat: State, id: string, m: Moment)
    requires At(y, t) == Holding(ask) && y.lock == Some(t) && !Malformed(ask) && id !in y.drawn
    ensures ask.principal.Some?
    ensures var z, v := Deciding(sha, pdp, y, t, cat, id, m), VerdictOn(pdp, cat, ask);
            var b := DecisionBody(id, ask.principal.value, ask.sid, ask.name, v);
            && z.store == AppendAudit(sha, y.store, b, m).0 && z.drawn == y.drawn + {id}
            && (if m.fault then At(z, t).Outside? && z.lock == None
                else At(z, t) == Listed(ask, v) && z.lock == Some(t) && z.list != [] && z.list[|z.list| - 1] == b)
  {
    hide CanonicalArgs, BrokerVerdict, AppendAudit, TtlOf;
  }

  lemma EndsAlone(sha: string -> Digest, pdp: Pdp, y: System, t: nat, ask: Ask, v: Verdict, d: Draw, m: Moment)
    requires At(y, t) == Listed(ask, v) && y.lock == Some(t) && !Malformed(ask) && d.grantId !in y.drawn
    requires y.list != [] && y.list[|y.list| - 1].Decision? && y.list[|y.list| - 1].decisionId == d.decisionId
    ensures var z := Ending(sha, pdp, y, t, d, m);
            && At(z, t).Outside? && z.lock == None
            && (!WantsGrant(ask, v) ==> z.store == y.store)
            && (WantsGrant(ask, v) ==>
                  TtlOf(ask.ttl).Some?
                  && z.store == Issue(sha, y.store, d.grantId, GrantFor(sha, ask, d), Some(TtlOf(ask.ttl).value), m).0)
  {
    hide CanonicalArgs, Issue, TtlOf, GrantFor;
    if ask.args.Some? {
      GrantIsDrawn(sha, ask, d);
      FreshGrant(sha, ask, d);
    }
  }

  lemma LeavesAlone(sha: string -> Digest, pdp: Pdp, y: System, t: nat, d: Draw, m: Moment)
    requires At(y, t).Outside?
    ensures Ending(sha, pdp, y, t, d, m) == y
  {
  }

  /** A thread by itself leaves the store `authorize` leaves, and is out again with the lock
      free: the machine of steps and the call agree. */
  lemma UndisturbedIsAuthorize(sha: string -> Digest, pdp: Pdp, y: System, t: nat, ask: Ask, cat: State, d: Draw,
                               m: Moment, m2: Moment)
    requires At(y, t).Outside? && y.lock == None && !Malformed(ask)
    requires d.decisionId !in y.drawn && d.grantId !in y.drawn && d.grantId != d.decisionId
    ensures var z := Undisturbed(sha, pdp, y, t, ask, cat, d, m, m2);
            && z.store == Authorize(sha, pdp, y.store, cat, ask, d, m, m2).0
            && At(z, t).Outside? && z.lock == None
  {
    hide Malformed, VerdictOn, AppendAudit, Issue, TtlOf, GrantFor, Entered, Deciding, Ending, At;
    var e := Entered(sha, pdp, y, t, ask);
    EntersAlone(sha, pdp, y, t, ask);
    DecidesAlone(sha, pdp, e, t, ask, cat, d.decisionId, m);
    var v := VerdictOn(pdp, cat, ask);
    AppendsOrFails(sha, y.store, DecisionBody(d.decisionId, ask.principal.value, ask.sid, ask.name, v), m);
    var z := Deciding(sha, pdp, e, t, cat, d.decisionId, m);
    if m.fault {
      LeavesAlone(sha, pdp, z, t, d, m2);
    } else {
      EndsAlone(sha, pdp, z, t, ask, v, d, m2);
    }
  }

  lemma AppendsOrFails(sha: string -> Digest, s: Store, b: Body, m: Moment)
    ensures AppendAudit(sha, s, b, m).1.Failure? <==> m.fault
  {
    hide KindOf, BodyText, NextRow;
  }

  lemma GrantIsDrawn(sha: string -> Digest, ask: Ask, d: Draw)
    requires !Malformed(ask) && ask.args.Some?
    ensures GrantFor(sha, ask, d).(decisionId := d.decisionId) == GrantFor(sha, ask, d)
  {
  }
}
