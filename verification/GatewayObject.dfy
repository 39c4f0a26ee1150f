/** The gateway object (gateway.py `Gateway`): one service, one downstream link, and the
    client's messages handled one at a time, each exactly as the session machine says. */
module GatewayObject {
  import opened Wrappers
  import opened CanonicalJson
  import opened AuditChain
  import opened Ledger
  import opened ToolCatalog
  import opened Policy
  import opened ServiceCalls
  import opened ServiceRuns
  import opened ServiceObject
  import opened GatewaySession
  import GatewaySafety
  import L = ToolListing
  import F = Framing
  import D = Documents
  import C = ClientLoop

  /** The ids of the reverse requests met while waiting. */
  function RefusedIds(ms: seq<F.Msg>, req: int): seq<F.RpcId> {
    if ms == [] then []
    else
      var m := ms[|ms| - 1];
      RefusedIds(ms[..|ms| - 1], req) + if F.Refused(m, req) then [m.id.value] else []
  }

  lemma {:induction false} RefusalsOfIds(ms: seq<F.Msg>, req: int)
    ensures F.Refusals(ms, req) == L.RefusalFrames(RefusedIds(ms, req))
  {
    if ms != [] {
      var front, m := ms[..|ms| - 1], ms[|ms| - 1];
      RefusalsOfIds(front, req);
      if F.Refused(m, req) {
        assert (RefusedIds(front, req) + [m.id.value])[..|RefusedIds(front, req)|] == RefusedIds(front, req);
      }
    }
  }

  /** Others may do what they like to the store; the catalog in memory is this process's own. */
  predicate Steady(ch: Choice, cat: State) { Possible(ch) && ch.cat == cat && ch.later == cat }

  /** The same choices, with the downstream's part filled in by what it did. */
  predicate SameButDownstream(ch: Choice, used: Choice) {
    used == ch.(exchanges := used.exchanges, notified := used.notified)
  }

  /** What the link returned to the calls of these exchanges, in order. */
  function Replies(xs: seq<L.Exchange>): seq<F.Reply> {
    if xs == [] then [] else Replies(xs[..|xs| - 1]) + [xs[|xs| - 1].reply]
  }

  lemma RepliesSnoc(xs: seq<L.Exchange>, x: L.Exchange)
    ensures Replies(xs + [x]) == Replies(xs) + [x.reply]
  {
    assert (xs + [x])[..|xs|] == xs;
  }

  lemma NoReplies(rs: seq<F.Reply>)
    ensures rs + Replies([]) == rs && rs + AllReplies([]) == rs
  {
  }

  /** The same over a run of messages. */
  function AllReplies(steps: seq<(Input, Choice)>): seq<F.Reply> {
    if steps == [] then [] else AllReplies(steps[..|steps| - 1]) + Replies(steps[|steps| - 1].1.exchanges)
  }

  lemma AllRepliesSnoc(steps: seq<(Input, Choice)>, i: Input, ch: Choice)
    ensures AllReplies(steps + [(i, ch)]) == AllReplies(steps) + Replies(ch.exchanges)
  {
    assert (steps + [(i, ch)])[..|steps|] == steps;
  }

  lemma OneReply(x: L.Exchange)
    ensures Replies([x]) == [x.reply]
  {
    assert [x][..0] == [];
  }

  // ----- a listing under way --------------------------------------------------------

  /** After these exchanges a listing stands here, having sent these frames. */
  ghost predicate Continues(xs: seq<L.Exchange>, st: L.Progress, fs: seq<F.Frame>) {
    && (forall ys :: L.ListFrames(L.FIRST, xs + ys) == fs + L.ListFrames(st, ys))
    && (forall ys :: L.Ending(L.FIRST, xs + ys) == L.Ending(st, ys))
  }

  lemma ContinuesFirst()
    ensures Continues([], L.FIRST, [])
  {
    forall ys: seq<L.Exchange> ensures [] + ys == ys {}
  }

  lemma ContinuesMore(xs: seq<L.Exchange>, st: L.Progress, fs: seq<F.Frame>, x: L.Exchange)
    requires Continues(xs, st, fs) && L.Turn(st, x.reply).More?
    ensures Continues(xs + [x], L.Turn(st, x.reply).next, fs + L.FramesOf(x, "tools/list", L.CursorParams(st.cursor)))
  {
    hide L.Turn, L.FramesOf, L.CursorParams;
    forall ys ensures L.ListFrames(L.FIRST, xs + [x] + ys)
                        == fs + L.FramesOf(x, "tools/list", L.CursorParams(st.cursor))
                            + L.ListFrames(L.Turn(st, x.reply).next, ys)
                      && L.Ending(L.FIRST, xs + [x] + ys) == L.Ending(L.Turn(st, x.reply).next, ys)
    {
      assert xs + [x] + ys == xs + ([x] + ys);
      assert ([x] + ys)[1..] == ys;
    }
  }

  lemma ContinuesEnd(xs: seq<L.Exchange>, st: L.Progress, fs: seq<F.Frame>, x: L.Exchange)
    requires Continues(xs, st, fs) && !L.Turn(st, x.reply).More?
    ensures L.ListFrames(L.FIRST, xs + [x]) == fs + L.FramesOf(x, "tools/list", L.CursorParams(st.cursor))
    ensures L.Ending(L.FIRST, xs + [x]) == L.Turn(st, x.reply)
  {
    hide L.Turn, L.FramesOf, L.CursorParams;
    assert L.ListFrames(st, [x]) == L.FramesOf(x, "tools/list", L.CursorParams(st.cursor)) + [];
  }

  lemma Regroup<T>(a: seq<T>, b: seq<T>, c: seq<T>)
    ensures a + b + c == a + (b + c)
  {
  }

  class Gateway {
    const service: ToolConnectService
    const link: F.Link
    const principal: Option<Principal>
    const sid: string
    const parse: string -> Option<PyVal>
    var out: seq<ToClient>
    ghost var forwards: seq<Forward>

    constructor (service: ToolConnectService, link: F.Link, principal: Option<Principal>, sid: string,
                 parse: string -> Option<PyVal>)
      requires link.Valid() && link.sent == [] && Invariant(service.store.sha, service.store.View())
      ensures Valid() && View() == Session(service.store.View(), [], [], []) && GatewaySafety.Safe(Conf(), View())
      ensures this.service == service && this.link == link
          && Conf() == Config(service.store.sha, service.pdp, principal, sid, parse)
    {
      this.service, this.link, this.principal, this.sid, this.parse := service, link, principal, sid, parse;
      out, forwards := [], [];
      new;
      GatewaySafety.NewSessionSafe(Conf(), service.store.View());
    }

    ghost function Conf(): Config {
      Config(service.store.sha, service.pdp, principal, sid, parse)
    }

    ghost function View(): Session
      reads this, service.store, link
    {
      Session(service.store.View(), link.sent, out, forwards)
    }

    ghost predicate Valid()
      reads service.store, link
    {
      link.Valid() && Invariant(service.store.sha, service.store.View())
    }

    /** The choices as given, but for the downstream's part: what the link was asked and answered
        since `heard`, call by call. */
    ghost predicate Handled(ch: Choice, used: Choice, heard: seq<F.Reply>)
      reads link, service.catalog
    {
      && SameButDownstream(ch, used) && Steady(used, service.catalog.View())
      && link.replies == heard + Replies(used.exchanges)
    }

    lemma NothingAsked(ch: Choice)
      requires Steady(ch, service.catalog.View())
      ensures Handled(ch, ch.(exchanges := []), link.replies) && Possible(ch.(exchanges := []))
    {
      NoReplies(link.replies);
    }

    lemma HandledIsPossible(ch: Choice, used: Choice, heard: seq<F.Reply>)
      requires Handled(ch, used, heard)
      ensures Possible(used) && SameButDownstream(ch, used) && link.replies == heard + Replies(used.exchanges)
    {
    }

    method Respond(r: ToClient)
      modifies this`out
      ensures View() == Say(old(View()), r)
    {
      out := out + [r];
    }

    /** One round trip, with an account of what went over the wire. */
    method Call(method_: string, params: PyVal) returns (r: F.Reply, ghost x: L.Exchange)
      requires link.Valid()
      modifies link
      ensures link.Valid() && link.sent == old(link.sent) + L.FramesOf(x, method_, params) && r == x.reply
      ensures link.replies == old(link.replies) + [r]
    {
      hide F.CallOutcome, F.Link.Valid, L.FramesOf;
      ghost var req := link.nextId;
      ghost var before := link.sent;
      ghost var heard := |link.received|;
      r := link.Call(method_, params);
      ghost var ms := link.received[heard..];
      x := Account(before, link.sent, req, method_, params, ms, r);
    }

    ghost method Account(before: seq<F.Frame>, after: seq<F.Frame>, req: int, method_: string, params: PyVal,
                         ms: seq<F.Msg>, r: F.Reply) returns (x: L.Exchange)
      requires F.CallOutcome(before, after, F.Request(req, method_, params), ms, r)
      ensures after == before + L.FramesOf(x, method_, params) && r == x.reply
    {
      hide F.Refusals, L.RefusalFrames;
      var begun := before + [F.Request(req, method_, params)];
      if after == before {
        x := L.Exchange(false, req, [], r);
      } else {
        var met := if after == begun + F.Refusals(ms, req) then ms else ms[..|ms| - 1];
        x := L.Exchange(true, req, RefusedIds(met, req), r);
        RefusalsOfIds(met, req);
        assert after == before + ([F.Request(req, method_, params)] + F.Refusals(met, req));
      }
    }

    /** Takes one reply of a listing: an error, or a page to add and a cursor to go on by. */
    method TakePage(r: F.Reply, st: L.Progress) returns (v: L.Verdict)
      ensures v == L.Turn(st, r)
    {
      if r.Rpc? { return L.Stop(L.Relayed(r.e)); }
      if r.Transport? { return L.Stop(L.Unavailable(r.f)); }
      var page := L.PageOf(r.payload);
      if page.None? { return L.Stop(L.Unavailable(F.Protocol)); }
      var tools := st.tools + page.value.tools;
      var pages := st.pages + 1;
      if |tools| > L.MAX_TOOLS { return L.Stop(L.Unavailable(F.Protocol)); }
      if page.value.next.End? { return L.Done(tools); }
      if page.value.next.BadCursor? { return L.Stop(L.Unavailable(F.Protocol)); }
      if page.value.next.c in st.seen { return L.Stop(L.Unavailable(F.Protocol)); }
      if pages >= L.MAX_PAGES { return L.Stop(L.Unavailable(F.Protocol)); }
      var seen := st.seen + {page.value.next.c};
      return L.More(L.Progress(tools, Some(page.value.next.c), seen, pages));
    }

    method FetchPage(st: L.Progress) returns (v: L.Verdict, ghost x: L.Exchange)
      requires link.Valid()
      modifies link
      ensures link.Valid() && v == L.Turn(st, x.reply)
      ensures link.sent == old(link.sent) + L.FramesOf(x, "tools/list", L.CursorParams(st.cursor))
      ensures link.replies == old(link.replies) + [x.reply]
    {
      hide F.Link.Valid, L.Turn, L.FramesOf, L.CursorParams;
      var r: F.Reply;
      r, x := Call("tools/list", L.CursorParams(st.cursor));
      v := TakePage(r, st);
    }

    /** `_handle_tools_list`: pages are fetched until one ends the listing or breaks a bound. */
    method HandleList(id: PyVal) returns (ghost xs: seq<L.Exchange>)
      requires link.Valid()
      modifies this`out, link
      ensures link.Valid() && |xs| <= L.MAX_PAGES && link.replies == old(link.replies) + Replies(xs)
      ensures link.sent == old(link.sent) + L.ListFrames(L.FIRST, xs)
      ensures out == old(out) + [ListReply(service.catalog.View(), sid, id, L.Ending(L.FIRST, xs))]
    {
      hide L.ListFrames, L.Ending, L.FramesOf, L.Visible, Continues, L.CursorParams, L.Turn, ListReply,
           F.Link.Valid, Replies;
      ghost var begun := link.sent;
      NoReplies(link.replies);
      var st := L.FIRST;
      ghost var fs: seq<F.Frame> := [];
      var end: L.Verdict;
      xs := [];
      ContinuesFirst();
      while true
        invariant link.Valid() && out == old(out) && |xs| == st.pages < L.MAX_PAGES
        invariant Continues(xs, st, fs) && link.sent == begun + fs
        invariant link.replies == old(link.replies) + Replies(xs)
        decreases L.MAX_PAGES - st.pages
      {
        ghost var x: L.Exchange;
        end, x := FetchPage(st);
        ghost var sent := L.FramesOf(x, "tools/list", L.CursorParams(st.cursor));
        Regroup(begun, fs, sent);
        RepliesSnoc(xs, x);
        ghost var more := fs + sent;
        if !end.More? {
          ContinuesEnd(xs, st, fs, x);
          xs, fs := xs + [x], more;
          break;
        }
        ContinuesMore(xs, st, fs, x);
        L.MoreHasRoom(st, x.reply);
        xs, fs := xs + [x], more;
        st := end.next;
      }
      Respond(ListReply(service.catalog.View(), sid, id, end));
    }

    // ----- the governed path --------------------------------------------------------

    method HandleCall(id: PyVal, params: PyVal, ch: Choice) returns (ghost used: Choice)
      requires Valid() && Steady(ch, service.catalog.View())
      modifies this, service, service.store, link
      ensures Valid() && Handled(ch, used, old(link.replies))
      ensures View() == GatewaySession.HandleCall(Conf(), old(View()), id, params, used)
    {
      hide Valid, View, Governed, ToolNameOf, FrozenArgs, Handled, Steady;
      used := ch.(exchanges := []);
      NothingAsked(ch);
      var name, args := ToolNameOf(params), FrozenArgs(params);
      if name.None? || !args.Dict? {
        Respond(Refused(id, BadCall));
        return;
      }
      used := CallTool(id, name.value, args, ch);
    }

    /** What others do to the store before this message's next step. */
    method Others(ops: seq<Op>)
      requires Valid() && AllCallable(ops)
      modifies service.store
      ensures Valid() && View() == old(View()).(store := Run(Conf().sha, old(View()).store, ops))
    {
      hide Invariant, Evolves, Run, F.Link.Valid;
      ghost var s := service.store.View();
      service.store.Meanwhile(ops);
      ReachesKeeps(service.store.sha, s, service.store.View());
    }

    /** The service's `authorize`; its store stays one the ledger can account for. */
    method AskService(ask: Ask, ch: Choice) returns (answer: Wrappers.Result<Answer, ServiceCalls.Fault>)
      requires Valid()
      modifies service`auditLog, service.store
      ensures Valid()
      ensures var (t, r) := Authorize(Conf().sha, Conf().pdp, old(View()).store, service.catalog.View(), ask, ch.draw,
                                      ch.decided, ch.issued);
              View() == old(View()).(store := t) && answer == r
    {
      hide Authorize, Invariant, Reaches, Evolves, F.Link.Valid;
      ghost var s := service.store.View();
      answer := service.Authorize(ask, ch.draw, ch.decided, ch.issued);
      AuthorizeReaches(service.store.sha, service.pdp, s, service.catalog.View(), ask, ch.draw, ch.decided, ch.issued);
      ReachesKeeps(service.store.sha, s, service.store.View());
    }

    method CallTool(id: PyVal, name: string, args: PyVal, ch: Choice) returns (ghost used: Choice)
      requires Valid() && Steady(ch, service.catalog.View())
      modifies this, service, service.store, link
      ensures Valid() && Handled(ch, used, old(link.replies))
      ensures View() == Governed(Conf(), old(View()), id, name, args, used)
    {
      hide Valid, View, Handled, Authorize, Spend, Run, FaultRefusal;
      used := ch.(exchanges := []);
      NothingAsked(ch);
      Others(ch.before);
      var ask := Ask(principal, sid, name, None, Some(args), None_);
      var answer := AskService(ask, ch);
      if answer.Failure? {
        Respond(Refused(id, FaultRefusal(answer.error)));
      } else if !answer.value.verdict.allowed {
        Respond(Refused(id, Denied(answer.value.verdict.reason, answer.value.decisionId)));
      } else if answer.value.grant.None? {
        Respond(Refused(id, Internal));
      } else {
        ghost var heard := link.replies;
        used := Redeem(id, name, args, answer.value.decisionId, answer.value.grant.value.grantId, ch);
        HandledIsPossible(ch, used, heard);
      }
    }

    /** The service's `redeem_grant`, likewise. */
    method SpendGrant(gid: string, args: PyVal, ch: Choice)
      returns (got: Wrappers.Result<RedeemReply, ServiceCalls.Fault>)
      requires Valid()
      modifies service.store
      ensures Valid()
      ensures var (t, r) := RedeemGrant(Conf().sha, old(View()).store, service.catalog.View(), gid, principal, args,
                                        ch.redeemed, ch.refused);
              View() == old(View()).(store := t) && got == r
    {
      hide RedeemGrant, Invariant, Reaches, Evolves, F.Link.Valid;
      ghost var s := service.store.View();
      got := service.RedeemGrant(gid, principal, args, ch.redeemed, ch.refused);
      RedeemReaches(service.store.sha, s, service.catalog.View(), gid, principal, args, ch.redeemed, ch.refused);
      ReachesKeeps(service.store.sha, s, service.store.View());
    }

    method Redeem(id: PyVal, name: string, args: PyVal, did: string, gid: string, ch: Choice)
      returns (ghost used: Choice)
      requires Valid() && Steady(ch, service.catalog.View())
      modifies this, service, service.store, link
      ensures Valid() && Handled(ch, used, old(link.replies))
      ensures View() == Spend(Conf(), old(View()), id, name, args, did, gid, used)
    {
      hide Valid, View, Handled, RedeemGrant, GatewaySession.Send, Run, FaultRefusal, ReasonText, SameButDownstream,
          Spend;
      used := ch.(exchanges := []);
      NothingAsked(ch);
      HandledIsPossible(ch, used, link.replies);
      ghost var s := View();
      Others(ch.between);
      var got := SpendGrant(gid, args, ch);
      if got.Failure? {
        Respond(Refused(id, FaultRefusal(got.error)));
      } else if got.value.reason != Ok {
        Respond(Refused(id, RedeemDenied(ReasonText(got.value.reason), did, gid)));
      } else {
        ghost var heard := link.replies;
        used := Send(id, name, args, did, gid, ch);
        HandledIsPossible(ch, used, heard);
      }
      SpendBranches(Conf(), s, id, name, args, did, gid, ch, used);
    }

    /** `_best_effort_outcome`: whatever goes wrong here is logged and nothing more. */
    method BestEffortOutcome(did: string, gid: string, done: string, ch: Choice)
      requires Invariant(service.store.sha, service.store.View())
      modifies service.store
      ensures Invariant(service.store.sha, service.store.View())
      ensures service.store.View()
           == RecordOutcome(service.store.sha, old(service.store.View()), did, done, ch.detail, Some(gid), ch.recorded,
               ch.closed).0
    {
      hide RecordOutcome, Invariant, Reaches, RowsMatch, Evolves;
      ghost var s := service.store.View();
      InvariantRows(service.store.sha, s);
      var noted := service.RecordOutcome(did, done, ch.detail, Some(gid), ch.recorded, ch.closed);
      OutcomeReaches(service.store.sha, s, did, done, ch.detail, Some(gid), ch.recorded, ch.closed);
      ReachesKeeps(service.store.sha, s, service.store.View());
    }

    /** After the call: the outcome is recorded as best one can, and the client answered. */
    method Settle(id: PyVal, did: string, gid: string, r: F.Reply, ch: Choice)
      requires Valid() && Possible(ch)
      modifies this`out, service.store
      ensures Valid() && View() == GatewaySession.Settle(Conf(), old(View()), id, did, gid, r, ch)
    {
      hide RecordOutcome, Invariant, F.Link.Valid, Reported, Run;
      Others(ch.after);
      BestEffortOutcome(did, gid, if r.Transport? then "error" else "executed", ch);
      Respond(Reported(id, r));
    }

    /** The call itself. */
    method Hop(gid: string, name: string, args: PyVal) returns (r: F.Reply, ghost x: L.Exchange)
      requires Valid()
      modifies this`forwards, link
      ensures Valid() && r == x.reply && link.replies == old(link.replies) + [r]
      ensures View() == GatewaySession.Hop(old(View()), x, gid, name, args, service.catalog.View())
    {
      hide Invariant, F.Link.Valid, L.FramesOf, CallParams;
      ghost var s := service.store.View();
      r, x := Call("tools/call", CallParams(name, args));
      if x.delivered && s.bodies != [] {
        forwards := forwards + [Forward(|old(link.sent)|, |s.bodies| - 1, gid, name, args, service.catalog.View())];
      }
    }

    method Send(id: PyVal, name: string, args: PyVal, did: string, gid: string, ch: Choice) returns (ghost used: Choice)
      requires Valid() && Steady(ch, service.catalog.View())
      modifies this, service, service.store, link
      ensures Valid() && Handled(ch, used, old(link.replies))
      ensures View() == GatewaySession.Send(Conf(), old(View()), id, name, args, did, gid, used)
    {
      hide Valid, View, GatewaySession.Settle, GatewaySession.Hop;
      var r: F.Reply;
      ghost var x: L.Exchange;
      r, x := Hop(gid, name, args);
      used := ch.(exchanges := [x]);
      OneReply(x);
      ghost var t := View();
      Settle(id, did, gid, r, ch);
      SettledAlike(Conf(), t, id, did, gid, r, ch, used);
    }

    // ----- dispatch -----------------------------------------------------------------

    method PassThrough(id: PyVal, m: string, params: PyVal, ch: Choice) returns (ghost used: Choice)
      requires Valid() && Steady(ch, service.catalog.View())
      modifies this`out, link
      ensures Valid() && Handled(ch, used, old(link.replies))
      ensures View() == GatewaySession.PassThrough(old(View()), id, m, params, used)
    {
      hide Invariant, F.Link.Valid, L.FramesOf, Reported;
      var r: F.Reply;
      ghost var x: L.Exchange;
      r, x := Call(m, params);
      used := ch.(exchanges := [x]);
      OneReply(x);
      Respond(Reported(id, r));
    }

    method AnswerList(id: PyVal, ch: Choice) returns (ghost used: Choice)
      requires Valid() && Steady(ch, service.catalog.View())
      modifies this`out, link
      ensures Valid() && Handled(ch, used, old(link.replies))
      ensures View() == GatewaySession.HandleList(Conf(), old(View()), id, used)
    {
      hide Invariant, F.Link.Valid, ListReply, L.ListFrames, L.Ending;
      ghost var xs := HandleList(id);
      used := ch.(exchanges := xs);
    }

    /** Every request that is not a tool call: no part of the service's state changes. */
    method HandleUngoverned(id: PyVal, m: string, params: PyVal, ch: Choice) returns (ghost used: Choice)
      requires Valid() && Steady(ch, service.catalog.View()) && !BucketOf(m).GovernedCall?
      modifies this`out, link
      ensures Valid() && Handled(ch, used, old(link.replies))
      ensures View() == GatewaySession.HandleRequest(Conf(), old(View()), id, m, params, used)
    {
      hide Valid, View, BucketOf, GatewaySession.PassThrough, GatewaySession.HandleList, GatewaySession.HandleCall, Say,
          Handled, Steady;
      if BucketOf(m).PassedThrough? {
        used := PassThrough(id, m, params, ch);
      } else if BucketOf(m).FilteredList? {
        used := AnswerList(id, ch);
      } else {
        used := ch.(exchanges := []);
      NothingAsked(ch);
        Respond(Refused(id, NotPermitted));
      }
    }

    method HandleRequest(id: PyVal, m: string, params: PyVal, ch: Choice) returns (ghost used: Choice)
      requires Valid() && Steady(ch, service.catalog.View())
      modifies this, service, service.store, link
      ensures Valid() && Handled(ch, used, old(link.replies))
      ensures View() == GatewaySession.HandleRequest(Conf(), old(View()), id, m, params, used)
    {
      hide Valid, View, BucketOf, GatewaySession.PassThrough, GatewaySession.HandleList, GatewaySession.HandleCall,
          Handled, Steady;
      if BucketOf(m).GovernedCall? {
        used := HandleCall(id, params, ch);
      } else {
        used := HandleUngoverned(id, m, params, ch);
      }
    }

    method HandleNotification(m: string, params: PyVal, ch: Choice) returns (ghost used: Choice)
      requires Valid() && Steady(ch, service.catalog.View())
      modifies link
      ensures Valid() && Handled(ch, used, old(link.replies))
      ensures View() == GatewaySession.HandleNotification(old(View()), m, params, used)
    {
      hide Invariant, F.Link.Valid;
      used := ch.(exchanges := []);
      NothingAsked(ch);
      if m == "notifications/initialized" {
        var ok := link.SendNotification(m, params);
        used := ch.(notified := ok, exchanges := []);
      }
    }

    method RefuseIf(id: Option<PyVal>, why: Refusal)
      modifies this`out
      ensures View() == GatewaySession.RefuseIf(old(View()), id, why)
    {
      if id.Some? { Respond(Refused(id.value, why)); }
    }

    /** `_handle_line`: shape checks in their order, then dispatch. */
    method HandleObject(msg: PyVal, ch: Choice) returns (ghost used: Choice)
      requires Valid() && Steady(ch, service.catalog.View())
      modifies this, service, service.store, link
      ensures Valid() && Handled(ch, used, old(link.replies))
      ensures View() == GatewaySession.HandleObject(Conf(), old(View()), msg, used)
    {
      hide Valid, View, Handled, Steady, Invariant, F.Link.Valid, GatewaySession.HandleRequest,
           GatewaySession.HandleNotification, GatewaySession.RefuseIf, D.Field;
      used := ch.(exchanges := []);
      NothingAsked(ch);
      var id, m, params := D.Field(msg, "id"), D.Field(msg, "method"), D.Field(msg, "params");
      if D.Field(msg, "jsonrpc") != Some(Str("2.0")) {
        RefuseIf(id, WrongVersion);
        return;
      }
      if m.None? || !m.value.Str? || m.value.s == "" {
        RefuseIf(id, NoMethod);
        return;
      }
      if params.Some? && !params.value.None_? && !params.value.Dict? {
        RefuseIf(id, BadParams);
        return;
      }
      if id.None? {
        used := HandleNotification(m.value.s, ParamsOf(params), ch);
      } else {
        used := HandleRequest(id.value, m.value.s, ParamsOf(params), ch);
      }
    }

    method HandleLine(line: string, ch: Choice) returns (ghost used: Choice)
      requires Valid() && Steady(ch, service.catalog.View())
      modifies this, service, service.store, link
      ensures Valid() && Handled(ch, used, old(link.replies))
      ensures View() == Handle(Conf(), old(View()), line, used)
    {
      hide Valid, View, Handled, Steady, GatewaySession.HandleObject;
      used := ch.(exchanges := []);
      NothingAsked(ch);
      var msg := parse(line);
      if msg.None? {
        Respond(Refused(None_, BadJson));
      } else if msg.value.List? {
        Respond(Refused(None_, Batch));
      } else if !msg.value.Dict? {
        Respond(Refused(None_, Refusal.NotAnObject));
      } else {
        used := HandleObject(msg.value, ch);
      }
    }

    method ActOn(a: C.Action, ch: Choice) returns (ghost used: Choice)
      requires Valid() && Steady(ch, service.catalog.View())
      modifies this, service, service.store, link
      ensures Valid() && Handled(ch, used, old(link.replies)) && Possible(used) && SameButDownstream(ch, used)
      ensures link.replies == old(link.replies) + Replies(used.exchanges)
      ensures View() == Act(Conf(), old(View()), InputOf(a), used)
    {
      hide Valid, View, Handled, Steady, Handle;
      used := ch.(exchanges := []);
      NothingAsked(ch);
      if a.RefuseOversized? {
        Respond(Refused(None_, Oversized));
      } else {
        used := HandleLine(a.line, ch);
      }
      HandledIsPossible(ch, used, old(link.replies));
    }

    /** `run`: the client's text is read a line at a time and each line refused or handled
        before the next is read. The whole run is a session of the step machine over exactly
        those lines, and stays within what the gateway may forward. */
    method RunSession(client: C.Client, chs: seq<Choice>) returns (ghost steps: seq<(Input, Choice)>)
      requires Valid() && GatewaySafety.Safe(Conf(), View()) && client.space('\n')
      requires |chs| == |C.Reading(client.space, client.input)|
      requires forall i :: 0 <= i < |chs| ==> Steady(chs[i], service.catalog.View())
      modifies this, service, service.store, link, client
      ensures Valid() && client.input == ""
      ensures AllPossible(steps) && Follows(steps, C.Reading(client.space, old(client.input)), chs)
      ensures View() == ActAll(Conf(), old(View()), steps) && GatewaySafety.Safe(Conf(), View())
      ensures link.replies == old(link.replies) + AllReplies(steps)
    {
      hide Replies, Valid, View, Act, SameButDownstream, Steady, Possible, C.Reading, GatewaySafety.Safe;
      ghost var s := View();
      ghost var c := service.catalog.View();
      ghost var done: seq<C.Action> := [];
      steps := [];
      NoActs(Conf(), s);
      NoReplies(link.replies);
      var more, i := true, 0;
      while more
        invariant Valid() && AllPossible(steps) && service.catalog.View() == c
        invariant done + C.Reading(client.space, client.input) == C.Reading(client.space, old(client.input))
        invariant i == |done| <= |chs| && Follows(steps, done, chs[..i])
        invariant View() == ActAll(Conf(), s, steps)
        invariant link.replies == old(link.replies) + AllReplies(steps)
        invariant !more ==> client.input == "" && C.Reading(client.space, client.input) == []
        decreases more, |client.input|
      {
        var now: seq<C.Action>;
        ghost var t := client.input;
        more, now := client.Turn();
        C.NothingRead(client.space);
        Regroup(done, now, C.Reading(client.space, client.input));
        if now != [] {
          ghost var used := ActOn(now[0], chs[i]);
          AllRepliesSnoc(steps, InputOf(now[0]), used);
          Regroup(old(link.replies), AllReplies(steps), Replies(used.exchanges));
          OneMoreAct(Conf(), s, steps, InputOf(now[0]), used);
          OneMoreFollows(steps, done, chs, now[0], used);
          steps := steps + [(InputOf(now[0]), used)];
          i := i + 1;
        }
        done := done + now;
      }
      assert chs[..|chs|] == chs && done + [] == done;
      GatewaySafety.ActAllSafe(Conf(), s, steps);
    }
  }

  /** The branches of a redemption under the choices given, whatever the downstream does. */
  lemma SpendBranches(g: Config, s: Session, id: PyVal, name: string, args: PyVal, did: string, gid: string, ch: Choice,
                      used: Choice)
    requires Possible(ch) && SameButDownstream(ch, used) && Possible(used)
    ensures var (s2, r) := RedeemGrant(g.sha, Run(g.sha, s.store, ch.between), ch.later, gid, g.principal, args,
                                       ch.redeemed, ch.refused);
            Spend(g, s, id, name, args, did, gid, used)
            == if r.Failure? then Refuse(s.(store := s2), id, FaultRefusal(r.error))
               else if r.value.reason != Ok then
                 Refuse(s.(store := s2), id, RedeemDenied(ReasonText(r.value.reason), did, gid))
               else GatewaySession.Send(g, s.(store := s2), id, name, args, did, gid, used)
  {
    hide RedeemGrant, Run, GatewaySession.Send, Refuse, FaultRefusal, ReasonText;
  }

  lemma SettledAlike(g: Config, s: Session, id: PyVal, did: string, gid: string, r: F.Reply, ch: Choice, used: Choice)
    requires Possible(ch) && SameButDownstream(ch, used)
    ensures GatewaySession.Settle(g, s, id, did, gid, r, ch) == GatewaySession.Settle(g, s, id, did, gid, r, used)
  {
    hide RecordOutcome, Run, Reported;
  }

  /** The steps are these actions, in order, with these choices as far as they were given. */
  ghost predicate Follows(steps: seq<(Input, Choice)>, actions: seq<C.Action>, chs: seq<Choice>) {
    |steps| == |actions| == |chs|
    && forall i :: 0 <= i < |steps| ==> steps[i].0 == InputOf(actions[i]) && SameButDownstream(chs[i], steps[i].1)
  }

  lemma OneMoreFollows(steps: seq<(Input, Choice)>, actions: seq<C.Action>, chs: seq<Choice>, a: C.Action, used: Choice)
    requires |actions| < |chs| && Follows(steps, actions, chs[..|actions|]) && SameButDownstream(chs[|actions|], used)
    ensures Follows(steps + [(InputOf(a), used)], actions + [a], chs[..|actions| + 1])
  {
    hide SameButDownstream;
  }

  lemma NoActs(g: Config, s: Session)
    ensures ActAll(g, s, []) == s && AllPossible([])
  {
  }

  function InputOf(a: C.Action): Input { if a.RefuseOversized? then TooLong else Line(a.line) }

  lemma OneMoreAct(g: Config, s: Session, steps: seq<(Input, Choice)>, i: Input, ch: Choice)
    requires AllPossible(steps) && Possible(ch)
    ensures AllPossible(steps + [(i, ch)])
    ensures ActAll(g, s, steps + [(i, ch)]) == Act(g, ActAll(g, s, steps), i, ch)
  {
    assert (steps + [(i, ch)])[..|steps|] == steps;
  }

  lemma InvariantRows(sha: string -> Digest, s: Store)
    requires Invariant(sha, s)
    ensures RowsMatch(s)
  {
  }
}
