/** The gateway's surface by name: what each client message sends downstream, what is answered
    under which code, and that nothing else ever reaches the downstream. */
module GatewaySurface {
  import opened Wrappers
  import opened CanonicalJson
  import opened Documents
  import opened AuditBody
  import opened Ledger
  import opened ToolCatalog
  import opened ServiceCalls
  import opened GatewaySession
  import opened GatewayForwarding
  import A = ServiceAnswers
  import S = GatewaySafety
  import CA = ConcurrentAuthorize
  import L = ToolListing
  import F = Framing

  // ----- every frame of every session -----------------------------------------------

  /** One of four requests, the end of the handshake, or the refusal of a reverse request. */
  predicate OnSurface(f: F.Frame) {
    || (f.Request? && (f.method_ == "initialize" || f.method_ == "ping" || f.method_ == "tools/list"
                       || f.method_ == "tools/call"))
    || (f.Notify? && f.method_ == "notifications/initialized")
    || f.MethodNotFound?
  }

  predicate AllOnSurface(fs: seq<F.Frame>) { forall k :: 0 <= k < |fs| ==> OnSurface(fs[k]) }

  /** What one message may do besides touching the store: send frames of the surface, and enter
      at most one forwarded call, under the catalog in memory at its redemption. */
  predicate Mannered(s: Session, t: Session, later: State) {
    && s.sent <= t.sent && AllOnSurface(t.sent[|s.sent|..])
    && (t.forwards == s.forwards
        || (|t.forwards| == |s.forwards| + 1 && t.forwards[..|s.forwards|] == s.forwards
            && t.forwards[|s.forwards|].cat == later))
  }

  lemma Quietly(s: Session, t: Session, later: State)
    requires t.sent == s.sent && t.forwards == s.forwards
    ensures Mannered(s, t, later)
  {
  }

  lemma Sending(s: Session, t: Session, fs: seq<F.Frame>, later: State)
    requires t.sent == s.sent + fs && AllOnSurface(fs) && t.forwards == s.forwards
    ensures Mannered(s, t, later)
  {
    assert t.sent[|s.sent|..] == fs;
  }

  lemma Earlier(s: Session, u: Session, t: Session, later: State)
    requires u.sent == s.sent && u.forwards == s.forwards && Mannered(u, t, later)
    ensures Mannered(s, t, later)
  {
  }

  lemma FramesOnSurface(x: L.Exchange, m: string, params: PyVal)
    requires m == "initialize" || m == "ping" || m == "tools/list" || m == "tools/call"
    ensures AllOnSurface(L.FramesOf(x, m, params))
  {
  }

  lemma {:induction false} ListOnSurface(st: L.Progress, xs: seq<L.Exchange>)
    ensures AllOnSurface(L.ListFrames(st, xs))
    decreases |xs|
  {
    hide L.Turn, L.FramesOf, OnSurface;
    if xs != [] {
      var t := L.Turn(st, xs[0].reply);
      FramesOnSurface(xs[0], "tools/list", L.CursorParams(st.cursor));
      if t.More? { ListOnSurface(t.next, xs[1..]); }
    }
  }

  lemma SendMannered(g: Config, s: Session, id: PyVal, name: string, args: PyVal, did: string, gid: string, ch: Choice)
    requires Possible(ch)
    ensures Mannered(s, Send(g, s, id, name, args, did, gid, ch), ch.later)
  {
    hide Run, RecordOutcome, L.FramesOf, CallParams, OnSurface, Reported, Offered;
    var fs := L.FramesOf(Offered(ch), "tools/call", CallParams(name, args));
    FramesOnSurface(Offered(ch), "tools/call", CallParams(name, args));
    assert (s.sent + fs)[|s.sent|..] == fs;
  }

  lemma SpendMannered(g: Config, s: Session, id: PyVal, name: string, args: PyVal, did: string, gid: string,
                      ch: Choice)
    requires Possible(ch)
    ensures Mannered(s, Spend(g, s, id, name, args, did, gid, ch), ch.later)
  {
    hide RedeemGrant, Run, Send, Mannered, ReasonText, FaultRefusal;
    var (s2, r) := RedeemGrant(g.sha, Run(g.sha, s.store, ch.between), ch.later, gid, g.principal, args, ch.redeemed,
                               ch.refused);
    var t := Spend(g, s, id, name, args, did, gid, ch);
    if r.Success? && r.value.reason == Ok {
      SendMannered(g, s.(store := s2), id, name, args, did, gid, ch);
      Earlier(s, s.(store := s2), t, ch.later);
    } else {
      Quietly(s, t, ch.later);
    }
  }

  lemma GovernedMannered(g: Config, s: Session, id: PyVal, name: string, args: PyVal, ch: Choice)
    requires Possible(ch)
    ensures Mannered(s, Governed(g, s, id, name, args, ch), ch.later)
  {
    hide Authorize, Run, Spend, Mannered, FaultRefusal;
    var (s1, r) := Asked(g, s, name, args, ch);
    var t := Governed(g, s, id, name, args, ch);
    if r.Success? && r.value.verdict.allowed && r.value.grant.Some? {
      SpendMannered(g, s.(store := s1), id, name, args, r.value.decisionId, r.value.grant.value.grantId, ch);
      Earlier(s, s.(store := s1), t, ch.later);
    } else {
      Quietly(s, t, ch.later);
    }
  }

  lemma RequestMannered(g: Config, s: Session, id: PyVal, m: string, params: PyVal, ch: Choice)
    requires Possible(ch)
    ensures Mannered(s, HandleRequest(g, s, id, m, params, ch), ch.later)
  {
    hide Governed, L.FramesOf, L.ListFrames, Mannered, ListReply, Reported, ToolNameOf, FrozenArgs, AllOnSurface;
    var t := HandleRequest(g, s, id, m, params, ch);
    match BucketOf(m)
    case PassedThrough =>
      FramesOnSurface(Offered(ch), m, params);
      Sending(s, t, L.FramesOf(Offered(ch), m, params), ch.later);
    case FilteredList =>
      ListOnSurface(L.FIRST, ch.exchanges);
      Sending(s, t, L.ListFrames(L.FIRST, ch.exchanges), ch.later);
    case GovernedCall =>
      if ToolNameOf(params).Some? && FrozenArgs(params).Dict? {
        GovernedMannered(g, s, id, ToolNameOf(params).value, FrozenArgs(params), ch);
      } else {
        Quietly(s, t, ch.later);
      }
    case Outside => Quietly(s, t, ch.later);
  }

  lemma NotificationMannered(s: Session, m: string, params: PyVal, ch: Choice)
    ensures Mannered(s, HandleNotification(s, m, params, ch), ch.later)
  {
    var t := HandleNotification(s, m, params, ch);
    Sending(s, t, if t.sent == s.sent then [] else [F.Notify(m, params)], ch.later);
  }

  lemma ActMannered(g: Config, s: Session, i: Input, ch: Choice)
    requires Possible(ch)
    ensures Mannered(s, Act(g, s, i, ch), ch.later)
  {
    hide HandleRequest, HandleNotification, Mannered, Field;
    var t := Act(g, s, i, ch);
    if t.sent == s.sent && t.forwards == s.forwards {
      Quietly(s, t, ch.later);
    } else {
      var msg := g.parse(i.text).value;
      var id, m, params := Field(msg, "id"), Field(msg, "method"), ParamsOf(Field(msg, "params"));
      if id.None? { NotificationMannered(s, m.value.s, params, ch); }
      else { RequestMannered(g, s, id.value, m.value.s, params, ch); }
    }
  }

  /** Whatever the client says and whatever the downstream answers: no frame ever sent is
      anything but one of these, and each forwarded call was redeemed under the catalog some
      message of the session found in memory. */
  lemma {:induction false} OnlyTheSurfaceIsSent(g: Config, store: Store, steps: seq<(Input, Choice)>)
    requires AllPossible(steps)
    ensures AllOnSurface(SessionOf(g, store, steps).sent)
    ensures forall f <- SessionOf(g, store, steps).forwards ::
              exists k :: 0 <= k < |steps| && steps[k].1.later == f.cat
  {
    hide Act, OnSurface;
    if steps != [] {
      var n := |steps| - 1;
      OnlyTheSurfaceIsSent(g, store, steps[..n]);
      var s, t := SessionOf(g, store, steps[..n]), SessionOf(g, store, steps);
      ActMannered(g, s, steps[n].0, steps[n].1);
      assert t.sent == s.sent + t.sent[|s.sent|..];
      forall f <- t.forwards ensures exists k :: 0 <= k < |steps| && steps[k].1.later == f.cat {
        if f in s.forwards {
          var k :| 0 <= k < n && steps[..n][k].1.later == f.cat;
          assert steps[k].1.later == f.cat;
        } else {
          assert steps[n].1.later == f.cat;
        }
      }
    }
  }

  // ----- requests by name -----------------------------------------------------------

  /** A request as JSON-RPC 2.0 has it: version, id, a method that is not empty, and params that
      are an object; absent or null ones count as an empty one. */
  predicate IsRequest(msg: PyVal, id: PyVal, m: string, params: PyVal) {
    && Field(msg, "jsonrpc") == Some(Str("2.0")) && Field(msg, "id") == Some(id)
    && Field(msg, "method") == Some(Str(m)) && m != ""
    && (Field(msg, "params") == Some(params) || (Field(msg, "params") in {None, Some(None_)} && params == Dict([])))
    && params.Dict?
  }

  /** The request itself, if it could be sent, and then only refusals of reverse requests. */
  predicate SentOnce(fs: seq<F.Frame>, x: L.Exchange, m: string, params: PyVal) {
    if !x.delivered then fs == []
    else
      && |fs| == 1 + |x.refused| && fs[0] == F.Request(x.id, m, params)
      && forall k :: 0 <= k < |x.refused| ==> fs[k + 1] == F.MethodNotFound(x.refused[k])
  }

  /** A result as it came, an error under its own code, or -32003 for a link that failed. */
  predicate Tell(r: ToClient, id: PyVal, reply: F.Reply) {
    match reply
    case Result(v) => r == Answered(id, v)
    case Rpc(e) => r == Refused(id, Relayed(e)) && HasCode(r, e.code)
    case Transport(f) => r == Refused(id, Unavailable(f)) && HasCode(r, -32003)
  }

  /** Only the client was answered. */
  predicate OnlyAnswers(s: Session, t: Session, id: PyVal, code: int) {
    && t == s.(out := t.out) && |t.out| == |s.out| + 1 && t.out[..|s.out|] == s.out
    && t.out[|s.out|].id == id && HasCode(t.out[|s.out|], code)
  }

  /** `initialize` and `ping` are passed on with their own method and params, and the answer is
      passed back. */
  predicate PassesOn(s: Session, t: Session, id: PyVal, m: string, params: PyVal, x: L.Exchange) {
    && t.store == s.store && t.forwards == s.forwards
    && |s.sent| <= |t.sent| && t.sent[..|s.sent|] == s.sent && SentOnce(t.sent[|s.sent|..], x, m, params)
    && |t.out| == |s.out| + 1 && t.out[..|s.out|] == s.out && Tell(t.out[|s.out|], id, x.reply)
  }

  /** A page request of the gateway's own: no cursor, or the one a page gave. */
  predicate AsksForPage(f: F.Frame) {
    f.Request? && f.method_ == "tools/list"
    && (f.params == Dict([])
        || (f.params.Dict? && |f.params.fields| == 1 && f.params.fields[0].key == StrKey("cursor")
            && f.params.fields[0].value.Str?))
  }

  predicate ListsPages(s: Session, t: Session) {
    && t.store == s.store && t.forwards == s.forwards && s.sent <= t.sent
    && (forall k :: |s.sent| <= k < |t.sent| ==> AsksForPage(t.sent[k]) || t.sent[k].MethodNotFound?)
  }

  /** What a call names: a nonempty text, and the arguments, which default to none. */
  predicate NamesTool(params: PyVal, name: string, args: PyVal) {
    && Field(params, "name") == Some(Str(name)) && name != "" && args.Dict?
    && (Field(params, "arguments") == Some(args)
        || (Field(params, "arguments") in {None, Some(None_)} && args == Dict([])))
  }

  lemma UsableCall(params: PyVal, name: string, args: PyVal)
    ensures NamesTool(params, name, args) <==>
              ToolNameOf(params) == Some(name) && FrozenArgs(params) == args && args.Dict?
  {
    hide ValueIn, Field;
  }

  lemma PassedOn(s: Session, id: PyVal, m: string, params: PyVal, ch: Choice)
    ensures PassesOn(s, PassThrough(s, id, m, params, ch), id, m, params, Offered(ch))
  {
    hide Offered;
    var x := Offered(ch);
    var fs := L.FramesOf(x, m, params);
    assert (s.sent + fs)[|s.sent|..] == fs && (s.sent + fs)[..|s.sent|] == s.sent;
  }

  lemma {:induction false} ListAsksForPages(st: L.Progress, xs: seq<L.Exchange>, k: nat)
    requires k < |L.ListFrames(st, xs)|
    ensures AsksForPage(L.ListFrames(st, xs)[k]) || L.ListFrames(st, xs)[k].MethodNotFound?
    decreases |xs|
  {
    hide L.Turn;
    var t := L.Turn(st, xs[0].reply);
    var fs := L.FramesOf(xs[0], "tools/list", L.CursorParams(st.cursor));
    if k >= |fs| && t.More? { ListAsksForPages(t.next, xs[1..], k - |fs|); }
  }

  lemma Listed(g: Config, s: Session, id: PyVal, ch: Choice)
    ensures ListsPages(s, HandleList(g, s, id, ch))
  {
    hide L.ListFrames, AsksForPage, L.Ending, ListReply;
    var fs := L.ListFrames(L.FIRST, ch.exchanges);
    forall k | 0 <= k < |fs| ensures AsksForPage(fs[k]) || fs[k].MethodNotFound? {
      ListAsksForPages(L.FIRST, ch.exchanges, k);
    }
  }

  lemma Answering(s: Session, id: PyVal, why: Refusal)
    ensures OnlyAnswers(s, Refuse(s, id, why), id, ErrorCode(why))
  {
    hide ErrorCode;
  }

  lemma RequestDispatched(g: Config, s: Session, msg: PyVal, id: PyVal, m: string, params: PyVal, ch: Choice)
    requires Possible(ch) && IsRequest(msg, id, m, params)
    ensures msg.Dict? && HandleObject(g, s, msg, ch) == HandleRequest(g, s, id, m, params, ch)
  {
    hide ValueIn, HandleRequest;
  }

  /** Each method by its name; every other one is refused under -32004 and touches nothing. */
  lemma RequestsByName(g: Config, s: Session, msg: PyVal, id: PyVal, m: string, params: PyVal, ch: Choice)
    requires Possible(ch) && IsRequest(msg, id, m, params)
    ensures var t := HandleObject(g, s, msg, ch);
            if m == "initialize" || m == "ping" then PassesOn(s, t, id, m, params, Offered(ch))
            else if m == "tools/list" then ListsPages(s, t)
            else if m != "tools/call" then OnlyAnswers(s, t, id, -32004)
            else
              && (forall name, args | NamesTool(params, name, args) :: t == Governed(g, s, id, name, args, ch))
              && ((forall name, args :: !NamesTool(params, name, args)) ==> OnlyAnswers(s, t, id, -32602))
  {
    hide HandleObject, IsRequest, PassThrough, HandleList, Governed, PassesOn, ListsPages, OnlyAnswers, NamesTool,
        Refuse, Offered;
    RequestDispatched(g, s, msg, id, m, params, ch);
    if m == "initialize" || m == "ping" {
      PassedOn(s, id, m, params, ch);
    } else if m == "tools/list" {
      Listed(g, s, id, ch);
    } else if m != "tools/call" {
      Answering(s, id, NotPermitted);
    } else {
      CallDispatched(g, s, id, params, ch);
    }
  }

  lemma CallDispatched(g: Config, s: Session, id: PyVal, params: PyVal, ch: Choice)
    requires Possible(ch)
    ensures var t := HandleCall(g, s, id, params, ch);
            && (forall name, args | NamesTool(params, name, args) :: t == Governed(g, s, id, name, args, ch))
            && ((forall name, args :: !NamesTool(params, name, args)) ==> OnlyAnswers(s, t, id, -32602))
  {
    hide Governed, OnlyAnswers, NamesTool, Refuse, ToolNameOf, FrozenArgs;
    forall name, args ensures NamesTool(params, name, args) <==>
        ToolNameOf(params) == Some(name) && FrozenArgs(params) == args && args.Dict? {
      UsableCall(params, name, args);
    }
    Answering(s, id, BadCall);
    if ToolNameOf(params).Some? && FrozenArgs(params).Dict? {
      assert NamesTool(params, ToolNameOf(params).value, FrozenArgs(params));
    }
  }

  /** A notification: the end of the handshake is passed on as it is, everything else dropped;
      nothing is answered. */
  lemma NotificationsByName(g: Config, s: Session, msg: PyVal, m: string, ch: Choice)
    requires Possible(ch) && msg.Dict? && Field(msg, "jsonrpc") == Some(Str("2.0")) && Field(msg, "id") == None
    requires Field(msg, "method") == Some(Str(m)) && m != ""
    ensures var t, v := HandleObject(g, s, msg, ch), Field(msg, "params");
            if m == "notifications/initialized" && ch.notified && (v == None || v == Some(None_) || v.value.Dict?)
            then t == s.(sent := s.sent + [F.Notify("notifications/initialized",
                                                    if v == None || v == Some(None_) then Dict([]) else v.value)])
            else t == s
  {
    hide ValueIn, Field;
  }

  /** A listed tool is shown when its name is a text and the tool of that name may run. */
  predicate Shown(c: State, sid: string, tool: PyVal) {
    tool.Dict? && Field(tool, "name").Some? && Field(tool, "name").value.Str?
    && A.MayRun(c, sid, Field(tool, "name").value.s)
  }

  /** What `tools/list` is answered: one object with the tools shown, each as often as listed
      and in that order; or the downstream's own error; or -32003. */
  lemma ListAnswers(g: Config, s: Session, id: PyVal, ch: Choice)
    ensures var t, end := HandleList(g, s, id, ch), L.Ending(L.FIRST, ch.exchanges);
            && |t.out| == |s.out| + 1 && t.out[..|s.out|] == s.out
            && var said := t.out[|s.out|];
               && (end.Done? ==> said == Answered(id, Dict([PyField(StrKey("tools"),
                                                                   List(L.Visible(ch.cat, g.sid, end.tools)))])))
               && (end.Stop? && end.fault.Relayed? ==>
                     said == Refused(id, Relayed(end.fault.e)) && HasCode(said, end.fault.e.code))
               && (end.Stop? && end.fault.Unavailable? ==> said.Refused? && said.id == id && HasCode(said, -32003))
  {
    hide L.ListFrames, L.Ending, L.Visible;
  }

  lemma ShownExactly(c: State, sid: string, tools: seq<PyVal>, tool: PyVal)
    ensures multiset(L.Visible(c, sid, tools))[tool] == if Shown(c, sid, tool) then multiset(tools)[tool] else 0
  {
    hide L.Visible, ValueIn, Field, A.MayRun, Invocable;
    L.VisibleExactly(c, sid, tools, tool);
    if tool.Dict? && Field(tool, "name").Some? && Field(tool, "name").value.Str? {
      A.InvocableMayRun(c, sid, Field(tool, "name").value.s);
    }
  }

  // ----- what is no request ---------------------------------------------------------

  /** Input that is no request, and the code it is refused under: -32700 when it is not JSON;
      -32600 when it is oversized, a batch, no object, of another version or without a method;
      -32602 when its params are no object. What cannot carry an id is answered with null, and
      a notification not at all. */
  lemma MalformedByName(g: Config, s: Session, i: Input, ch: Choice)
    requires Possible(ch)
    ensures var t := Act(g, s, i, ch);
            if i.TooLong? then OnlyAnswers(s, t, None_, -32600)
            else if g.parse(i.text) == None then OnlyAnswers(s, t, None_, -32700)
            else if !g.parse(i.text).value.Dict? then OnlyAnswers(s, t, None_, -32600)
            else
              var msg := g.parse(i.text).value;
              var id, method_, params := Field(msg, "id"), Field(msg, "method"), Field(msg, "params");
              var version := Field(msg, "jsonrpc") == Some(Str("2.0"));
              var named := method_.Some? && method_.value.Str? && method_.value.s != "";
              && (!version || !named ==> if id.Some? then OnlyAnswers(s, t, id.value, -32600) else t == s)
              && (version && named && params.Some? && params.value != None_ && !params.value.Dict? ==>
                    if id.Some? then OnlyAnswers(s, t, id.value, -32602) else t == s)
              && t == HandleObject(g, s, msg, ch)
  {
    hide ValueIn, Field, HandleRequest, HandleNotification, OnlyAnswers, Refuse;
    Answering(s, None_, BadJson);
    Answering(s, None_, Batch);
    Answering(s, None_, Refusal.NotAnObject);
    Answering(s, None_, Oversized);
    if i.Line? && g.parse(i.text).Some? && g.parse(i.text).value.Dict? {
      var id := Field(g.parse(i.text).value, "id");
      if id.Some? {
        Answering(s, id.value, WrongVersion);
        Answering(s, id.value, NoMethod);
        Answering(s, id.value, BadParams);
      }
    }
  }

  // ----- what a refused call is told ------------------------------------------------

  /** A denied call is told the verdict's reason and its decision, under -32001; one whose grant
      did not redeem the word of the reason, its decision and its grant, under -32002; one the
      service refused as malformed -32602. */
  lemma RefusalsByName(g: Config, s: Session, id: PyVal, name: string, args: PyVal, ch: Choice)
    requires Possible(ch)
    ensures var t := Governed(g, s, id, name, args, ch);
            var (s1, r) := Asked(g, s, name, args, ch);
            && |t.out| == |s.out| + 1
            && var said := t.out[|s.out|];
               && (r.Failure? && r.error.Status? ==> said.Refused? && said.id == id && HasCode(said, -32602))
               && (r.Success? && !r.value.verdict.allowed ==>
                     said == Refused(id, Denied(r.value.verdict.reason, r.value.decisionId)) && HasCode(said, -32001))
               && (r.Success? && r.value.verdict.allowed && r.value.grant.Some? ==>
                     var gid := r.value.grant.value.grantId;
                     var spent := Presented(g, s1, gid, args, ch);
                     spent.Success? && spent.value.reason != Ok ==>
                       && said.Refused? && said.id == id && HasCode(said, -32002)
                       && said.why.RedeemDenied? && said.why.decisionId == r.value.decisionId
                       && said.why.grantId == gid && A.KnownBy(spent.value.reason, said.why.reason))
  {
    hide Authorize, Run, Spend, RedeemGrant, Refuse, A.KnownBy;
    var (s1, r) := Asked(g, s, name, args, ch);
    var t := s.(store := s1);
    if r.Failure? {
      LastRefusal(t, id, FaultRefusal(r.error));
    } else if !r.value.verdict.allowed {
      LastRefusal(t, id, Denied(r.value.verdict.reason, r.value.decisionId));
    } else if r.value.grant.None? {
      LastRefusal(t, id, Refusal.Internal);
    } else {
      SpendTells(g, t, id, name, args, r.value.decisionId, r.value.grant.value.grantId, ch);
      SpendSays(g, t, id, name, args, r.value.decisionId, r.value.grant.value.grantId, ch);
    }
  }

  lemma SpendSays(g: Config, s: Session, id: PyVal, name: string, args: PyVal, did: string, gid: string, ch: Choice)
    requires Possible(ch)
    ensures var t, spent := Spend(g, s, id, name, args, did, gid, ch), Presented(g, s.store, gid, args, ch);
            spent.Success? && spent.value.reason != Ok ==>
              && |t.out| == |s.out| + 1
              && var said := t.out[|s.out|];
                 && said.Refused? && said.id == id && HasCode(said, -32002)
                 && said.why.RedeemDenied? && said.why.decisionId == did && said.why.grantId == gid
                 && A.KnownBy(spent.value.reason, said.why.reason)
  {
    hide Run, RedeemGrant, Send, ReasonText, A.KnownBy;
    var spent := Presented(g, s.store, gid, args, ch);
    if spent.Success? { A.ReasonWords(spent.value.reason); }
  }

  // ----- the evidence of a forwarded call, by name ----------------------------------

  /** A decision that allowed this principal this tool, recorded before `n`. */
  ghost predicate AllowedBefore(bs: seq<Body>, n: nat, did: string, principalId: string, sid: string, name: string) {
    exists d :: 0 <= d < n && d < |bs| && bs[d].Decision? && bs[d].decisionId == did && bs[d].allowed
                && bs[d].principal == principalId && bs[d].source == sid && bs[d].tool == name
  }

  /** What the frame, the grant and the records of a forwarded call say, field by field. */
  ghost predicate Evident(g: Config, s: Session, f: Forward) {
    && f.frame < |s.sent| && s.sent[f.frame].Request? && s.sent[f.frame].method_ == "tools/call"
    && s.sent[f.frame].params
       == Dict([PyField(StrKey("name"), Str(f.name)), PyField(StrKey("arguments"), f.args)])
    && g.principal.Some? && f.grantId in s.store.grants && f.record < |s.store.bodies|
    && CanonicalArgs(f.args).Success?
    && var gr, p := s.store.grants[f.grantId], g.principal.value.id;
       && gr.principalId == p && gr.sourceId == g.sid && gr.name == f.name
       && gr.argsHash == g.sha(CanonicalArgs(f.args).value)
       && s.store.bodies[f.record] == GrantRedeem(f.grantId, gr.decisionId, p, g.sid, f.name)
       && AllowedBefore(s.store.bodies, f.record, gr.decisionId, p, g.sid, f.name)
       && A.MayRun(f.cat, g.sid, f.name)
  }

  /** In every session, of every forwarded call; and the tool-call frames are exactly theirs. */
  lemma ForwardsAreEvident(g: Config, store: Store, steps: seq<(Input, Choice)>)
    requires AllPossible(steps)
    ensures forall f <- SessionOf(g, store, steps).forwards :: Evident(g, SessionOf(g, store, steps), f)
    ensures forall k :: 0 <= k < |SessionOf(g, store, steps).sent| ==>
              var fr := SessionOf(g, store, steps).sent[k];
              fr.Request? && fr.method_ == "tools/call" ==>
                exists f :: f in SessionOf(g, store, steps).forwards && f.frame == k
  {
    hide SessionOf, S.Governs, Evident, S.InOrder;
    S.EverySessionIsSafe(g, store, steps);
    var s := SessionOf(g, store, steps);
    forall f <- s.forwards ensures Evident(g, s, f) {
      var i :| 0 <= i < |s.forwards| && s.forwards[i] == f;
      GovernsIsEvident(g, s, s.forwards[i]);
    }
    forall k | 0 <= k < |s.sent| && S.IsToolCall(s.sent[k]) ensures exists f :: f in s.forwards && f.frame == k {
      var i :| 0 <= i < |s.forwards| && s.forwards[i].frame == k;
      assert s.forwards[i] in s.forwards;
    }
  }

  lemma GovernsIsEvident(g: Config, s: Session, f: Forward)
    requires S.Governs(g, s.store, s.sent, f)
    ensures Evident(g, s, f)
  {
    hide CanonicalArgs, Invocable, A.MayRun;
    A.InvocableMayRun(f.cat, g.sid, f.name);
    var gr := s.store.grants[f.grantId];
    var d :| 0 <= d < f.record && d < |s.store.bodies| && CA.Backs(s.store.bodies[d], gr);
    assert s.store.bodies[d].Decision?;
  }
}
