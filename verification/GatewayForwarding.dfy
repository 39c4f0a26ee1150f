/** When a governed call is forwarded: exactly when nothing stands in its way. */
module GatewayForwarding {
  import opened Wrappers
  import opened CanonicalJson
  import opened AuditChain
  import opened AuditBody
  import opened Ledger
  import opened Descriptor
  import opened ToolCatalog
  import opened Policy
  import opened ServiceCalls
  import opened GatewaySession
  import L = ToolListing
  import F = Framing

  /** The request is well-formed and allowed, and its grant can be recorded. */
  predicate GrantClear(g: Config, s: Store, name: string, args: PyVal, ch: Choice) {
    var a := AskFor(g, name, args);
    && !Malformed(a) && VerdictOn(g.pdp, ch.cat, a).allowed
    && !ch.decided.fault && !ch.issued.fault && ch.draw.grantId !in s.grants
  }

  /** The grant is presented in time, for a tool still invocable, and its use can be recorded. */
  predicate UseClear(g: Config, name: string, ch: Choice) {
    && ch.draw.grantId != "" && ch.redeemed.now < ch.draw.issued.instant + DEFAULT_TTL * MICROS
    && Invocable(ch.later, g.sid, name) && !ch.redeemed.fault
  }

  lemma GrantIssued(g: Config, s: Store, name: string, args: PyVal, ch: Choice)
    ensures var (t, r) := Authorize(g.sha, g.pdp, s, ch.cat, AskFor(g, name, args), ch.draw, ch.decided, ch.issued);
            && (GrantClear(g, s, name, args, ch) <==> r.Success? && r.value.verdict.allowed && r.value.grant.Some?)
            && (GrantClear(g, s, name, args, ch) ==>
                  && r.value.grant.value.grantId == ch.draw.grantId && ch.draw.grantId in t.grants
                  && t.grants[ch.draw.grantId] == GrantFor(g.sha, AskFor(g, name, args), ch.draw))
            && (r.Success? && r.value.verdict.allowed ==> r.value.grant.Some?)
  {
    hide KindOf, BodyText, NextRow, BrokerVerdict, CanonicalArgs, TtlOf, ArgsHash;
  }

  lemma GrantUsed(g: Config, t: Store, name: string, args: PyVal, ch: Choice)
    requires !Malformed(AskFor(g, name, args)) && ch.draw.grantId in t.grants
    requires t.grants[ch.draw.grantId] == GrantFor(g.sha, AskFor(g, name, args), ch.draw)
    ensures var r := RedeemGrant(g.sha, t, ch.later, ch.draw.grantId, g.principal, args, ch.redeemed, ch.refused).1;
            UseClear(g, name, ch) <==> r.Success? && r.value.reason == Ok
  {
    hide KindOf, BodyText, NextRow, CanonicalArgs, AppendBody;
  }

  /** What the client is told, and what goes out, when the call is or is not forwarded. */
  predicate Forwarded(s: Session, t: Session, id: PyVal, name: string, args: PyVal, ch: Choice) {
    && t.sent == s.sent + L.FramesOf(Offered(ch), "tools/call", CallParams(name, args))
    && t.out == s.out + [Reported(id, Offered(ch).reply)]
  }

  predicate Stopped(s: Session, t: Session, id: PyVal) {
    && t.sent == s.sent && |t.out| == |s.out| + 1 && t.out[..|s.out|] == s.out
    && t.out[|s.out|].Refused? && t.out[|s.out|].id == id
    && (var why := t.out[|s.out|].why; why.BadRequest? || why.Internal? || why.Denied? || why.RedeemDenied?)
  }

  lemma SpendForwards(g: Config, s: Session, id: PyVal, name: string, args: PyVal, did: string, ch: Choice)
    requires Possible(ch) && ch.between == []
    requires !Malformed(AskFor(g, name, args)) && ch.draw.grantId in s.store.grants
    requires s.store.grants[ch.draw.grantId] == GrantFor(g.sha, AskFor(g, name, args), ch.draw)
    ensures var t := Spend(g, s, id, name, args, did, ch.draw.grantId, ch);
            if UseClear(g, name, ch) then Forwarded(s, t, id, name, args, ch) else Stopped(s, t, id)
  {
    hide RedeemGrant, Run, RecordOutcome, L.FramesOf, Malformed, GrantFor, UseClear, Reported, Offered, CallParams,
        ReasonText;
    NothingRun(g.sha, s.store);
    GrantUsed(g, s.store, name, args, ch);
  }

  lemma NothingRun(sha: string -> Digest, s: Store)
    ensures Run(sha, s, []) == s
  {
  }

  /** With nobody else at the store, a call is forwarded, and the link's reply reported to the
      client, exactly when the request is well-formed and allowed, its records
      can be written, and the grant is presented in time for a tool still invocable. In every
      other case nothing is sent and the client is refused. */
  lemma ForwardedExactly(g: Config, s: Session, id: PyVal, name: string, args: PyVal, ch: Choice)
    requires Possible(ch) && ch.before == [] && ch.between == []
    ensures var t := Governed(g, s, id, name, args, ch);
            if GrantClear(g, s.store, name, args, ch) && UseClear(g, name, ch)
            then Forwarded(s, t, id, name, args, ch) else Stopped(s, t, id)
  {
    hide Authorize, Run, Spend, Malformed, GrantFor, GrantClear, UseClear, Forwarded, VerdictOn;
    NothingRun(g.sha, s.store);
    GrantIssued(g, s.store, name, args, ch);
    var (s1, r) := Authorize(g.sha, g.pdp, s.store, ch.cat, AskFor(g, name, args), ch.draw, ch.decided, ch.issued);
    if GrantClear(g, s.store, name, args, ch) {
      ClearAsk(g, s.store, name, args, ch);
      SpendForwards(g, s.(store := s1), id, name, args, r.value.decisionId, ch);
      SameStart(s, s.(store := s1), Governed(g, s, id, name, args, ch), id, name, args, ch);
    }
  }

  lemma ClearAsk(g: Config, s: Store, name: string, args: PyVal, ch: Choice)
    requires GrantClear(g, s, name, args, ch)
    ensures !Malformed(AskFor(g, name, args))
  {
  }

  lemma SameStart(s: Session, s1: Session, t: Session, id: PyVal, name: string, args: PyVal, ch: Choice)
    requires s1 == s.(store := s1.store)
    ensures Forwarded(s1, t, id, name, args, ch) ==> Forwarded(s, t, id, name, args, ch)
    ensures Stopped(s1, t, id) ==> Stopped(s, t, id)
  {
  }

  // ----- what the error codes mean --------------------------------------------------

  /** The code the client reads; it sees nothing else of where a refusal came from. */
  predicate HasCode(r: ToClient, code: int) { r.Refused? && ErrorCode(r.why) == code }

  const DENIED := -32001
  const REDEEM_DENIED := -32002
  const UNAVAILABLE := -32003
  const NOT_PERMITTED := -32004
  const GATEWAY_CODES := {DENIED, REDEEM_DENIED, UNAVAILABLE, NOT_PERMITTED}

  /** The downstream answered with an error under this very code. */
  predicate Relays(reply: F.Reply, code: int) { reply.Rpc? && reply.e.code == code }

  /** What the service answers to the two questions a governed call asks of it. */
  function Asked(g: Config, s: Session, name: string, args: PyVal, ch: Choice)
    : (Store, Result<Answer, ServiceCalls.Fault>)
    requires Possible(ch)
  {
    Authorize(g.sha, g.pdp, Run(g.sha, s.store, ch.before), ch.cat, AskFor(g, name, args), ch.draw, ch.decided,
              ch.issued)
  }

  function Presented(g: Config, s: Store, gid: string, args: PyVal, ch: Choice): Result<RedeemReply, ServiceCalls.Fault>
    requires Possible(ch)
  {
    RedeemGrant(g.sha, Run(g.sha, s, ch.between), ch.later, gid, g.principal, args, ch.redeemed, ch.refused).1
  }

  /** Where a governed call ended. */
  datatype End = AskFailed | AskDenied | SpendFailed | SpendDenied | Sent(reply: F.Reply)

  function EndOf(g: Config, s: Session, name: string, args: PyVal, ch: Choice): End
    requires Possible(ch)
  {
    var (s1, r) := Asked(g, s, name, args, ch);
    if r.Failure? then AskFailed
    else if !r.value.verdict.allowed then AskDenied
    else if r.value.grant.None? then AskFailed
    else SpendEnd(Presented(g, s1, r.value.grant.value.grantId, args, ch), Offered(ch).reply)
  }

  function SpendEnd(spent: Result<RedeemReply, ServiceCalls.Fault>, reply: F.Reply): End {
    if spent.Failure? then SpendFailed
    else if spent.value.reason != Ok then SpendDenied
    else Sent(reply)
  }

  /** The gateway's own word for such an end. */
  predicate OwnCode(e: End, code: int) {
    (code == DENIED && e.AskDenied?) || (code == REDEEM_DENIED && e.SpendDenied?)
    || (code == UNAVAILABLE && e.Sent? && e.reply.Transport?)
  }

  /** For each of the four codes: the client sees it exactly when the call ended so, or the
      call was sent and the downstream used that code itself. */
  ghost predicate Tells(r: ToClient, e: End) {
    forall code <- GATEWAY_CODES :: HasCode(r, code) <==> OwnCode(e, code) || (e.Sent? && Relays(e.reply, code))
  }

  lemma LastRefusal(s: Session, id: PyVal, why: Refusal)
    ensures |Refuse(s, id, why).out| == |s.out| + 1 && Refuse(s, id, why).out[|s.out|] == Refused(id, why)
  {
  }

  lemma SendReply(g: Config, s: Session, id: PyVal, name: string, args: PyVal, did: string, gid: string, ch: Choice)
    requires Possible(ch)
    ensures var t := Send(g, s, id, name, args, did, gid, ch);
            |t.out| == |s.out| + 1 && t.out[|s.out|] == Reported(id, Offered(ch).reply)
  {
    hide Run, RecordOutcome, L.FramesOf, CallParams, Reported, Offered;
  }

  lemma FaultTells(id: PyVal, f: ServiceCalls.Fault)
    ensures Tells(Refused(id, FaultRefusal(f)), AskFailed) && Tells(Refused(id, FaultRefusal(f)), SpendFailed)
    ensures Tells(Refused(id, Refusal.Internal), AskFailed)
  {
  }

  lemma DenialTells(id: PyVal, reason: string, did: string, gid: string)
    ensures Tells(Refused(id, Denied(reason, did)), AskDenied)
    ensures Tells(Refused(id, RedeemDenied(reason, did, gid)), SpendDenied)
  {
  }

  lemma ReportTells(id: PyVal, reply: F.Reply)
    ensures Tells(Reported(id, reply), Sent(reply))
  {
  }

  lemma SpendTells(g: Config, s: Session, id: PyVal, name: string, args: PyVal, did: string, gid: string, ch: Choice)
    requires Possible(ch)
    ensures var t := Spend(g, s, id, name, args, did, gid, ch);
            && |t.out| == |s.out| + 1
            && Tells(t.out[|s.out|], SpendEnd(Presented(g, s.store, gid, args, ch), Offered(ch).reply))
  {
    hide RedeemGrant, Run, Send, Refuse, ReasonText, Offered, Tells, FaultRefusal;
    var (s2, r) := RedeemGrant(g.sha, Run(g.sha, s.store, ch.between), ch.later, gid, g.principal, args, ch.redeemed,
                               ch.refused);
    var t := s.(store := s2);
    if r.Failure? {
      LastRefusal(t, id, FaultRefusal(r.error));
      FaultTells(id, r.error);
    } else if r.value.reason != Ok {
      LastRefusal(t, id, RedeemDenied(ReasonText(r.value.reason), did, gid));
      DenialTells(id, ReasonText(r.value.reason), did, gid);
    } else {
      SendReply(g, t, id, name, args, did, gid, ch);
      ReportTells(id, Offered(ch).reply);
    }
  }

  /** What the four codes tell the client of a governed call, relayed errors included. */
  lemma CodesTell(g: Config, s: Session, id: PyVal, name: string, args: PyVal, ch: Choice)
    requires Possible(ch)
    ensures var t := Governed(g, s, id, name, args, ch);
            |t.out| == |s.out| + 1 && Tells(t.out[|s.out|], EndOf(g, s, name, args, ch))
  {
    hide Authorize, Run, Spend, Presented, Offered, Refuse, Tells, FaultRefusal, SpendEnd;
    var (s1, r) := Asked(g, s, name, args, ch);
    var t := s.(store := s1);
    if r.Failure? {
      LastRefusal(t, id, FaultRefusal(r.error));
      FaultTells(id, r.error);
    } else if !r.value.verdict.allowed {
      LastRefusal(t, id, Denied(r.value.verdict.reason, r.value.decisionId));
      DenialTells(id, r.value.verdict.reason, r.value.decisionId, "");
    } else if r.value.grant.None? {
      LastRefusal(t, id, Refusal.Internal);
      FaultTells(id, KeyMissing);
    } else {
      SpendTells(g, t, id, name, args, r.value.decisionId, r.value.grant.value.grantId, ch);
    }
  }

  /** The gateway's codes are documented never to collide with the downstream's. They do not,
      and a code says where a call ended, exactly when the downstream did not answer with one
      of the four: a condition on its reply alone. */
  lemma CodesAreTheGatewaysOwnIff(g: Config, s: Session, id: PyVal, name: string, args: PyVal, ch: Choice)
    requires Possible(ch)
    ensures var t := Governed(g, s, id, name, args, ch);
            var e := EndOf(g, s, name, args, ch);
            && |t.out| == |s.out| + 1
            && ((forall code <- GATEWAY_CODES :: HasCode(t.out[|s.out|], code) <==> OwnCode(e, code))
                <==> !(e.Sent? && e.reply.Rpc? && e.reply.e.code in GATEWAY_CODES))
  {
    hide EndOf, Governed, HasCode;
    CodesTell(g, s, id, name, args, ch);
    var e, r := EndOf(g, s, name, args, ch), Governed(g, s, id, name, args, ch).out[|s.out|];
    if e.Sent? && e.reply.Rpc? && e.reply.e.code in GATEWAY_CODES {
      assert HasCode(r, e.reply.e.code) && !OwnCode(e, e.reply.e.code);
    }
  }

  /** A call that was allowed, redeemed and sent, whose client is told it was denied. */
  lemma ADownstreamErrorLooksLikeADenial(g: Config, s: Session, id: PyVal, name: string, args: PyVal, ch: Choice,
                                         message: string)
    requires Possible(ch) && ch.before == [] && ch.between == []
    requires GrantClear(g, s.store, name, args, ch) && UseClear(g, name, ch)
    requires Offered(ch) == L.Exchange(true, 1, [], F.Rpc(F.RpcError(DENIED, message, None)))
    ensures var t := Governed(g, s, id, name, args, ch);
            && |t.sent| == |s.sent| + 1 && t.sent[|s.sent|] == F.Request(1, "tools/call", CallParams(name, args))
            && |t.out| == |s.out| + 1 && HasCode(t.out[|s.out|], DENIED)
  {
    hide Governed, GrantClear, UseClear, CallParams, Offered;
    ForwardedExactly(g, s, id, name, args, ch);
    assert L.FramesOf(Offered(ch), "tools/call", CallParams(name, args))
        == [F.Request(1, "tools/call", CallParams(name, args))] + L.RefusalFrames([]);
  }

  // ----- the other methods ----------------------------------------------------------

  lemma PassedTells(s: Session, id: PyVal, m: string, params: PyVal, ch: Choice)
    ensures var t := PassThrough(s, id, m, params, ch);
            && |t.out| == |s.out| + 1
            && (HasCode(t.out[|s.out|], NOT_PERMITTED) <==> Relays(Offered(ch).reply, NOT_PERMITTED))
  {
    hide L.FramesOf, Offered;
  }

  /** The listing ended with an error of the downstream's under this code. */
  predicate ListRelays(v: L.Verdict, code: int) { v.Stop? && v.fault.Relayed? && v.fault.e.code == code }

  lemma ListTells(g: Config, s: Session, id: PyVal, ch: Choice)
    ensures var t := HandleList(g, s, id, ch);
            && |t.out| == |s.out| + 1
            && (HasCode(t.out[|s.out|], NOT_PERMITTED) <==> ListRelays(L.Ending(L.FIRST, ch.exchanges), NOT_PERMITTED))
  {
    hide L.ListFrames, L.Ending, L.Visible;
  }

  /** A usable `tools/call` was sent and answered with an error under this code. */
  predicate CallRelays(g: Config, s: Session, params: PyVal, ch: Choice, code: int)
    requires Possible(ch)
  {
    && ToolNameOf(params).Some? && FrozenArgs(params).Dict?
    && EndOf(g, s, ToolNameOf(params).value, FrozenArgs(params), ch).Sent?
    && Relays(EndOf(g, s, ToolNameOf(params).value, FrozenArgs(params), ch).reply, code)
  }

  lemma CallTells(g: Config, s: Session, id: PyVal, params: PyVal, ch: Choice)
    requires Possible(ch)
    ensures var t := HandleCall(g, s, id, params, ch);
            && |t.out| == |s.out| + 1
            && (HasCode(t.out[|s.out|], NOT_PERMITTED) <==> CallRelays(g, s, params, ch, NOT_PERMITTED))
  {
    hide Governed, ToolNameOf, FrozenArgs, EndOf, Refuse;
    if ToolNameOf(params).Some? && FrozenArgs(params).Dict? {
      CodesTell(g, s, id, ToolNameOf(params).value, FrozenArgs(params), ch);
    } else {
      LastRefusal(s, id, BadCall);
    }
  }

  /** -32004 exactly for a method outside the enumerated surface, or an error the downstream
      itself put under that code; and a method outside the surface touches nothing. */
  lemma NotPermittedExactly(g: Config, s: Session, id: PyVal, m: string, params: PyVal, ch: Choice)
    requires Possible(ch)
    ensures var t := HandleRequest(g, s, id, m, params, ch);
            && |t.out| == |s.out| + 1
            && (HasCode(t.out[|s.out|], NOT_PERMITTED) <==>
                  match BucketOf(m)
                  case Outside => true
                  case PassedThrough => Relays(Offered(ch).reply, NOT_PERMITTED)
                  case FilteredList => ListRelays(L.Ending(L.FIRST, ch.exchanges), NOT_PERMITTED)
                  case GovernedCall => CallRelays(g, s, params, ch, NOT_PERMITTED))
            && (BucketOf(m).Outside? ==> t == s.(out := t.out))
  {
    hide BucketOf, HandleCall, HandleList, PassThrough, Refuse, HasCode, CallRelays, ListRelays, Relays;
    match BucketOf(m)
    case PassedThrough => PassedTells(s, id, m, params, ch);
    case FilteredList => ListTells(g, s, id, ch);
    case GovernedCall => CallTells(g, s, id, params, ch);
    case Outside =>
      LastRefusal(s, id, NotPermitted);
      OutsideCode(id);
      RefusalOnly(s, id);
  }

  lemma OutsideCode(id: PyVal)
    ensures HasCode(Refused(id, NotPermitted), NOT_PERMITTED)
  {
  }

  lemma RefusalOnly(s: Session, id: PyVal)
    ensures Refuse(s, id, NotPermitted) == s.(out := Refuse(s, id, NotPermitted).out)
  {
  }

  /** A permitted method whose client is told it is not: the downstream said so itself. */
  lemma APingLooksUnpermitted(g: Config, s: Session, id: PyVal, params: PyVal, ch: Choice, message: string)
    requires Possible(ch)
    requires Offered(ch) == L.Exchange(true, 1, [], F.Rpc(F.RpcError(NOT_PERMITTED, message, None)))
    ensures var t := HandleRequest(g, s, id, "ping", params, ch);
            |t.out| == |s.out| + 1 && HasCode(t.out[|s.out|], NOT_PERMITTED)
  {
    hide PassThrough, Offered;
    PassedTells(s, id, "ping", params, ch);
  }

  // ----- answers, as the client gets them -------------------------------------------

  /** The client gets the result just as the downstream put it exactly when it is an object and
      no `error` key came with it. */
  lemma RelayedUnchangedIff(id: PyVal, m: F.Msg, v: PyVal)
    requires m.result == Some(v)
    ensures Reported(id, F.Answer(m)) == Answered(id, v) <==> m.error.None? && v.Dict?
  {
    F.ResultKeptExactly(m, v);
  }

  /** With the Cedar engine, only a call that some evaluation explicitly permitted, for a tool
      an operator vouched for, is forwarded; an engine that raises forwards nothing. */
  lemma ForwardedOnlyOnPermit(g: Config, s: Store, name: string, args: PyVal, ch: Choice,
                              evaluate: (Principal, ToolVersion, PyVal) -> Evaluation)
    requires g.pdp.decide == Cedar(evaluate) && GrantClear(g, s, name, args, ch)
    ensures (g.sid, name) in ch.cat.tools && g.principal.Some?
    ensures var e := evaluate(g.principal.value, ch.cat.tools[(g.sid, name)], Dict([]));
            e.Evaluated? && e.permit
  {
    hide CanonicalArgs, TtlOf, Decide;
    var tool := ch.cat.tools[(g.sid, name)];
    OnlyPermitAllows(tool, evaluate(g.principal.value, tool, Dict([])));
  }
}
