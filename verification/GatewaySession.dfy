/** A gateway session as a step machine (gateway.py `Gateway`): what one client message does,
    whatever the downstream answers and whoever else uses the store meanwhile. */
module GatewaySession {
  import opened Wrappers
  import opened CanonicalJson
  import opened AuditChain
  import opened Ledger
  import opened ToolCatalog
  import opened Policy
  import opened ServiceCalls
  import opened Documents
  import L = ToolListing
  import F = Framing

  /** Why the client is refused. */
  datatype Refusal =
    | BadJson | Batch | NotAnObject | Oversized | WrongVersion | NoMethod | BadParams | BadCall | BadRequest
    | NotPermitted | Internal
    | Denied(reason: string, decisionId: string)
    | RedeemDenied(reason: string, decisionId: string, grantId: string)
    | Unavailable(f: F.Fault)
    | Relayed(e: F.RpcError)

  /** The JSON-RPC error code of a refusal; a downstream error keeps its own. */
  function ErrorCode(r: Refusal): int {
    match r
    case BadJson => -32700
    case Batch => -32600
    case NotAnObject => -32600
    case Oversized => -32600
    case WrongVersion => -32600
    case NoMethod => -32600
    case BadParams => -32602
    case BadCall => -32602
    case BadRequest => -32602
    case NotPermitted => -32004
    case Internal => -32603
    case Denied(_, _) => -32001
    case RedeemDenied(_, _, _) => -32002
    case Unavailable(_) => -32003
    case Relayed(e) => e.code
  }

  datatype ToClient = Answered(id: PyVal, result: PyVal) | Refused(id: PyVal, why: Refusal)

  datatype Config = Config(sha: string -> Digest, pdp: Pdp, principal: Option<Principal>, sid: string,
                           parse: string -> Option<PyVal>)

  /** A `tools/call` that went out: its place among the frames, the place of its redemption
      among the audit records, and the catalog in memory when it was redeemed. */
  datatype Forward = Forward(frame: nat, record: nat, grantId: string, name: string, args: PyVal, cat: State)

  /** The store, the frames sent downstream, the replies to the client, and the history of
      forwarded calls. */
  datatype Session = Session(store: Store, sent: seq<F.Frame>, out: seq<ToClient>, forwards: seq<Forward>)

  /** All that is not the gateway's to decide about one message: what others do to the store
      before, between and after its own steps, the catalog it finds, what it draws, which
      appends fail, and how the downstream behaves. */
  datatype Choice = Choice(before: seq<Op>, between: seq<Op>, after: seq<Op>, cat: State, later: State, draw: Draw,
                           decided: Moment, issued: Moment, redeemed: Moment, refused: Moment,
                           recorded: Moment, closed: Moment, detail: string, exchanges: seq<L.Exchange>, notified: bool)

  predicate Possible(ch: Choice) { AllCallable(ch.before) && AllCallable(ch.between) && AllCallable(ch.after) }

  // ----- one message ----------------------------------------------------------------

  function Say(s: Session, r: ToClient): Session { s.(out := s.out + [r]) }

  function Refuse(s: Session, id: PyVal, why: Refusal): Session { Say(s, Refused(id, why)) }

  /** The answer to a request that has an id; a notification gets none. */
  function RefuseIf(s: Session, id: Option<PyVal>, why: Refusal): Session {
    if id.Some? then Refuse(s, id.value, why) else s
  }

  function ParamsOf(v: Option<PyVal>): PyVal { if v.None? || v.value.None_? then Dict([]) else v.value }

  function Handle(g: Config, s: Session, line: string, ch: Choice): Session
    requires Possible(ch)
  {
    match g.parse(line)
    case None => Refuse(s, None_, BadJson)
    case Some(msg) =>
      if msg.List? then Refuse(s, None_, Batch)
      else if !msg.Dict? then Refuse(s, None_, Refusal.NotAnObject)
      else HandleObject(g, s, msg, ch)
  }

  function HandleObject(g: Config, s: Session, msg: PyVal, ch: Choice): Session
    requires Possible(ch)
  {
    var id, m, params := Field(msg, "id"), Field(msg, "method"), Field(msg, "params");
    if Field(msg, "jsonrpc") != Some(Str("2.0")) then RefuseIf(s, id, WrongVersion)
    else if m.None? || !m.value.Str? || m.value.s == "" then RefuseIf(s, id, NoMethod)
    else if params.Some? && !params.value.None_? && !params.value.Dict? then RefuseIf(s, id, BadParams)
    else if id.None? then HandleNotification(s, m.value.s, ParamsOf(params), ch)
    else HandleRequest(g, s, id.value, m.value.s, ParamsOf(params), ch)
  }

  /** Only the end of the handshake is passed on; every other notification is dropped. */
  function HandleNotification(s: Session, method_: string, params: PyVal, ch: Choice): Session {
    if method_ == "notifications/initialized" && ch.notified then s.(sent := s.sent + [F.Notify(method_, params)])
    else s
  }

  /** The enumerated surface; every other method is refused. */
  datatype Bucket = PassedThrough | FilteredList | GovernedCall | Outside

  function BucketOf(method_: string): Bucket {
    if method_ == "initialize" || method_ == "ping" then PassedThrough
    else if method_ == "tools/list" then FilteredList
    else if method_ == "tools/call" then GovernedCall
    else Outside
  }

  function HandleRequest(g: Config, s: Session, id: PyVal, method_: string, params: PyVal, ch: Choice): Session
    requires Possible(ch)
  {
    match BucketOf(method_)
    case PassedThrough => PassThrough(s, id, method_, params, ch)
    case FilteredList => HandleList(g, s, id, ch)
    case GovernedCall => HandleCall(g, s, id, params, ch)
    case Outside => Refuse(s, id, NotPermitted)
  }

  /** The exchange the downstream offers next; when it offers none, the call times out. */
  function Offered(ch: Choice): L.Exchange {
    if ch.exchanges == [] then L.Exchange(false, 0, [], F.Transport(F.Timeout)) else ch.exchanges[0]
  }

  function Reported(id: PyVal, reply: F.Reply): ToClient {
    match reply
    case Result(v) => Answered(id, v)
    case Rpc(e) => Refused(id, Relayed(e))
    case Transport(f) => Refused(id, Unavailable(f))
  }

  function PassThrough(s: Session, id: PyVal, method_: string, params: PyVal, ch: Choice): Session {
    var x := Offered(ch);
    Say(s.(sent := s.sent + L.FramesOf(x, method_, params)), Reported(id, x.reply))
  }

  function ListReply(c: State, sid: string, id: PyVal, v: L.Verdict): ToClient {
    match v
    case Done(tools) => Answered(id, Dict([PyField(StrKey("tools"), List(L.Visible(c, sid, tools)))]))
    case Stop(Relayed(e)) => Refused(id, Relayed(e))
    case Stop(Unavailable(f)) => Refused(id, Unavailable(f))
    case More(_) => Refused(id, Internal)
  }

  function HandleList(g: Config, s: Session, id: PyVal, ch: Choice): Session {
    Say(s.(sent := s.sent + L.ListFrames(L.FIRST, ch.exchanges)),
        ListReply(ch.cat, g.sid, id, L.Ending(L.FIRST, ch.exchanges)))
  }

  // ----- the governed path ----------------------------------------------------------

  function CallParams(name: string, args: PyVal): PyVal {
    Dict([PyField(StrKey("name"), Str(name)), PyField(StrKey("arguments"), args)])
  }

  /** The tool name of a call, if it has a usable one. */
  function ToolNameOf(params: PyVal): Option<string> {
    if TextAt(params, "name") == "" then None else Some(TextAt(params, "name"))
  }

  /** The one argument object used for authorizing, redeeming and forwarding. */
  function FrozenArgs(params: PyVal): PyVal { ParamsOf(Field(params, "arguments")) }

  function AskFor(g: Config, name: string, args: PyVal): Ask {
    Ask(g.principal, g.sid, name, None, Some(args), None_)
  }

  function FaultRefusal(f: ServiceCalls.Fault): Refusal { if f.Status? then BadRequest else Internal }

  function HandleCall(g: Config, s: Session, id: PyVal, params: PyVal, ch: Choice): Session
    requires Possible(ch)
  {
    if ToolNameOf(params).None? || !FrozenArgs(params).Dict? then Refuse(s, id, BadCall)
    else Governed(g, s, id, ToolNameOf(params).value, FrozenArgs(params), ch)
  }

  /** Authorize with these arguments, and go on only with an allow and its grant. */
  function Governed(g: Config, s: Session, id: PyVal, name: string, args: PyVal, ch: Choice): Session
    requires Possible(ch)
  {
    var (s1, r) := Authorize(g.sha, g.pdp, Run(g.sha, s.store, ch.before), ch.cat, AskFor(g, name, args), ch.draw,
        ch.decided, ch.issued);
    var t := s.(store := s1);
    if r.Failure? then Refuse(t, id, FaultRefusal(r.error))
    else if !r.value.verdict.allowed then Refuse(t, id, Denied(r.value.verdict.reason, r.value.decisionId))
    else if r.value.grant.None? then Refuse(t, id, Internal)
    else Spend(g, t, id, name, args, r.value.decisionId, r.value.grant.value.grantId, ch)
  }

  /** Redeem the grant with the same arguments, and forward only when that is answered ok. */
  function Spend(g: Config, s: Session, id: PyVal, name: string, args: PyVal, did: string, gid: string,
                 ch: Choice): Session
    requires Possible(ch)
  {
    var (s2, r) := RedeemGrant(g.sha, Run(g.sha, s.store, ch.between), ch.later, gid, g.principal, args, ch.redeemed,
        ch.refused);
    var t := s.(store := s2);
    if r.Failure? then Refuse(t, id, FaultRefusal(r.error))
    else if r.value.reason != Ok then Refuse(t, id, RedeemDenied(ReasonText(r.value.reason), did, gid))
    else Send(g, t, id, name, args, did, gid, ch)
  }

  /** The frames of the call go out; a request that did is entered among the forwarded. */
  function Hop(s: Session, x: L.Exchange, gid: string, name: string, args: PyVal, cat: State): Session {
    s.(sent := s.sent + L.FramesOf(x, "tools/call", CallParams(name, args)),
       forwards := s.forwards + if x.delivered && s.store.bodies != []
                                then [Forward(|s.sent|, |s.store.bodies| - 1, gid, name, args, cat)] else [])
  }

  /** The outcome is recorded as best one can, and the client told what the downstream said. */
  function Settle(g: Config, s: Session, id: PyVal, did: string, gid: string, reply: F.Reply, ch: Choice): Session
    requires Possible(ch)
  {
    var outcome := if reply.Transport? then "error" else "executed";
    Say(s.(store := RecordOutcome(g.sha, Run(g.sha, s.store, ch.after), did, outcome, ch.detail, Some(gid),
                                  ch.recorded, ch.closed).0),
        Reported(id, reply))
  }

  /** Forward, then record and report. */
  function Send(g: Config, s: Session, id: PyVal, name: string, args: PyVal, did: string, gid: string,
                ch: Choice): Session
    requires Possible(ch)
  {
    Settle(g, Hop(s, Offered(ch), gid, name, args, ch.later), id, did, gid, Offered(ch).reply, ch)
  }

  // ----- sessions -------------------------------------------------------------------

  datatype Input = Line(text: string) | TooLong

  function Act(g: Config, s: Session, i: Input, ch: Choice): Session
    requires Possible(ch)
  {
    match i
    case TooLong => Refuse(s, None_, Oversized)
    case Line(text) => Handle(g, s, text, ch)
  }

  predicate AllPossible(steps: seq<(Input, Choice)>) { forall i :: 0 <= i < |steps| ==> Possible(steps[i].1) }

  /** A run of messages from where a session stands. */
  function ActAll(g: Config, s: Session, steps: seq<(Input, Choice)>): Session
    requires AllPossible(steps)
  {
    if steps == [] then s
    else
      var n := |steps| - 1;
      Act(g, ActAll(g, s, steps[..n]), steps[n].0, steps[n].1)
  }

  /** A whole session, over whatever the store holds when it begins. */
  function SessionOf(g: Config, store: Store, steps: seq<(Input, Choice)>): Session
    requires AllPossible(steps)
  {
    ActAll(g, Session(store, [], [], []), steps)
  }
}
