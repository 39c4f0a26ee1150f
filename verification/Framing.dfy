/** Newline framing of the downstream byte stream (gateway.py `_read_line`): what any
    sequence of reads has returned is fixed by the bytes alone. */
module Framing {
  import opened Wrappers
  import opened CanonicalJson
  import opened Documents

  newtype Byte = x: int | 0 <= x < 256

  const NL: Byte := 10
  const MAX_FRAME: nat := 8 * 1024 * 1024
  const CHUNK: nat := 65536

  type Line = seq<Byte>

  predicate NoNewline(b: seq<Byte>) { forall i :: 0 <= i < |b| ==> b[i] != NL }

  /** Lines, each followed by its newline. */
  function Join(lines: seq<Line>): seq<Byte> {
    if lines == [] then [] else Join(lines[..|lines| - 1]) + lines[|lines| - 1] + [NL]
  }

  predicate AllLines(lines: seq<Line>) { forall i :: 0 <= i < |lines| ==> NoNewline(lines[i]) }

  function FirstNewline(b: seq<Byte>): (k: nat)
    ensures k <= |b| && NoNewline(b[..k]) && (k < |b| ==> b[k] == NL)
  {
    if b == [] || b[0] == NL then 0
    else
      var k := 1 + FirstNewline(b[1..]);
      assert b[..k] == [b[0]] + b[1..][..k - 1];
      k
  }

  /** The plain split: the newline-terminated frames of a stream, in order. */
  function Frames(b: seq<Byte>): seq<Line>
    decreases |b|
  {
    var k := FirstNewline(b);
    if k == |b| then [] else [b[..k]] + Frames(b[k + 1..])
  }

  /** What follows the last newline. */
  function Unfinished(b: seq<Byte>): seq<Byte>
    decreases |b|
  {
    var k := FirstNewline(b);
    if k == |b| then b else Unfinished(b[k + 1..])
  }

  /** Every frame of the stream, finished or not, is within the cap. */
  predicate FitsCap(b: seq<Byte>) {
    (forall f <- Frames(b) :: |f| <= MAX_FRAME) && |Unfinished(b)| <= MAX_FRAME
  }

  lemma FirstNewlineIs(b: seq<Byte>, k: nat)
    requires k <= |b| && NoNewline(b[..k]) && (k < |b| ==> b[k] == NL)
    ensures FirstNewline(b) == k
  {
    hide FirstNewline;
    var m := FirstNewline(b);
  }

  lemma FramesOfLine(line: Line, rest: seq<Byte>)
    requires NoNewline(line)
    ensures Frames(line + [NL] + rest) == [line] + Frames(rest)
    ensures Unfinished(line + [NL] + rest) == Unfinished(rest)
  {
    var b := line + [NL] + rest;
    assert b[..|line|] == line && b[|line| + 1..] == rest;
    FirstNewlineIs(b, |line|);
  }

  /** Joining lines in front of a stream puts exactly those lines in front of its frames. */
  lemma {:induction false} FramesOfJoin(lines: seq<Line>, rest: seq<Byte>)
    requires AllLines(lines)
    ensures Frames(Join(lines) + rest) == lines + Frames(rest)
    ensures Unfinished(Join(lines) + rest) == Unfinished(rest)
  {
    hide Frames, Unfinished, FirstNewline, NoNewline;
    if lines == [] {
      assert Join(lines) + rest == rest;
    } else {
      var n := |lines| - 1;
      var tail := lines[n] + [NL] + rest;
      assert Join(lines) + rest == Join(lines[..n]) + tail;
      FramesOfJoin(lines[..n], tail);
      FramesOfLine(lines[n], rest);
      assert lines == lines[..n] + [lines[n]];
    }
  }

  /** However a stream was cut into chunks and reads, the lines taken so far are the first
      frames of the bytes seen; two readings of one stream agree as far as both go. */
  lemma ChunkingIndependent(stream: seq<Byte>, seen1: nat, lines1: seq<Line>, buf1: seq<Byte>,
                            seen2: nat, lines2: seq<Line>, buf2: seq<Byte>)
    requires seen1 <= seen2 <= |stream|
    requires AllLines(lines1) && stream[..seen1] == Join(lines1) + buf1
    requires AllLines(lines2) && stream[..seen2] == Join(lines2) + buf2
    ensures |lines1| <= |Frames(stream)| && lines1 == Frames(stream)[..|lines1|]
    ensures |lines2| <= |Frames(stream)| && lines2 == Frames(stream)[..|lines2|]
    ensures lines1 <= lines2 || lines2 <= lines1
  {
    hide Frames, Join, AllLines;
    LinesAreFrames(stream, seen1, lines1, buf1);
    LinesAreFrames(stream, seen2, lines2, buf2);
    var f := Frames(stream);
    if |lines1| <= |lines2| {
      assert lines1 == f[..|lines2|][..|lines1|];
    } else {
      assert lines2 == f[..|lines1|][..|lines2|];
    }
  }

  lemma LinesAreFrames(stream: seq<Byte>, seen: nat, lines: seq<Line>, buf: seq<Byte>)
    requires seen <= |stream| && AllLines(lines) && stream[..seen] == Join(lines) + buf
    ensures |lines| <= |Frames(stream)| && lines == Frames(stream)[..|lines|]
    ensures seen == |stream| && NoNewline(buf) ==> lines == Frames(stream) && buf == Unfinished(stream)
  {
    var rest := buf + stream[seen..];
    assert stream == Join(lines) + rest;
    FramesOfJoin(lines, rest);
    if seen == |stream| && NoNewline(buf) {
      assert rest == buf && buf[..|buf|] == buf;
      FirstNewlineIs(buf, |buf|);
    }
  }

  lemma OversizedBreaksCap(lines: seq<Line>, buf: seq<Byte>)
    requires AllLines(lines) && NoNewline(buf) && |buf| > MAX_FRAME
    ensures !FitsCap(Join(lines) + buf)
  {
    FramesOfJoin(lines, buf);
    assert buf[..|buf|] == buf;
    FirstNewlineIs(buf, |buf|);
  }

  /** A stream within the cap was within it all along. */
  lemma {:induction false} FitsCapPrefix(a: seq<Byte>, b: seq<Byte>)
    requires FitsCap(a + b)
    ensures FitsCap(a)
    decreases |a|
  {
    hide FirstNewline;
    var k := FirstNewline(a);
    if k < |a| {
      var rest := a[k + 1..];
      assert a[..k] + [NL] + rest == a && a[..k] + [NL] + (rest + b) == a + b;
      FramesOfLine(a[..k], rest);
      FramesOfLine(a[..k], rest + b);
      assert forall g <- Frames(rest + b) :: g in [a[..k]] + Frames(rest + b);
      FitsCapPrefix(rest, b);
    } else {
      UnfinishedPrefix(a, b);
    }
  }

  lemma UnfinishedPrefix(a: seq<Byte>, b: seq<Byte>)
    requires FirstNewline(a) == |a| && FitsCap(a + b)
    ensures |a| <= MAX_FRAME && Frames(a) == [] && Unfinished(a) == a
  {
    hide FirstNewline;
    var all := a + b;
    var k := FirstNewline(all);
    assert a[..|a|] == a;
    assert forall i :: 0 <= i < |a| ==> all[i] == a[i];
    if k < |all| { assert Frames(all)[0] == all[..k]; }
  }

  // ----- the reader -----------------------------------------------------------------

  /** One pass of the read loop: the deadline is found passed, nothing is ready, or a read
      returns bytes (none at end of stream). */
  datatype Event = Deadline | NotReady | Data(chunk: seq<Byte>)

  datatype Fault = Timeout | Truncated | Oversized | BrokenPipe | Malformed | Protocol

  /** The bytes the passes delivered. */
  function Delivered(es: seq<Event>): seq<Byte> {
    if es == [] then []
    else Delivered(es[..|es| - 1]) + if es[|es| - 1].Data? then es[|es| - 1].chunk else []
  }

  predicate Chunked(es: seq<Event>) { forall i :: 0 <= i < |es| && es[i].Data? ==> |es[i].chunk| <= CHUNK }

  /** An unfinished frame within the cap, or a finished one with less than a chunk behind it. */
  predicate Bounded(buf: seq<Byte>) {
    var k := FirstNewline(buf);
    if k == |buf| then |buf| <= MAX_FRAME else |buf| <= MAX_FRAME + CHUNK && |buf| - k - 1 < CHUNK
  }

  lemma AppendBounded(buf: seq<Byte>, chunk: seq<Byte>)
    requires NoNewline(buf) && |buf| <= MAX_FRAME && |chunk| <= CHUNK
    ensures Bounded(buf + chunk) || (NoNewline(buf + chunk) && |buf + chunk| > MAX_FRAME)
  {
    var k := FirstNewline(buf + chunk);
    assert (buf + chunk)[..|buf + chunk|] == buf + chunk;
  }

  /** A chunk after which the unfinished frame is dropped and the call fails. */
  predicate Dropped(buf: seq<Byte>, chunk: seq<Byte>) {
    NoNewline(buf + chunk) && |buf + chunk| > MAX_FRAME
  }

  /** The cap is only looked at while no newline has come: an unfinished frame is refused
      exactly when it has outgrown the cap, but one that ends inside the chunk is accepted
      whatever its length, which can exceed the cap by almost a chunk and never by more. */
  lemma FramesPassExactly(buf: seq<Byte>, chunk: seq<Byte>)
    requires NoNewline(buf) && |buf| <= MAX_FRAME && |chunk| <= CHUNK
    ensures !Dropped(buf, chunk) <==> !NoNewline(chunk) || |buf| + |chunk| <= MAX_FRAME
    ensures !NoNewline(chunk) ==> FirstNewline(buf + chunk) == |buf| + FirstNewline(chunk) < MAX_FRAME + CHUNK
  {
    hide FirstNewline, NoNewline;
    NewlinesAdd(buf, chunk);
    if !NoNewline(chunk) { NewlineAfter(buf, chunk); }
  }

  /** The same in numbers: frames end at byte 10, the cap is 8388608 bytes, and a read brings at
      most 65536. */
  lemma CapInBytes(buf: seq<Byte>, chunk: seq<Byte>)
    requires 10 !in buf && |buf| <= 8_388_608 && |chunk| <= 65_536
    ensures Dropped(buf, chunk) <==> 10 !in chunk && |buf| + |chunk| > 8_388_608
    ensures 10 in chunk ==>
              var k := FirstNewline(buf + chunk);
              && |buf| <= k < 8_388_608 + 65_536 && k < |buf + chunk| && (buf + chunk)[k] == 10
              && 10 !in (buf + chunk)[..k]
  {
    hide FirstNewline;
    FramesPassExactly(buf, chunk);
  }

  lemma NewlinesAdd(buf: seq<Byte>, chunk: seq<Byte>)
    ensures NoNewline(buf + chunk) <==> NoNewline(buf) && NoNewline(chunk)
  {
    var all := buf + chunk;
    if NoNewline(all) {
      assert forall i :: 0 <= i < |buf| ==> buf[i] == all[i];
      assert forall i :: 0 <= i < |chunk| ==> chunk[i] == all[|buf| + i];
    }
  }

  lemma NewlineAfter(buf: seq<Byte>, chunk: seq<Byte>)
    requires NoNewline(buf) && !NoNewline(chunk)
    ensures FirstNewline(chunk) < |chunk| && FirstNewline(buf + chunk) == |buf| + FirstNewline(chunk)
  {
    hide FirstNewline, NoNewline;
    var k := FirstNewline(chunk);
    assert chunk[..|chunk|] == chunk;
    var all := buf + chunk;
    assert all[..|buf| + k] == buf + chunk[..k];
    NewlinesAdd(buf, chunk[..k]);
    FirstNewlineIs(all, |buf| + k);
  }

  /** So the cap is not a limit on accepted frames: this one is a byte over, and passes. */
  lemma AnOverlongFrameCanPass()
    ensures var buf: seq<Byte>, chunk: seq<Byte> := seq(MAX_FRAME, _ => 0), [0, NL];
            NoNewline(buf) && !Dropped(buf, chunk) && FirstNewline(buf + chunk) == MAX_FRAME + 1
  {
    hide FirstNewline;
    var buf: seq<Byte>, chunk: seq<Byte> := seq(MAX_FRAME, _ => 0), [0, NL];
    FramesPassExactly(buf, chunk);
    FirstNewlineIs(chunk, 1);
  }

  lemma PopBounded(buf: seq<Byte>)
    requires Bounded(buf) && FirstNewline(buf) < |buf|
    ensures Bounded(buf[FirstNewline(buf) + 1..])
  {
  }

  lemma DeliveredSnoc(es: seq<Event>, e: Event)
    ensures Delivered(es + [e]) == Delivered(es) + if e.Data? then e.chunk else []
  {
    assert (es + [e])[..|es|] == es;
  }

  // ----- messages -------------------------------------------------------------------

  /** A JSON-RPC id as Python compares it: true is 1 and 3.0 is 3. */
  datatype RpcId = IntId(n: int) | BoolId(b: bool) | FloatId(r: real) | OtherId(text: string)

  predicate IdEquals(id: Option<RpcId>, n: int) {
    match id
    case None => false
    case Some(IntId(k)) => k == n
    case Some(BoolId(b)) => n == if b then 1 else 0
    case Some(FloatId(r)) => r == n as real
    case Some(OtherId(_)) => false
  }

  /** What is taken for the id in flight: that integer, the float equal to it, or a bool for the
      ids 0 and 1; never a text, and never nothing. */
  lemma IdsByPython(id: Option<RpcId>, n: int)
    ensures IdEquals(id, n) <==>
              || id == Some(IntId(n)) || id == Some(FloatId(n as real))
              || (n == 1 && id == Some(BoolId(true))) || (n == 0 && id == Some(BoolId(false)))
  {
  }

  datatype RpcError = RpcError(code: int, message: string, data: Option<PyVal>)

  /** A parsed frame. A null or absent id is None; `error` and `result` are the values under
      those keys, whatever they are, and None when the key is absent. */
  datatype Msg = Msg(version2: bool, id: Option<RpcId>, hasMethod: bool, error: Option<PyVal>, result: Option<PyVal>)
  datatype Parsed = NotJson | NotObject | Message(m: Msg)

  datatype Frame =
    | Request(id: int, method_: string, params: PyVal)
    | Notify(method_: string, params: PyVal)
    | MethodNotFound(to: RpcId)

  datatype Reply = Result(payload: PyVal) | Rpc(e: RpcError) | Transport(f: Fault)

  /** A request from the downstream server. */
  predicate Reverse(m: Msg) { m.hasMethod && m.id.Some? }

  /** The test the code makes: a reverse request, unless its id is the one in flight. */
  predicate Refused(m: Msg, req: int) { Reverse(m) && !IdEquals(m.id, req) }

  /** One refusal for each such request, in order. */
  function Refusals(ms: seq<Msg>, req: int): seq<Frame> {
    if ms == [] then []
    else
      var m := ms[|ms| - 1];
      Refusals(ms[..|ms| - 1], req) + if Refused(m, req) then [MethodNotFound(m.id.value)] else []
  }

  const INTERNAL_ERROR := -32603

  /** `int(err.get("code") or INTERNAL_ERROR)`, for a code that is an int, a bool or falsy. */
  function CodeOf(code: Option<PyVal>): int {
    match code
    case Some(Int(i)) => if i == 0 then INTERNAL_ERROR else i
    case Some(Bool(true)) => 1
    case _ => INTERNAL_ERROR
  }

  /** `str(err.get("message") or "downstream error")`, for a message that is text or falsy. */
  function MessageOf(message: Option<PyVal>): string {
    match message
    case Some(Str(text)) => if text == "" then "downstream error" else text
    case _ => "downstream error"
  }

  function DataOf(data: Option<PyVal>): Option<PyVal> { if data == Some(None_) then None else data }

  /** The error raised for an `error` value; one that is no object counts as an empty one. */
  function ErrorOf(error: PyVal): RpcError {
    RpcError(CodeOf(Field(error, "code")), MessageOf(Field(error, "message")), DataOf(Field(error, "data")))
  }

  /** What `call` makes of the message that carries its id: any `error` key makes it an error,
      and a result that is no object is replaced by an empty one. */
  function Answer(m: Msg): Reply {
    if m.error.Some? then Rpc(ErrorOf(m.error.value))
    else if m.result.None? then Transport(Protocol)
    else Result(if m.result.value.Dict? then m.result.value else Dict([]))
  }

  /** Results are documented to be relayed as they are: that holds exactly for an object that
      comes with no `error` key. */
  lemma ResultKeptExactly(m: Msg, v: PyVal)
    requires m.result == Some(v)
    ensures Answer(m) == Result(v) <==> m.error.None? && v.Dict?
  {
  }

  /** The error as raised says just what the error object said. */
  predicate Verbatim(e: RpcError, error: PyVal) {
    && Field(error, "code") == Some(Int(e.code)) && Field(error, "message") == Some(Str(e.message))
    && Field(error, "data") == e.data
  }

  /** Errors are documented to be relayed verbatim: that holds exactly for a nonzero integer
      code, a message that is not empty, and data that is not null. */
  lemma ErrorKeptExactly(error: PyVal)
    ensures Verbatim(ErrorOf(error), error) <==>
              && Field(error, "code").Some? && Field(error, "code").value.Int? && Field(error, "code").value.i != 0
              && TextAt(error, "message") != ""
              && Field(error, "data") != Some(None_)
  {
  }

  /** What stands in for an error's parts: -32603 for a code that is missing, null, 0 or false,
      and 1 for true; a fixed text for a message that is missing, null or empty. */
  lemma ErrorFallsBack(error: PyVal)
    ensures var code, message := Field(error, "code"), Field(error, "message");
      && (code == None || code.value in {None_, Int(0), Bool(false)} ==> ErrorOf(error).code == -32603)
      && (code == Some(Bool(true)) ==> ErrorOf(error).code == 1)
      && (message == None || message.value in {None_, Str("")} ==> ErrorOf(error).message == "downstream error")
  {
    hide ValueIn, Field;
  }

  /** A tool that answers with a bare string: the client is given an empty object. */
  lemma AStringResultIsLost(id: Option<RpcId>)
    ensures Answer(Msg(true, id, false, None, Some(Str("pong")))) == Result(Dict([]))
  {
  }

  /** A server that sends `"error": null` beside its result: the result of a call that ran is
      lost, and the client is told of an internal error. */
  lemma ANullErrorHidesTheResult(id: Option<RpcId>, v: PyVal)
    ensures Answer(Msg(true, id, false, Some(None_), Some(v))) == Rpc(RpcError(-32603, "downstream error", None))
  {
  }

  predicate AllSkipped(ms: seq<Msg>, req: int) { forall i :: 0 <= i < |ms| ==> !IdEquals(ms[i].id, req) }

  /** Request ids are handed out once, in order. */
  ghost predicate IdsInOrder(sent: seq<Frame>, nextId: int) {
    && (forall i :: 0 <= i < |sent| && sent[i].Request? ==> sent[i].id < nextId)
    && (forall i, j :: 0 <= i < j < |sent| && sent[i].Request? && sent[j].Request? ==> sent[i].id < sent[j].id)
  }

  // ----- calls made so far ----------------------------------------------------------

  /** A finished call: where its request stands among the frames sent, and what it returned. */
  datatype Ended = Ended(frame: nat, reply: Reply)

  /** A returned answer was made of a message that came while this request was in flight and
      carried its id; `during` holds the id in flight when each message came. */
  ghost predicate Backed(d: Ended, sent: seq<Frame>, received: seq<Msg>, during: seq<int>)
    requires |during| == |received|
  {
    && d.frame < |sent| && sent[d.frame].Request?
    && (d.reply.Transport?
        || exists i :: 0 <= i < |received| && MadeOf(d.reply, received[i], during[i], sent[d.frame].id))
  }

  predicate MadeOf(r: Reply, m: Msg, inFlight: int, id: int) {
    inFlight == id && IdEquals(m.id, id) && r == Answer(m)
  }

  ghost predicate AllBacked(calls: seq<Ended>, sent: seq<Frame>, received: seq<Msg>, during: seq<int>) {
    |during| == |received| && forall i :: 0 <= i < |calls| ==> Backed(calls[i], sent, received, during)
  }

  lemma BackedKept(calls: seq<Ended>, sent: seq<Frame>, sent': seq<Frame>, received: seq<Msg>, received': seq<Msg>,
                   during: seq<int>, during': seq<int>)
    requires AllBacked(calls, sent, received, during) && |during'| == |received'|
    requires sent <= sent' && received <= received' && during <= during'
    ensures AllBacked(calls, sent', received', during')
  {
    hide MadeOf;
    forall c | 0 <= c < |calls| ensures Backed(calls[c], sent', received', during') {
      var d := calls[c];
      assert Backed(d, sent, received, during);
      if !d.reply.Transport? {
        var i :| 0 <= i < |received| && MadeOf(d.reply, received[i], during[i], sent[d.frame].id);
        assert MadeOf(d.reply, received'[i], during'[i], sent'[d.frame].id);
      }
    }
  }

  lemma BackedSnoc(calls: seq<Ended>, d: Ended, sent: seq<Frame>, received: seq<Msg>, during: seq<int>)
    requires AllBacked(calls, sent, received, during) && Backed(d, sent, received, during)
    ensures AllBacked(calls + [d], sent, received, during)
  {
    hide Backed;
  }

  class Link {
    var buf: seq<Byte>
    var eof: bool
    var nextId: int
    /** What the operating system will let the read loop and the writes see. */
    var os: seq<Event>
    var writes: seq<bool>
    var sent: seq<Frame>
    const parse: seq<Byte> -> Parsed
    /** Bytes delivered and lines returned since the last over-long frame was dropped. */
    ghost var stream: seq<Byte>
    ghost var lines: seq<Line>
    /** Messages received, the id in flight when each came, and the calls they ended. */
    ghost var received: seq<Msg>
    ghost var during: seq<int>
    ghost var calls: seq<Ended>
    /** What each call returned, those that could not be sent included. */
    ghost var replies: seq<Reply>

    ghost predicate Valid()
      reads this
    {
      && AllLines(lines) && stream == Join(lines) + buf
      && Bounded(buf) && Chunked(os)
      && IdsInOrder(sent, nextId)
      && AllBacked(calls, sent, received, during)
    }

    /** What the link shows when a read fails: the deadline passed or the input ended with no
        whole line there; or the last line is no JSON; or it is no message of this protocol. */
    ghost predicate Shows(f: Fault)
      reads this
    {
      && (f == Timeout ==> NoNewline(buf) && (os == [] || os[0].Deadline?))
      && (f == Truncated ==> NoNewline(buf) && eof)
      && (f == Malformed ==> lines != [] && parse(lines[|lines| - 1]).NotJson?)
      && (f == Protocol ==>
            lines != [] && var p := parse(lines[|lines| - 1]); p.NotObject? || (p.Message? && !p.m.version2))
    }

    /** Bytes that can still become lines; what makes every wait end. */
    ghost function Pending(): nat
      reads this
    {
      |buf| + |Delivered(os)|
    }

    constructor (parse: seq<Byte> -> Parsed, os: seq<Event>, writes: seq<bool>)
      requires Chunked(os)
      ensures Valid() && fresh(this) && sent == [] && nextId == 1
      ensures stream == [] && lines == [] && buf == [] && calls == [] && received == [] && this.os == os
      ensures replies == [] && this.parse == parse && this.writes == writes && !eof
    {
      this.parse, this.os, this.writes := parse, os, writes;
      buf, eof, nextId, sent := [], false, 1, [];
      stream, lines := [], [];
      received, during, calls, replies := [], [], [], [];
    }

    /** Adds a chunk to an unfinished frame; drops it all when it has outgrown the cap. */
    method Absorb(chunk: seq<Byte>) returns (kept: bool)
      requires Valid() && FirstNewline(buf) == |buf| && |chunk| <= CHUNK
      modifies this`buf, this`stream, this`lines
      ensures Valid()
      ensures kept <==> !Dropped(old(buf), chunk)
      ensures kept ==> lines == old(lines) && stream == old(stream) + chunk && buf == old(buf) + chunk
      ensures !kept ==> buf == [] && !FitsCap(old(stream) + chunk)
    {
      hide Join, FitsCap, AllLines, FirstNewline, AllBacked;
      assert buf[..|buf|] == buf;
      AppendBounded(buf, chunk);
      buf := buf + chunk;
      assert stream + chunk == Join(lines) + buf;
      kept := !(NoNewline(buf) && |buf| > MAX_FRAME);
      if kept {
        stream := stream + chunk;
      } else {
        OversizedBreaksCap(lines, buf);
        JoinNone();
        buf, stream, lines := [], [], [];
      }
    }

    /** Takes the first line off the buffer. */
    method PopLine() returns (line: Line)
      requires Valid() && FirstNewline(buf) < |buf|
      modifies this`buf, this`lines
      ensures Valid() && lines == old(lines) + [line] && |buf| < |old(buf)|
    {
      hide Join, AllLines, FirstNewline, AllBacked;
      var k := FirstNewline(buf);
      line := buf[..k];
      PopBounded(buf);
      JoinSnoc(lines, line, buf[k + 1..]);
      assert buf == line + [NL] + buf[k + 1..];
      lines := lines + [line];
      buf := buf[k + 1..];
    }

    /** `_read_line`: one line, or a fault; only an over-long frame loses bytes. */
    method ReadLine() returns (r: Wrappers.Result<Line, Fault>)
      requires Valid()
      modifies this`buf, this`eof, this`os, this`stream, this`lines
      ensures Valid() && |os| <= |old(os)| && os == old(os)[|old(os)| - |os|..]
      ensures r.Success? || (r.error in {Timeout, Truncated, Oversized} && Shows(r.error))
      ensures var taken := old(os)[..|old(os)| - |os|];
              Deadline !in taken && (eof <==> old(eof) || Data([]) in taken)
      ensures r != Failure(Oversized) ==> stream == old(stream) + Delivered(old(os)[..|old(os)| - |os|])
      ensures r.Success? ==> lines == old(lines) + [r.value] && Pending() < old(Pending())
      ensures r.Failure? && r.error != Oversized ==> lines == old(lines)
      ensures r == Failure(Oversized) ==>
                buf == [] && !FitsCap(old(stream) + Delivered(old(os)[..|old(os)| - |os|]))
    {
      hide Join, FitsCap, AllLines, FirstNewline, Bounded, IdsInOrder, Delivered, AllBacked;
      ghost var n := 0;
      NothingDelivered(old(os));
      while FirstNewline(buf) == |buf|
        invariant n <= |old(os)| && os == old(os)[n..]
        invariant Deadline !in old(os)[..n] && (eof <==> old(eof) || Data([]) in old(os)[..n])
        invariant Valid() && lines == old(lines)
        invariant stream == old(stream) + Delivered(old(os)[..n])
        invariant Pending() == old(Pending())
        decreases |os|
      {
        NoneBefore(buf);
        if os == [] { return Failure(Timeout); }
        var e := os[0];
        if e.Deadline? { return Failure(Timeout); }
        if eof { return Failure(Truncated); }
        assert old(os)[..n + 1] == old(os)[..n] + [e];
        OneMoreDelivered(old(os), n);
        DeliveredHead(os);
        n := n + 1;
        os := os[1..];
        if e.NotReady? { continue; }
        if e.chunk == [] {
          eof := true;
          if buf == [] { return Failure(Truncated); }
          continue;
        }
        assert old(stream) + Delivered(old(os)[..n]) == stream + e.chunk;
        var kept := Absorb(e.chunk);
        if !kept { return Failure(Oversized); }
      }
      var line := PopLine();
      return Success(line);
    }

    /** Any number of reads, one after another, over whatever timeouts. On a stream within the
        cap none fails for size, and the lines are the first frames of all the bytes. */
    method ReadMany(tries: nat) returns (results: seq<Wrappers.Result<Line, Fault>>)
      requires Valid() && FitsCap(stream + Delivered(os))
      modifies this`buf, this`eof, this`os, this`stream, this`lines
      ensures Valid() && |results| == tries && Failure(Oversized) !in results
      ensures lines == old(lines) + LinesOf(results)
      ensures var all := Frames(old(stream + Delivered(os))); |lines| <= |all| && lines == all[..|lines|]
    {
      hide Join, FitsCap, AllLines, FirstNewline, Bounded, IdsInOrder, AllBacked, Frames, Delivered, LinesOf;
      ghost var all := stream + Delivered(os);
      results := [];
      NoLines();
      for i := 0 to tries
        invariant Valid() && |results| == i && Failure(Oversized) !in results
        invariant lines == old(lines) + LinesOf(results)
        invariant stream + Delivered(os) == all
      {
        ghost var os0, stream0 := os, stream;
        var r := ReadLine();
        ghost var n := |os0| - |os|;
        DeliveredSplit(os0, n);
        ghost var seen := stream0 + Delivered(os0[..n]);
        assert seen + Delivered(os) == all;
        FitsCapPrefix(seen, Delivered(os));
        LinesSnoc(results, r);
        results := results + [r];
      }
      LinesAreFrames(all, |stream|, lines, buf);
    }

    /** `_send`: the frame goes out whole, or the pipe is found broken. */
    method Send(f: Frame) returns (ok: bool)
      modifies this`sent, this`writes
      ensures ok <==> old(writes) != [] && old(writes)[0]
      ensures writes == if old(writes) == [] then [] else old(writes)[1..]
      ensures sent == if ok then old(sent) + [f] else old(sent)
    {
      ok := writes != [] && writes[0];
      if writes != [] { writes := writes[1..]; }
      if ok { sent := sent + [f]; }
    }

    /** `notify`: no reply is awaited, and the caller is told only whether the pipe held. */
    method SendNotification(method_: string, params: PyVal) returns (ok: bool)
      requires Valid()
      modifies this`sent, this`writes
      ensures ok <==> old(writes) != [] && old(writes)[0]
      ensures Valid() && sent == if ok then old(sent) + [Notify(method_, params)] else old(sent)
    {
      hide Join, AllLines, Bounded, Chunked, AllBacked;
      FrameKeepsIds(sent, nextId, Notify(method_, params));
      HistoryLengths();
      BackedKept(calls, sent, sent + [Notify(method_, params)], received, received, during, during);
      ok := Send(Notify(method_, params));
    }

    /** `_receive`: the next line as a JSON-RPC message. */
    method Receive() returns (r: Wrappers.Result<Msg, Fault>)
      requires Valid()
      modifies this`buf, this`eof, this`os, this`stream, this`lines, this`received, this`during
      ensures Valid() && (r.Success? ==> Pending() < old(Pending()))
      ensures r.Success? ==> received == old(received) + [r.value] && r.value.version2
      ensures r.Success? ==> during == old(during) + [nextId - 1]
      ensures r.Failure? ==> during == old(during)
      ensures r.Success? ==> exists line :: lines == old(lines) + [line] && parse(line) == Message(r.value)
      ensures r.Failure? ==> received == old(received) && Shows(r.error) && r.error != BrokenPipe
    {
      hide Join, FitsCap, AllLines, FirstNewline, Bounded, IdsInOrder, Delivered, AllBacked;
      var line := ReadLine();
      if line.Failure? { return Failure(line.error); }
      var p := parse(line.value);
      if p.NotJson? { return Failure(Malformed); }
      if p.NotObject? || !p.m.version2 { return Failure(Protocol); }
      HistoryLengths();
      BackedKept(calls, sent, sent, received, received + [p.m], during, during + [nextId - 1]);
      received, during := received + [p.m], during + [nextId - 1];
      return Success(p.m);
    }

    /** Draws the next request id and sends the request. */
    method Begin(method_: string, params: PyVal) returns (req: int, ok: bool)
      requires Valid()
      modifies this`nextId, this`sent, this`writes
      ensures Valid() && req == old(nextId) && nextId == req + 1
      ensures ok <==> old(writes) != [] && old(writes)[0]
      ensures writes == if old(writes) == [] then [] else old(writes)[1..]
      ensures sent == if ok then old(sent) + [Request(req, method_, params)] else old(sent)
    {
      hide Join, AllLines, Bounded, Chunked, IdsInOrder, Backed;
      req := nextId;
      FrameKeepsIds(sent, nextId, Request(req, method_, params));
      BackedKept(calls, sent, sent + [Request(req, method_, params)], received, received, during, during);
      nextId := nextId + 1;
      ok := Send(Request(req, method_, params));
    }

    /** A reverse request is refused; anything else that is no answer is passed over. */
    method PassOver(m: Msg, req: int) returns (ok: bool)
      requires Valid() && !IdEquals(m.id, req)
      modifies this`sent, this`writes
      ensures Valid() && Pending() == old(Pending())
      ensures ok ==> sent == old(sent) + if Refused(m, req) then [MethodNotFound(m.id.value)] else []
      ensures !ok ==> sent == old(sent)
      ensures Written(old(writes), writes, |sent| - |old(sent)|, ok)
    {
      hide Join, AllLines, Bounded, Chunked, IdsInOrder, IdEquals, Backed;
      ok := true;
      if m.hasMethod && m.id.Some? {
        BackedKept(calls, sent, sent + [MethodNotFound(m.id.value)], received, received, during, during);
        FrameKeepsIds(sent, nextId, MethodNotFound(m.id.value));
        ok := Send(MethodNotFound(m.id.value));
      }
    }

    /** Enters a call that has ended into the history. */
    ghost method Finish(d: Ended)
      requires Valid() && Backed(d, sent, received, during)
      modifies this`calls
      ensures Valid() && calls == old(calls) + [d]
    {
      hide Join, AllLines, Bounded, Chunked, IdsInOrder, Backed, AllBacked;
      BackedSnoc(calls, d, sent, received, during);
      calls := calls + [d];
    }

    /** Enters what a call returned into the history. */
    ghost method Enter(r: Reply)
      requires Valid()
      modifies this`replies
      ensures Valid() && replies == old(replies) + [r]
    {
      hide Join, AllLines, Bounded, Chunked, IdsInOrder, AllBacked;
      replies := replies + [r];
    }

    /** Waits for the message that carries the id of the request just sent; every reverse
        request met on the way is refused once. */
    method Await(ghost before: seq<Frame>, ghost f: Frame, req: int) returns (r: Reply)
      requires Valid() && nextId == req + 1 && f.Request? && f.id == req && sent == before + [f]
      modifies this`buf, this`eof, this`os, this`stream, this`lines, this`received, this`during, this`sent, this`writes
      ensures Valid() && old(received) <= received && before + [f] <= sent
      ensures CallOutcome(before, sent, f, received[|old(received)|..], r)
      ensures Faulted(received[|old(received)|..], req, r) ==> Shows(r.f)
      ensures Written(old(writes), writes, |sent| - |old(sent)|, r != Transport(BrokenPipe))
      ensures !r.Transport? ==>
          received != [] && during != [] && MadeOf(r, received[|received| - 1], during[|during| - 1], req)
    {
      hide Valid, Refusals, IdEquals, Pending, AllSkipped, CallOutcome, Refused, Answer, Written, Shows;
      ghost var ms: seq<Msg> := [];
      NoRefusals(req);
      NothingWritten(writes);
      while true
        invariant Valid()
        invariant received == old(received) + ms && AllSkipped(ms, req)
        invariant sent == before + [f] + Refusals(ms, req)
        invariant Written(old(writes), writes, |sent| - |old(sent)|, true)
        decreases Pending()
      {
        var got := Receive();
        assert received[|old(received)|..] == if got.Failure? then ms else ms + [got.value];
        if got.Failure? {
          NoAnswer(before, sent, f, ms, got.error);
          return Transport(got.error);
        }
        var m := got.value;
        if IdEquals(m.id, req) {
          GotAnswer(before, sent, f, ms, m);
          AnswersOnly(m);
          return Answer(m);
        }
        SkippedSnoc(ms, m, req);
        RefusalsSnoc(ms, m, req);
        ghost var ws, n := writes, |sent|;
        var passed := PassOver(m, req);
        WrittenOn(old(writes), ws, writes, n - |old(sent)|, |sent| - n, passed);
        if !passed {
          PipeBroke(before, sent, f, ms, m);
          return Transport(BrokenPipe);
        }
        ms := ms + [m];
      }
    }

    /** `call`: one request and its answer, or a fault. */
    method Call(method_: string, params: PyVal) returns (r: Reply)
      requires Valid()
      modifies this
      ensures Valid() && nextId == old(nextId) + 1 && old(received) <= received
      ensures CallOutcome(old(sent), sent, Request(old(nextId), method_, params), received[|old(received)|..], r)
      ensures calls == old(calls) + if |sent| == |old(sent)| then [] else [Ended(|old(sent)|, r)]
      ensures replies == old(replies) + [r]
      ensures Faulted(received[|old(received)|..], old(nextId), r) ==> Shows(r.f)
      ensures Written(old(writes), writes, |sent| - |old(sent)|, r != Transport(BrokenPipe))
      ensures |during| == |received|
      ensures forall truth: nat -> Reply ::
                HonestDownstream(sent, received, during, truth) && !r.Transport? ==> r == truth(|old(sent)|)
    {
      hide Valid, HonestDownstream, Refusals, IdEquals, AllSkipped, CallOutcome, Answer, MadeOf;
      ghost var before := sent;
      var req, ok := Begin(method_, params);
      ghost var f := Request(req, method_, params);
      if !ok {
        NothingSent(before, f);
        assert received[|old(received)|..] == [];
        HistoryLengths();
        Enter(Transport(BrokenPipe));
        return Transport(BrokenPipe);
      }
      ghost var ws, n := writes, |sent|;
      r := Await(before, f, req);
      WrittenOn(old(writes), ws, writes, 1, |sent| - n, r != Transport(BrokenPipe));
      HistoryLengths();
      Finish(Ended(|before|, r));
      Enter(r);
      forall truth: nat -> Reply | HonestDownstream(sent, received, during, truth) && !r.Transport?
        ensures r == truth(|before|)
      {
        RepliesAreTheirOwn(truth, |calls| - 1);
      }
    }

    /** At any moment, of any call made so far. */
    lemma RepliesAreTheirOwn(truth: nat -> Reply, c: nat)
      requires Valid() && |during| == |received| && HonestDownstream(sent, received, during, truth)
      requires c < |calls| && !calls[c].reply.Transport?
      ensures calls[c].reply == truth(calls[c].frame)
    {
      EveryReplyIsItsOwn(sent, nextId, calls, received, during, truth, c);
    }

    lemma HistoryLengths()
      requires Valid()
      ensures |during| == |received|
    {
    }
  }

  /** So many writes went through one after another; and, when not all did, the next failed. */
  predicate Written(before: seq<bool>, after: seq<bool>, k: int, all: bool) {
    && 0 <= k <= |before| && (forall j :: 0 <= j < k ==> before[j])
    && (if all then after == before[k..]
        else (k < |before| ==> !before[k]) && after == if k < |before| then before[k + 1..] else [])
  }

  lemma AnswersOnly(m: Msg)
    ensures Answer(m) != Transport(BrokenPipe)
  {
  }

  lemma NothingWritten(ws: seq<bool>)
    ensures Written(ws, ws, 0, true)
  {
  }

  lemma WrittenOn(a: seq<bool>, b: seq<bool>, c: seq<bool>, j: int, k: int, all: bool)
    requires Written(a, b, j, true) && Written(b, c, k, all)
    ensures Written(a, c, j + k, all)
  {
    assert forall i :: j <= i < j + k ==> a[i] == b[i - j];
    if j + k < |a| { assert b[k..] == a[j + k..]; }
  }

  /** A call that failed, but not for a broken pipe and not by its own answer. */
  predicate Faulted(ms: seq<Msg>, req: int, r: Reply) {
    r.Transport? && r.f != BrokenPipe && (ms == [] || !IdEquals(ms[|ms| - 1].id, req))
  }

  /** How a call ends, given the messages received for it: with the answer made of the first
      one that carries its id, which is the last, or with a fault; and every reverse request
      met before was refused once, unless the pipe broke on the way. */
  predicate CallOutcome(before: seq<Frame>, after: seq<Frame>, f: Frame, ms: seq<Msg>, r: Reply)
    requires f.Request?
  {
    var begun := before + [f];
    if ms != [] && IdEquals(ms[|ms| - 1].id, f.id)
    then AllSkipped(ms[..|ms| - 1], f.id) && r == Answer(ms[|ms| - 1])
         && after == begun + Refusals(ms[..|ms| - 1], f.id)
    else AllSkipped(ms, f.id) && r.Transport?
         && (after == begun + Refusals(ms, f.id)
             || (r.f == BrokenPipe && ms == [] && after == before)
             || (r.f == BrokenPipe && ms != [] && after == begun + Refusals(ms[..|ms| - 1], f.id)))
  }

  lemma NothingSent(before: seq<Frame>, f: Frame)
    requires f.Request?
    ensures CallOutcome(before, before, f, [], Transport(BrokenPipe))
  {
  }

  lemma NoAnswer(before: seq<Frame>, after: seq<Frame>, f: Frame, ms: seq<Msg>, fault: Fault)
    requires f.Request? && AllSkipped(ms, f.id) && after == before + [f] + Refusals(ms, f.id)
    ensures CallOutcome(before, after, f, ms, Transport(fault))
  {
    hide Refusals, IdEquals;
  }

  lemma GotAnswer(before: seq<Frame>, after: seq<Frame>, f: Frame, ms: seq<Msg>, m: Msg)
    requires f.Request? && AllSkipped(ms, f.id) && IdEquals(m.id, f.id) && after == before + [f] + Refusals(ms, f.id)
    ensures CallOutcome(before, after, f, ms + [m], Answer(m))
  {
    hide Refusals, IdEquals;
    assert (ms + [m])[..|ms|] == ms;
  }

  lemma PipeBroke(before: seq<Frame>, after: seq<Frame>, f: Frame, ms: seq<Msg>, m: Msg)
    requires f.Request? && AllSkipped(ms + [m], f.id) && after == before + [f] + Refusals(ms, f.id)
    ensures CallOutcome(before, after, f, ms + [m], Transport(BrokenPipe))
  {
    hide Refusals, IdEquals;
    assert (ms + [m])[..|ms|] == ms;
  }

  /** The lines among the results of a run of reads. */
  function LinesOf(results: seq<Wrappers.Result<Line, Fault>>): seq<Line> {
    if results == [] then []
    else
      var r := results[|results| - 1];
      LinesOf(results[..|results| - 1]) + if r.Success? then [r.value] else []
  }

  lemma NoneBefore(b: seq<Byte>)
    ensures FirstNewline(b) == |b| ==> NoNewline(b)
  {
    assert b[..|b|] == b;
  }

  lemma NoLines()
    ensures LinesOf([]) == []
  {
  }

  lemma LinesSnoc(results: seq<Wrappers.Result<Line, Fault>>, r: Wrappers.Result<Line, Fault>)
    ensures LinesOf(results + [r]) == LinesOf(results) + if r.Success? then [r.value] else []
  {
    assert (results + [r])[..|results|] == results;
  }

  lemma {:induction false} DeliveredSplit(es: seq<Event>, n: nat)
    requires n <= |es|
    ensures Delivered(es) == Delivered(es[..n]) + Delivered(es[n..])
  {
    if n == |es| {
      assert es[..n] == es;
    } else {
      var m := |es| - 1;
      DeliveredSplit(es[..m], n);
      assert es[..m][..n] == es[..n] && es[n..][..m - n] == es[..m][n..];
    }
  }

  // ----- reverse requests -----------------------------------------------------------

  function ReverseFrom(ms: seq<Msg>, x: RpcId): nat {
    if ms == [] then 0
    else
      var m := ms[|ms| - 1];
      ReverseFrom(ms[..|ms| - 1], x) + if Reverse(m) && m.id.value == x then 1 else 0
  }

  lemma {:induction false} RefusalsCounted(ms: seq<Msg>, req: int, x: RpcId)
    ensures multiset(Refusals(ms, req))[MethodNotFound(x)] == if IdEquals(Some(x), req) then 0 else ReverseFrom(ms, x)
  {
    if ms != [] { RefusalsCounted(ms[..|ms| - 1], req, x); }
  }

  /** Unless the pipe broke, each reverse request met by a call got exactly one refusal under
      its own id, if and only if Python does not take that id for the one in flight. One that
      it does take for it gets none, ends the call, and is what the call returns. */
  lemma ReverseRefusedExactly(before: seq<Frame>, after: seq<Frame>, f: Frame, ms: seq<Msg>, r: Reply, i: nat)
    requires f.Request? && CallOutcome(before, after, f, ms, r) && r != Transport(BrokenPipe)
    requires i < |ms| && Reverse(ms[i])
    ensures |before| < |after| && before + [f] <= after
    ensures var x := ms[i].id.value;
            var refusals := multiset(after[|before| + 1..])[MethodNotFound(x)];
            && (refusals == ReverseFrom(ms, x) <==> !IdEquals(Some(x), f.id))
            && (IdEquals(Some(x), f.id) ==> refusals == 0 && i == |ms| - 1 && r == Answer(ms[i]))
  {
    hide Refusals, IdEquals, Answer, CallOutcome, Heard;
    var x := ms[i].id.value;
    RefusedHeard(before, after, f, ms, r);
    RefusalsCounted(Heard(ms, f.id), f.id, x);
    ReverseCounted(ms, i);
    if IdEquals(Some(x), f.id) {
      TakenForTheAnswer(before, after, f, ms, r, i);
    } else {
      ReverseHeard(ms, f.id, x);
    }
  }

  /** The messages of a call that were not taken for its answer. */
  function Heard(ms: seq<Msg>, req: int): seq<Msg> {
    if ms != [] && IdEquals(ms[|ms| - 1].id, req) then ms[..|ms| - 1] else ms
  }

  lemma RefusedHeard(before: seq<Frame>, after: seq<Frame>, f: Frame, ms: seq<Msg>, r: Reply)
    requires f.Request? && CallOutcome(before, after, f, ms, r) && r != Transport(BrokenPipe)
    ensures after == before + [f] + Refusals(Heard(ms, f.id), f.id)
    ensures |before| < |after| && after[|before| + 1..] == Refusals(Heard(ms, f.id), f.id)
  {
    hide Refusals, IdEquals, Answer;
  }

  lemma ReverseHeard(ms: seq<Msg>, req: int, x: RpcId)
    requires !IdEquals(Some(x), req)
    ensures ReverseFrom(Heard(ms, req), x) == ReverseFrom(ms, x)
  {
    hide IdEquals;
  }

  lemma TakenForTheAnswer(before: seq<Frame>, after: seq<Frame>, f: Frame, ms: seq<Msg>, r: Reply, i: nat)
    requires f.Request? && CallOutcome(before, after, f, ms, r) && i < |ms| && IdEquals(ms[i].id, f.id)
    ensures i == |ms| - 1 && r == Answer(ms[i])
  {
    hide Refusals, IdEquals, Answer;
    assert forall j :: 0 <= j < |ms| - 1 ==> ms[..|ms| - 1][j] == ms[j];
  }

  lemma {:induction false} ReverseCounted(ms: seq<Msg>, i: nat)
    requires i < |ms| && Reverse(ms[i])
    ensures ReverseFrom(ms, ms[i].id.value) > 0
  {
    if i < |ms| - 1 { ReverseCounted(ms[..|ms| - 1], i); }
  }

  /** Out-of-band chatter is documented never to be mistaken for an answer, and a reverse
      request never to be dropped. Both sides number from one, and this one is: a request
      under the id in flight ends the call as a protocol fault and is not refused. */
  lemma ARequestTakenForTheAnswer(before: seq<Frame>, f: Frame)
    requires f.Request?
    ensures var m := Msg(true, Some(IntId(f.id)), true, None, None);
            && Reverse(m) && Refusals([m], f.id) == []
            && CallOutcome(before, before + [f], f, [m], Transport(Protocol))
  {
    var m := Msg(true, Some(IntId(f.id)), true, None, None);
    assert [m][..0] == [];
    GotAnswer(before, before + [f], f, [], m);
  }

  // ----- an honest downstream -------------------------------------------------------

  /** The message answers the request at place `k` among the frames sent, truthfully. */
  predicate Answers(sent: seq<Frame>, m: Msg, k: nat, truth: nat -> Reply) {
    k < |sent| && sent[k].Request? && m.id == Some(IntId(sent[k].id)) && Answer(m) == truth(k)
  }

  /** A message without an id, a reverse request under an id of its own, or a truthful answer
      to some request, of this call or of any other. */
  ghost predicate Honest(sent: seq<Frame>, m: Msg, inFlight: int, truth: nat -> Reply) {
    m.id.None? || Refused(m, inFlight) || exists k :: Answers(sent, m, k, truth)
  }

  /** Every message was honest; nothing is said of when it came, or whether. */
  ghost predicate HonestDownstream(sent: seq<Frame>, received: seq<Msg>, during: seq<int>, truth: nat -> Reply)
    requires |during| == |received|
  {
    forall i :: 0 <= i < |received| ==> Honest(sent, received[i], during[i], truth)
  }

  lemma IdsAreUnique(sent: seq<Frame>, nextId: int, j: nat, k: nat)
    requires IdsInOrder(sent, nextId) && j < |sent| && k < |sent| && sent[j].Request? && sent[k].Request?
    requires sent[j].id == sent[k].id
    ensures j == k
  {
  }

  /** If the downstream answers each request only under that request's own id, possibly late,
      out of order or never, then in any sequence of calls whatever a call returns is the
      answer to that very call. `Link.Valid` keeps the history this speaks of. */
  lemma EveryReplyIsItsOwn(sent: seq<Frame>, nextId: int, calls: seq<Ended>, received: seq<Msg>, during: seq<int>,
                           truth: nat -> Reply, c: nat)
    requires IdsInOrder(sent, nextId) && AllBacked(calls, sent, received, during)
    requires HonestDownstream(sent, received, during, truth)
    requires c < |calls| && !calls[c].reply.Transport?
    ensures calls[c].reply == truth(calls[c].frame)
  {
    hide Answer, IdsInOrder, Refused;
    var d := calls[c];
    assert Backed(d, sent, received, during);
    var id := sent[d.frame].id;
    var i :| 0 <= i < |received| && MadeOf(d.reply, received[i], during[i], id);
    assert Honest(sent, received[i], during[i], truth);
    NotRefused(received[i], id);
    var k :| Answers(sent, received[i], k, truth);
    IdsAreUnique(sent, nextId, k, d.frame);
  }

  lemma NotRefused(m: Msg, req: int)
    requires IdEquals(m.id, req)
    ensures !Refused(m, req) && m.id.Some?
  {
  }

  lemma FrameKeepsIds(sent: seq<Frame>, nextId: int, f: Frame)
    requires IdsInOrder(sent, nextId) && (f.Request? ==> f.id == nextId)
    ensures IdsInOrder(sent + [f], if f.Request? then nextId + 1 else nextId)
    ensures IdsInOrder(sent, nextId + 1)
  {
  }

  lemma SkippedSnoc(ms: seq<Msg>, m: Msg, req: int)
    requires AllSkipped(ms, req) && !IdEquals(m.id, req)
    ensures AllSkipped(ms + [m], req)
  {
  }

  lemma NoRefusals(req: int)
    ensures Refusals([], req) == [] && AllSkipped([], req)
  {
  }

  lemma RefusalsSnoc(ms: seq<Msg>, m: Msg, req: int)
    ensures Refusals(ms + [m], req) == Refusals(ms, req) + if Refused(m, req) then [MethodNotFound(m.id.value)] else []
  {
    assert (ms + [m])[..|ms|] == ms;
  }

  lemma NothingDelivered(es: seq<Event>)
    ensures Delivered(es[..0]) == []
  {
  }

  lemma {:induction false} DeliveredHead(es: seq<Event>)
    requires es != []
    ensures |Delivered(es)| == (if es[0].Data? then |es[0].chunk| else 0) + |Delivered(es[1..])|
  {
    var n := |es| - 1;
    if n > 0 {
      DeliveredHead(es[..n]);
      assert es[..n][1..] == es[1..][..n - 1] && es[1..][n - 1] == es[n];
    }
  }

  lemma OneMoreDelivered(es: seq<Event>, n: nat)
    requires n < |es|
    ensures Delivered(es[..n + 1]) == Delivered(es[..n]) + if es[n].Data? then es[n].chunk else []
  {
    assert es[..n + 1] == es[..n] + [es[n]];
    DeliveredSnoc(es[..n], es[n]);
  }

  lemma JoinNone()
    ensures AllLines([]) && Join([]) + [] == []
  {
  }

  lemma JoinSnoc(lines: seq<Line>, line: Line, rest: seq<Byte>)
    requires AllLines(lines) && NoNewline(line)
    ensures Join(lines) + (line + [NL] + rest) == Join(lines + [line]) + rest
    ensures AllLines(lines + [line])
  {
    assert (lines + [line])[..|lines|] == lines;
  }
}
