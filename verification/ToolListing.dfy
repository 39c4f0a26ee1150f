/** The gateway's own paginated `tools/list` against a downstream it does not trust
    (gateway.py `_handle_tools_list`). */
module ToolListing {
  import opened Wrappers
  import opened CanonicalJson
  import opened Documents
  import opened ToolCatalog
  import opened Framing

  // ----- exchanges with the downstream ----------------------------------------------

  /** What came of one `call`: whether its request frame went out and under which id, the
      reverse requests refused while waiting, and the reply. */
  datatype Exchange = Exchange(delivered: bool, id: int, refused: seq<RpcId>, reply: Reply)

  function RefusalFrames(ids: seq<RpcId>): (fs: seq<Frame>)
    ensures |fs| == |ids| && forall k :: 0 <= k < |ids| ==> fs[k] == MethodNotFound(ids[k])
  {
    if ids == [] then [] else RefusalFrames(ids[..|ids| - 1]) + [MethodNotFound(ids[|ids| - 1])]
  }

  /** The frames one exchange sends: its own request first, then only refusals. */
  function FramesOf(x: Exchange, method_: string, params: PyVal): seq<Frame> {
    if x.delivered then [Request(x.id, method_, params)] + RefusalFrames(x.refused) else []
  }

  // ----- pages ----------------------------------------------------------------------

  const MAX_PAGES := 100
  const MAX_TOOLS := 10_000

  datatype Next = End | Cursor(c: string) | BadCursor
  datatype Page = Page(tools: seq<PyVal>, next: Next)

  /** A result as a page; None when it has no array of tools. */
  function PageOf(result: PyVal): Option<Page> {
    var tools, next := Field(result, "tools"), Field(result, "nextCursor");
    if tools.None? || !tools.value.List? then None
    else Some(Page(tools.value.items,
                   if next.None? || next.value.None_? then End
                   else if next.value.Str? then Cursor(next.value.s)
                   else BadCursor))
  }

  datatype ListFault = Relayed(e: RpcError) | Unavailable(f: Fault)

  function CursorParams(cursor: Option<string>): PyVal {
    Dict(if cursor.None? then [] else [PyField(StrKey("cursor"), Str(cursor.value))])
  }

  /** How far a listing has come. */
  datatype Progress = Progress(tools: seq<PyVal>, cursor: Option<string>, seen: set<string>, pages: nat)

  const FIRST := Progress([], None, {}, 0)

  datatype Verdict = More(next: Progress) | Done(tools: seq<PyVal>) | Stop(fault: ListFault)

  /** What one reply does to a listing; the checks in their order. */
  function Turn(st: Progress, reply: Reply): Verdict {
    match reply
    case Rpc(e) => Stop(Relayed(e))
    case Transport(f) => Stop(Unavailable(f))
    case Result(v) =>
      var page := PageOf(v);
      if page.None? then Stop(Unavailable(Protocol))
      else
        var tools, pages := st.tools + page.value.tools, st.pages + 1;
        if |tools| > MAX_TOOLS then Stop(Unavailable(Protocol))
        else
          match page.value.next
          case End => Done(tools)
          case BadCursor => Stop(Unavailable(Protocol))
          case Cursor(c) =>
            if c in st.seen || pages >= MAX_PAGES then Stop(Unavailable(Protocol))
            else More(Progress(tools, Some(c), st.seen + {c}, pages))
  }

  /** The calls a listing makes of the exchanges offered to it, and how it ends. */
  function Used(st: Progress, xs: seq<Exchange>): (n: nat)
    ensures n <= |xs|
    decreases |xs|
  {
    if xs == [] then 0
    else
      var t := Turn(st, xs[0].reply);
      1 + if t.More? then Used(t.next, xs[1..]) else 0
  }

  function Ending(st: Progress, xs: seq<Exchange>): Verdict
    decreases |xs|
  {
    if xs == [] then Stop(Unavailable(Timeout))
    else
      var t := Turn(st, xs[0].reply);
      if t.More? then Ending(t.next, xs[1..]) else t
  }

  function ListFrames(st: Progress, xs: seq<Exchange>): seq<Frame>
    decreases |xs|
  {
    if xs == [] then []
    else
      var t := Turn(st, xs[0].reply);
      FramesOf(xs[0], "tools/list", CursorParams(st.cursor)) + if t.More? then ListFrames(t.next, xs[1..]) else []
  }

  // ----- what a listing amounts to --------------------------------------------------

  function PageAt(xs: seq<Exchange>, i: nat): Option<Page>
    requires i < |xs|
  {
    match xs[i].reply
    case Result(v) => PageOf(v)
    case _ => None
  }

  /** All tools of the first pages, in order. */
  function Gathered(xs: seq<Exchange>): seq<PyVal> {
    if xs == [] then []
    else (var p := PageAt(xs, 0); if p.None? then [] else p.value.tools) + Gathered(xs[1..])
  }

  /** The cursor a page leads on by. */
  function CursorAt(xs: seq<Exchange>, i: nat): Option<string>
    requires i < |xs|
  {
    var p := PageAt(xs, i);
    if p.Some? && p.value.next.Cursor? then Some(p.value.next.c) else None
  }

  /** Each page but the last leads on, by cursors that are new and pairwise different. */
  ghost predicate Leads(xs: seq<Exchange>, seen: set<string>) {
    && (forall i :: 0 <= i < |xs| - 1 ==> CursorAt(xs, i).Some? && CursorAt(xs, i).value !in seen)
    && (forall i, j :: 0 <= i < j < |xs| - 1 ==> CursorAt(xs, i) != CursorAt(xs, j))
  }

  predicate Ends(xs: seq<Exchange>)
    requires xs != []
  {
    PageAt(xs, |xs| - 1).Some? && PageAt(xs, |xs| - 1).value.next.End?
  }

  /** The exchanges are the pages of one whole listing, within both bounds. */
  ghost predicate Complete(xs: seq<Exchange>) {
    0 < |xs| <= MAX_PAGES && Leads(xs, {}) && Ends(xs) && |Gathered(xs)| <= MAX_TOOLS
  }

  /** The same, continuing a listing under way. */
  ghost predicate CompleteFrom(st: Progress, xs: seq<Exchange>) {
    && 0 < |xs| && st.pages + |xs| <= MAX_PAGES
    && Leads(xs, st.seen) && Ends(xs) && |st.tools + Gathered(xs)| <= MAX_TOOLS
  }

  lemma LeadsTail(xs: seq<Exchange>, seen: set<string>)
    requires |xs| > 1
    ensures Leads(xs, seen) <==>
              CursorAt(xs, 0).Some? && CursorAt(xs, 0).value !in seen && Leads(xs[1..], seen + {CursorAt(xs, 0).value})
  {
    hide PageAt;
    forall i | 0 <= i < |xs| - 1 ensures CursorAt(xs[1..], i) == CursorAt(xs, i + 1) { CursorShift(xs, i); }
    if CursorAt(xs, 0).Some? && CursorAt(xs, 0).value !in seen && Leads(xs[1..], seen + {CursorAt(xs, 0).value}) {
      forall i | 0 < i < |xs| - 1
          ensures CursorAt(xs, i).Some? && CursorAt(xs, i).value !in seen + {CursorAt(xs, 0).value} {
        assert CursorAt(xs[1..], i - 1) == CursorAt(xs, i);
      }
      forall i, j | 0 <= i < j < |xs| - 1 ensures CursorAt(xs, i) != CursorAt(xs, j) {
        if i > 0 { assert CursorAt(xs[1..], i - 1) != CursorAt(xs[1..], j - 1); }
      }
    }
  }

  lemma CursorShift(xs: seq<Exchange>, i: nat)
    requires i + 1 < |xs|
    ensures CursorAt(xs[1..], i) == CursorAt(xs, i + 1)
  {
  }

  lemma OnlyPage(st: Progress, xs: seq<Exchange>)
    requires |xs| == 1 && st.pages < MAX_PAGES
    ensures Turn(st, xs[0].reply).Done? <==> CompleteFrom(st, xs)
    ensures CompleteFrom(st, xs) ==> Turn(st, xs[0].reply) == Done(st.tools + Gathered(xs))
  {
    assert Gathered(xs[1..]) == [];
    assert PageAt(xs, 0).Some? ==> Gathered(xs) == PageAt(xs, 0).value.tools;
  }

  lemma FirstOfMany(st: Progress, xs: seq<Exchange>)
    requires |xs| > 1
    ensures CompleteFrom(st, xs) <==>
              Turn(st, xs[0].reply).More? && CompleteFrom(Turn(st, xs[0].reply).next, xs[1..])
    ensures Turn(st, xs[0].reply).More? ==>
              Turn(st, xs[0].reply).next.tools + Gathered(xs[1..]) == st.tools + Gathered(xs)
    ensures Turn(st, xs[0].reply).More? ==> CursorAt(xs, 0) == Turn(st, xs[0].reply).next.cursor
  {
    hide PageOf, Leads;
    LeadsTail(xs, st.seen);
    var p := PageAt(xs, 0);
    if p.Some? { assert st.tools + Gathered(xs) == st.tools + p.value.tools + Gathered(xs[1..]); }
  }

  /** Whatever the downstream offers, a listing succeeds exactly on a complete run of pages,
      and then its tools are all of theirs in order. */
  lemma {:induction false} ListingIs(st: Progress, xs: seq<Exchange>)
    requires st.pages < MAX_PAGES
    ensures Used(st, xs) <= MAX_PAGES - st.pages
    ensures Ending(st, xs).Done? <==> exists n :: 0 < n <= |xs| && CompleteFrom(st, xs[..n])
    ensures Ending(st, xs).Done? ==> CompleteFrom(st, xs[..Used(st, xs)])
    ensures Ending(st, xs).Done? ==> Ending(st, xs).tools == st.tools + Gathered(xs[..Used(st, xs)])
    decreases |xs|
  {
    hide Turn, CompleteFrom, Gathered;
    if xs != [] {
      var t := Turn(st, xs[0].reply);
      assert xs[..1][0] == xs[0];
      OnlyPage(st, xs[..1]);
      if t.More? {
        MoreHasRoom(st, xs[0].reply);
        ListingIs(t.next, xs[1..]);
        forall n | 1 < n <= |xs| ensures CompleteFrom(st, xs[..n]) <==> CompleteFrom(t.next, xs[1..][..n - 1]) {
          assert xs[..n][1..] == xs[1..][..n - 1];
          FirstOfMany(st, xs[..n]);
        }
        if Ending(st, xs).Done? {
          var n := Used(st, xs);
          assert Used(t.next, xs[1..]) == n - 1 && n > 1 by { DoneUsesOne(t.next, xs[1..]); }
          assert xs[..n][1..] == xs[1..][..n - 1];
          FirstOfMany(st, xs[..n]);
        }
      } else {
        forall n | 1 < n <= |xs| ensures !CompleteFrom(st, xs[..n]) { FirstOfMany(st, xs[..n]); }
      }
    }
  }

  lemma MoreHasRoom(st: Progress, reply: Reply)
    requires Turn(st, reply).More?
    ensures Turn(st, reply).next.pages == st.pages + 1 < MAX_PAGES
  {
  }

  lemma DoneUsesOne(st: Progress, xs: seq<Exchange>)
    requires Ending(st, xs).Done?
    ensures Used(st, xs) > 0
  {
  }

  /** The frames of a run of requests, each carrying the cursor of the page before it. */
  function Asked(cursor: Option<string>, xs: seq<Exchange>): seq<Frame>
    decreases |xs|
  {
    if xs == [] then []
    else FramesOf(xs[0], "tools/list", CursorParams(cursor)) + Asked(CursorAt(xs, 0), xs[1..])
  }

  /** However it ends: at most a hundred requests in all, each but the first asking for the
      cursor the page before it gave, no cursor asked for twice, and never more than the
      accepted number of tools held when another request is made. A downstream error ends the
      listing and is the one relayed. */
  lemma {:induction false} ListingIsBounded(st: Progress, xs: seq<Exchange>)
    requires st.pages < MAX_PAGES && |st.tools| <= MAX_TOOLS
    ensures st.pages + Used(st, xs) <= MAX_PAGES
    ensures Leads(xs[..Used(st, xs)], st.seen)
    ensures ListFrames(st, xs) == Asked(st.cursor, xs[..Used(st, xs)])
    ensures forall k :: 0 <= k < Used(st, xs) ==> |st.tools + Gathered(xs[..k])| <= MAX_TOOLS
    ensures forall e :: Ending(st, xs) == Stop(Relayed(e)) ==> Used(st, xs) > 0 && xs[Used(st, xs) - 1].reply == Rpc(e)
    decreases |xs|
  {
    hide Turn, Gathered, Leads, FramesOf, CursorParams;
    OneLeads(xs[..Used(st, xs)], st.seen);
    GatheredNone(st.tools);
    if xs != [] {
      var t := Turn(st, xs[0].reply);
      var n := Used(st, xs);
      if t.More? {
        MoreHasRoom(st, xs[0].reply);
        MoreWithinTools(st, xs[0].reply);
        ListingIsBounded(t.next, xs[1..]);
        assert xs[..n][1..] == xs[1..][..n - 1];
        OneMore(st, xs, n);
        forall k | 0 <= k < n ensures |st.tools + Gathered(xs[..k])| <= MAX_TOOLS {
          if k == 1 {
            GatheredNone(t.next.tools);
            assert xs[..1][1..] == [];
            OneGathered(st, xs, 1);
          } else if k > 1 {
            assert xs[..k][1..] == xs[1..][..k - 1];
            OneGathered(st, xs, k);
          }
        }
      } else {
        assert xs[..1][1..] == [];
        StopRelays(st, xs[0].reply);
      }
    }
  }

  lemma OneLeads(xs: seq<Exchange>, seen: set<string>)
    ensures |xs| <= 1 ==> Leads(xs, seen)
  {
  }

  lemma GatheredNone(tools: seq<PyVal>)
    ensures tools + Gathered([]) == tools
  {
  }

  lemma MoreWithinTools(st: Progress, reply: Reply)
    requires Turn(st, reply).More?
    ensures |Turn(st, reply).next.tools| <= MAX_TOOLS
  {
  }

  lemma StopRelays(st: Progress, reply: Reply)
    ensures forall e :: Turn(st, reply) == Stop(Relayed(e)) ==> reply == Rpc(e)
  {
  }

  lemma OneGathered(st: Progress, xs: seq<Exchange>, n: nat)
    requires 0 < n <= |xs| && Turn(st, xs[0].reply).More?
    ensures st.tools + Gathered(xs[..n]) == Turn(st, xs[0].reply).next.tools + Gathered(xs[..n][1..])
  {
    var ys := xs[..n];
    assert ys[0] == xs[0];
    assert Gathered(ys) == PageAt(ys, 0).value.tools + Gathered(ys[1..]);
  }

  lemma OneMore(st: Progress, xs: seq<Exchange>, n: nat)
    requires 0 < n <= |xs| && Turn(st, xs[0].reply).More?
    requires Leads(xs[..n][1..], Turn(st, xs[0].reply).next.seen)
    ensures Leads(xs[..n], st.seen) && CursorAt(xs[..n], 0) == Turn(st, xs[0].reply).next.cursor
  {
    hide Leads;
    var ys := xs[..n];
    assert ys[0] == xs[0];
    if n > 1 { LeadsTail(ys, st.seen); } else { OneLeads(ys, st.seen); }
  }

  /** A result is a page when it has an array of tools; it leads on by a text under
      `nextCursor`, ends without one or with null, and anything else there is no cursor. */
  lemma PageByName(result: PyVal, tools: seq<PyVal>)
    ensures PageOf(result).Some? <==> Field(result, "tools").Some? && Field(result, "tools").value.List?
    ensures PageOf(result).Some? && PageOf(result).value.tools == tools <==> Field(result, "tools") == Some(List(tools))
    ensures PageOf(result).Some? ==>
              var next, v := PageOf(result).value.next, Field(result, "nextCursor");
              && (next == End <==> v == None || v == Some(None_))
              && (forall c :: next == Cursor(c) <==> v == Some(Str(c)))
  {
    hide ValueIn, Field;
  }

  /** A listing from the start, in numbers: at most 100 requests and 10000 tools, the first
      without a cursor; it succeeds exactly on so many pages that each but the last leads on by
      a cursor not used before, and then has all their tools. */
  lemma ListingByNumbers(xs: seq<Exchange>)
    ensures Used(FIRST, xs) <= 100
    ensures ListFrames(FIRST, xs) == Asked(None, xs[..Used(FIRST, xs)])
    ensures CursorParams(None) == Dict([])
    ensures forall c :: CursorParams(Some(c)) == Dict([PyField(StrKey("cursor"), Str(c))])
    ensures Ending(FIRST, xs).Done? ==>
              Ending(FIRST, xs).tools == Gathered(xs[..Used(FIRST, xs)]) && |Ending(FIRST, xs).tools| <= 10_000
    ensures Ending(FIRST, xs).Done? <==>
              exists n :: 0 < n <= |xs| && n <= 100 && Leads(xs[..n], {}) && Ends(xs[..n])
                          && |Gathered(xs[..n])| <= 10_000
  {
    hide Gathered, Leads, Ending, Used, Ends, ListFrames, Asked;
    ListingIs(FIRST, xs);
    ListingIsBounded(FIRST, xs);
    forall n | 0 < n <= |xs| ensures CompleteFrom(FIRST, xs[..n]) <==>
        n <= 100 && Leads(xs[..n], {}) && Ends(xs[..n]) && |Gathered(xs[..n])| <= 10_000 {
      assert [] + Gathered(xs[..n]) == Gathered(xs[..n]);
    }
    assert [] + Gathered(xs[..Used(FIRST, xs)]) == Gathered(xs[..Used(FIRST, xs)]);
  }

  // ----- what the client sees -------------------------------------------------------

  predicate IsVisible(c: State, sid: string, tool: PyVal) {
    tool.Dict? && Field(tool, "name").Some? && Field(tool, "name").value.Str?
    && Invocable(c, sid, Field(tool, "name").value.s)
  }

  /** The tools whose name the catalog has as invocable, in their order. */
  function Visible(c: State, sid: string, tools: seq<PyVal>): seq<PyVal> {
    if tools == [] then []
    else (if IsVisible(c, sid, tools[0]) then [tools[0]] else []) + Visible(c, sid, tools[1..])
  }

  /** Nothing uninvocable is shown, nothing invocable is withheld, and each as often as listed. */
  lemma {:induction false} VisibleExactly(c: State, sid: string, tools: seq<PyVal>, tool: PyVal)
    ensures multiset(Visible(c, sid, tools))[tool] == if IsVisible(c, sid, tool) then multiset(tools)[tool] else 0
  {
    if tools != [] {
      VisibleExactly(c, sid, tools[1..], tool);
      assert tools == [tools[0]] + tools[1..];
    }
  }

  /** And in the order they were listed. */
  lemma {:induction false} VisibleInOrder(c: State, sid: string, a: seq<PyVal>, b: seq<PyVal>)
    ensures Visible(c, sid, a + b) == Visible(c, sid, a) + Visible(c, sid, b)
  {
    hide IsVisible;
    if a == [] {
      assert a + b == b;
    } else {
      assert (a + b)[1..] == a[1..] + b && (a + b)[0] == a[0];
      VisibleInOrder(c, sid, a[1..], b);
    }
  }
}
