/** The sliding-window rate limiter (server.py): lazily trimmed deques and a periodic sweep
    decide exactly as the full history of admissions would. Times are reals. */
module RateLimiter {

  datatype Hit = Hit(key: string, at: real)

  // ----- the specification: a pure function of the admission history ----------------

  function Times(h: seq<Hit>, key: string): seq<real> {
    if h == [] then []
    else Times(h[..|h| - 1], key) + if h[|h| - 1].key == key then [h[|h| - 1].at] else []
  }

  /** How many instants fall in the closed interval. */
  function CountIn(ts: seq<real>, lo: real, hi: real): nat {
    if ts == [] then 0 else CountIn(ts[..|ts| - 1], lo, hi) + if lo <= ts[|ts| - 1] <= hi then 1 else 0
  }

  /** Fewer than `perWindow` admissions in the closed window that ends now. */
  predicate Room(perWindow: int, window: real, ts: seq<real>, now: real) {
    CountIn(ts, now - window, now) < perWindow
  }

  predicate Admits(perWindow: int, window: real, h: seq<Hit>, key: string, now: real) {
    Room(perWindow, window, Times(h, key), now)
  }

  function Record(perWindow: int, window: real, h: seq<Hit>, key: string, now: real): seq<Hit> {
    if Admits(perWindow, window, h, key, now) then h + [Hit(key, now)] else h
  }

  predicate Ascending(ts: seq<real>) { forall i, j :: 0 <= i < j < |ts| ==> ts[i] <= ts[j] }

  predicate InTimeOrder(ts: seq<real>, clock: real) {
    Ascending(ts) && forall i :: 0 <= i < |ts| ==> ts[i] <= clock
  }

  /** How many leading instants lie before `lo`: what a trim removes. */
  function Stale(ts: seq<real>, lo: real): (n: nat)
    ensures n <= |ts|
    ensures forall i :: 0 <= i < n ==> ts[i] < lo
    ensures n < |ts| ==> lo <= ts[n]
  {
    if ts == [] then 0
    else
      var n := |ts| - 1;
      var m := Stale(ts[..n], lo);
      assert forall i :: 0 <= i < m ==> ts[i] == ts[..n][i];
      assert m < n ==> ts[m] == ts[..n][m];
      if m == n && ts[n] < lo then n + 1 else m
  }

  lemma StaleIs(ts: seq<real>, lo: real, n: nat)
    requires n <= |ts| && (forall i :: 0 <= i < n ==> ts[i] < lo) && (n < |ts| ==> lo <= ts[n])
    ensures Stale(ts, lo) == n
  {
    hide Stale;
    var m := Stale(ts, lo);
  }

  lemma {:induction false} CountAscending(ts: seq<real>, lo: real, hi: real)
    requires InTimeOrder(ts, hi)
    ensures CountIn(ts, lo, hi) == |ts| - Stale(ts, lo)
  {
    if ts != [] {
      var n := |ts| - 1;
      CountAscending(ts[..n], lo, hi);
      var m := Stale(ts[..n], lo);
      assert m < n ==> lo <= ts[..n][m] == ts[m] <= ts[n];
    }
  }

  lemma TimesSnoc(h: seq<Hit>, hit: Hit, key: string)
    ensures Times(h + [hit], key) == Times(h, key) + if hit.key == key then [hit.at] else []
  {
    assert (h + [hit])[..|h|] == h;
  }

  /** Admissions of every key are in time order, none later than `clock`. */
  ghost predicate Ordered(h: seq<Hit>, clock: real) {
    forall key :: InTimeOrder(Times(h, key), clock)
  }

  lemma RecordOrdered(perWindow: int, window: real, h: seq<Hit>, clock: real, key: string, now: real)
    requires Ordered(h, clock) && clock <= now
    ensures Ordered(Record(perWindow, window, h, key, now), now)
  {
    hide Times, Admits, InTimeOrder;
    forall k ensures InTimeOrder(Times(Record(perWindow, window, h, key, now), k), now) {
      assert InTimeOrder(Times(h, k), clock);
      TimesSnoc(h, Hit(key, now), k);
      OneMoreInOrder(Times(h, k), clock, now);
    }
  }

  lemma OneMoreInOrder(ts: seq<real>, clock: real, now: real)
    requires InTimeOrder(ts, clock) && clock <= now
    ensures InTimeOrder(ts, now) && InTimeOrder(ts + [now], now) && InTimeOrder(ts + [], now)
  {
    assert ts + [] == ts;
  }

  /** How long until the oldest admission still in the window leaves it. */
  function RetryAfter(window: real, ts: seq<real>, now: real): real {
    var first := Stale(ts, now - window);
    if first < |ts| then window - (now - ts[first]) else 0.0
  }

  // ----- deques against the history -------------------------------------------------

  function Lookup(hits: map<string, seq<real>>, key: string): seq<real> {
    if key in hits then hits[key] else []
  }

  function Trimmed(dq: seq<real>, cutoff: real): seq<real> { dq[Stale(dq, cutoff)..] }

  /** A deque is a suffix of the key's admissions; what is missing lies before `bound`. */
  ghost predicate Fits(ts: seq<real>, dq: seq<real>, bound: real) {
    && |dq| <= |ts| && dq == ts[|ts| - |dq|..]
    && (forall i :: 0 <= i < |ts| - |dq| ==> ts[i] < bound)
  }

  ghost predicate AllFit(h: seq<Hit>, hits: map<string, seq<real>>, bound: real) {
    forall key :: Fits(Times(h, key), Lookup(hits, key), bound)
  }

  /** Every deque kept is nonempty and starts no earlier than `oldest`. */
  ghost predicate NoneOlder(hits: map<string, seq<real>>, oldest: real) {
    forall key <- hits :: hits[key] != [] && oldest <= hits[key][0]
  }

  lemma StaleAppend(a: seq<real>, b: seq<real>, lo: real)
    requires forall i :: 0 <= i < |a| ==> a[i] < lo
    ensures Stale(a + b, lo) == |a| + Stale(b, lo)
  {
    hide Stale;
    StaleIs(a + b, lo, |a| + Stale(b, lo));
  }

  /** Trimming a fitting deque leaves exactly the admissions from `cutoff` on. */
  lemma TrimFits(ts: seq<real>, dq: seq<real>, bound: real, cutoff: real)
    requires Fits(ts, dq, bound) && bound <= cutoff
    ensures Fits(ts, Trimmed(dq, cutoff), cutoff) && Trimmed(dq, cutoff) == ts[Stale(ts, cutoff)..]
  {
    var gone := ts[..|ts| - |dq|];
    assert ts == gone + dq;
    StaleAppend(gone, dq, cutoff);
  }

  lemma LaterBound(h: seq<Hit>, hits: map<string, seq<real>>, bound: real, later: real)
    requires AllFit(h, hits, bound) && bound <= later
    ensures AllFit(h, hits, later)
  {
    forall key ensures Fits(Times(h, key), Lookup(hits, key), later) {
      assert Fits(Times(h, key), Lookup(hits, key), bound);
    }
  }

  function Swept(hits: map<string, seq<real>>, cutoff: real): map<string, seq<real>> {
    map k | k in hits && Trimmed(hits[k], cutoff) != [] :: Trimmed(hits[k], cutoff)
  }

  lemma SweptFits(h: seq<Hit>, hits: map<string, seq<real>>, bound: real, cutoff: real)
    requires AllFit(h, hits, bound) && bound <= cutoff
    ensures AllFit(h, Swept(hits, cutoff), cutoff)
    ensures NoneOlder(Swept(hits, cutoff), cutoff)
  {
    forall key ensures Fits(Times(h, key), Lookup(Swept(hits, cutoff), key), cutoff) {
      TrimFits(Times(h, key), Lookup(hits, key), bound, cutoff);
      assert Lookup(Swept(hits, cutoff), key) == Trimmed(Lookup(hits, key), cutoff);
    }
  }

  lemma OthersFit(h: seq<Hit>, hits: map<string, seq<real>>, bound: real, key: string, h': seq<Hit>, dq: seq<real>)
    requires AllFit(h, hits, bound) && Fits(Times(h', key), dq, bound)
    requires forall k :: k != key ==> Times(h', k) == Times(h, k)
    ensures AllFit(h', hits[key := dq], bound)
  {
    forall k ensures Fits(Times(h', k), Lookup(hits[key := dq], k), bound) {
      assert Fits(Times(h, k), Lookup(hits, k), bound);
    }
  }

  /** The trimmed deque of the checked key decides, and times the delay. */
  lemma Decided(perWindow: int, window: real, ts: seq<real>, dq: seq<real>, now: real)
    requires InTimeOrder(ts, now)
    requires dq == ts[Stale(ts, now - window)..]
    ensures |dq| < perWindow <==> Room(perWindow, window, ts, now)
    ensures dq != [] ==> 0.0 <= window - (now - dq[0]) == RetryAfter(window, ts, now) && now - window <= dq[0]
  {
    CountAscending(ts, now - window, now);
  }

  lemma FitsGrown(ts: seq<real>, dq: seq<real>, bound: real, now: real)
    requires Fits(ts, dq, bound)
    ensures Fits(ts + [now], dq + [now], bound)
  {
  }

  lemma RefusedFits(h: seq<Hit>, hits: map<string, seq<real>>, cutoff: real, key: string)
    requires AllFit(h, hits, cutoff)
    ensures AllFit(h, hits[key := Trimmed(Lookup(hits, key), cutoff)], cutoff)
    ensures Trimmed(Lookup(hits, key), cutoff) == Times(h, key)[Stale(Times(h, key), cutoff)..]
  {
    assert Fits(Times(h, key), Lookup(hits, key), cutoff);
    TrimFits(Times(h, key), Lookup(hits, key), cutoff, cutoff);
    OthersFit(h, hits, cutoff, key, h, Trimmed(Lookup(hits, key), cutoff));
  }

  lemma AdmittedFits(h: seq<Hit>, hits: map<string, seq<real>>, cutoff: real, key: string, now: real)
    requires AllFit(h, hits, cutoff)
    ensures AllFit(h + [Hit(key, now)], hits[key := Trimmed(Lookup(hits, key), cutoff) + [now]], cutoff)
  {
    hide Stale, Times, Trimmed;
    var dq := Trimmed(Lookup(hits, key), cutoff);
    RefusedFits(h, hits, cutoff, key);
    assert Fits(Times(h, key), Lookup(hits[key := dq], key), cutoff);
    FitsGrown(Times(h, key), dq, cutoff, now);
    forall k ensures Times(h + [Hit(key, now)], k) == Times(h, k) + if k == key then [now] else [] {
      TimesSnoc(h, Hit(key, now), k);
    }
    OthersFit(h, hits, cutoff, key, h + [Hit(key, now)], dq + [now]);
  }

  lemma StillNoneOlder(hits: map<string, seq<real>>, oldest: real, key: string, dq: seq<real>)
    requires NoneOlder(hits, oldest) && dq != [] && oldest <= dq[0]
    ensures NoneOlder(hits[key := dq], oldest)
  {
  }

  /** What holds of a limiter between calls; `clock` is the instant of its last check. */
  ghost predicate Consistent(window: real, h: seq<Hit>, hits: map<string, seq<real>>, lastSweep: real, clock: real) {
    && window > 0.0 && 0.0 <= lastSweep <= clock
    && Ordered(h, clock)
    && AllFit(h, hits, clock - window)
    && NoneOlder(hits, lastSweep - window)
  }

  /** Between sweeps nothing older than two windows survives. */
  lemma RetainedAreRecent(window: real, h: seq<Hit>, hits: map<string, seq<real>>, lastSweep: real, now: real)
    requires Consistent(window, h, hits, lastSweep, now) && now - lastSweep < window
    ensures forall k <- hits :: hits[k] != [] && hits[k][0] > now - 2.0 * window
  {
    hide AllFit, Ordered;
  }

  lemma OrderedLater(h: seq<Hit>, clock: real, now: real)
    requires Ordered(h, clock) && clock <= now
    ensures Ordered(h, now)
  {
    forall k ensures InTimeOrder(Times(h, k), now) { assert InTimeOrder(Times(h, k), clock); }
  }

  lemma SweepKeeps(window: real, h: seq<Hit>, hits: map<string, seq<real>>, lastSweep: real, clock: real, now: real)
    requires Consistent(window, h, hits, lastSweep, clock) && clock <= now
    ensures Consistent(window, h, Swept(hits, now - window), now, now)
  {
    hide Swept, NoneOlder, AllFit, Ordered;
    OrderedLater(h, clock, now);
    SweptFits(h, hits, clock - window, now - window);
  }

  lemma WaitingKeeps(window: real, h: seq<Hit>, hits: map<string, seq<real>>, lastSweep: real, clock: real, now: real)
    requires Consistent(window, h, hits, lastSweep, clock) && clock <= now
    ensures Consistent(window, h, hits, lastSweep, now)
  {
    OrderedLater(h, clock, now);
    LaterBound(h, hits, clock - window, now - window);
  }

  lemma CheckDecides(perWindow: int, window: real, h: seq<Hit>, hits: map<string, seq<real>>, lastSweep: real,
                     key: string, now: real)
    requires Consistent(window, h, hits, lastSweep, now)
    ensures var dq := Trimmed(Lookup(hits, key), now - window);
            && (|dq| < perWindow <==> Admits(perWindow, window, h, key, now))
            && (dq != [] ==>
                0.0 <= window - (now - dq[0]) == RetryAfter(window, Times(h, key), now) && now - window <= dq[0])
  {
    hide AllFit, NoneOlder, Trimmed, Stale, CountIn, InTimeOrder, Times, Lookup, RetryAfter;
    RefusedFits(h, hits, now - window, key);
    assert InTimeOrder(Times(h, key), now);
    Decided(perWindow, window, Times(h, key), Trimmed(Lookup(hits, key), now - window), now);
  }

  lemma RefusedKeeps(perWindow: int, window: real, h: seq<Hit>, hits: map<string, seq<real>>, lastSweep: real,
                     key: string, now: real)
    requires perWindow > 0 && Consistent(window, h, hits, lastSweep, now)
    requires |Trimmed(Lookup(hits, key), now - window)| >= perWindow
    ensures Consistent(window, h, hits[key := Trimmed(Lookup(hits, key), now - window)], lastSweep, now)
  {
    hide AllFit, NoneOlder, Ordered, Trimmed, Stale, CountIn;
    CheckDecides(perWindow, window, h, hits, lastSweep, key, now);
    RefusedFits(h, hits, now - window, key);
    StillNoneOlder(hits, lastSweep - window, key, Trimmed(Lookup(hits, key), now - window));
  }

  lemma AdmittedKeeps(perWindow: int, window: real, h: seq<Hit>, hits: map<string, seq<real>>, lastSweep: real,
                      key: string, now: real)
    requires perWindow > 0 && Consistent(window, h, hits, lastSweep, now)
    requires |Trimmed(Lookup(hits, key), now - window)| < perWindow
    ensures Consistent(window, h + [Hit(key, now)], hits[key := Trimmed(Lookup(hits, key), now - window) + [now]],
        lastSweep, now)
  {
    hide AllFit, NoneOlder, Ordered, Trimmed, Stale, CountIn;
    CheckDecides(perWindow, window, h, hits, lastSweep, key, now);
    AdmittedFits(h, hits, now - window, key, now);
    RecordOrdered(perWindow, window, h, now, key, now);
    StillNoneOlder(hits, lastSweep - window, key, Trimmed(Lookup(hits, key), now - window) + [now]);
  }

  // ----- the class ------------------------------------------------------------------

  class Limiter {
    const perWindow: int
    const window: real
    var hits: map<string, seq<real>>
    var lastSweep: real
    ghost var history: seq<Hit>
    ghost var clock: real

    ghost predicate Valid()
      reads this
    {
      Consistent(window, history, hits, lastSweep, clock)
    }

    constructor (perWindow: int, window: real)
      requires window > 0.0
      ensures Valid() && this.perWindow == perWindow && this.window == window
      ensures history == [] && clock == 0.0
    {
      this.perWindow, this.window := perWindow, window;
      hits, lastSweep := map[], 0.0;
      history, clock := [], 0.0;
    }

    /** Pops the aged-out front of one deque. */
    method Trim(dq: seq<real>, cutoff: real) returns (r: seq<real>)
      ensures r == Trimmed(dq, cutoff)
    {
      hide Stale;
      r := dq;
      while r != [] && r[0] < cutoff
        invariant |r| <= |dq| && r == dq[|dq| - |r|..]
        invariant Stale(dq, cutoff) == |dq| - |r| + Stale(r, cutoff)
        decreases |r|
      {
        assert r[1..] == dq[|dq| - |r| + 1..] && r == [r[0]] + r[1..];
        StaleAppend([r[0]], r[1..], cutoff);
        r := r[1..];
      }
    }

    /** `_sweep`: at most once per window, trims every key and forgets the empty ones. */
    method Sweep(cutoff: real, now: real)
      modifies this`hits, this`lastSweep
      ensures now - old(lastSweep) < window ==> hits == old(hits) && lastSweep == old(lastSweep)
      ensures now - old(lastSweep) >= window ==> hits == Swept(old(hits), cutoff) && lastSweep == now
    {
      if now - lastSweep < window { return; }
      lastSweep := now;
      var before := hits;
      var todo := hits.Keys;
      while todo != {}
        invariant todo <= before.Keys && lastSweep == now
        invariant forall k :: k in hits <==> k in before && (k in todo || Trimmed(before[k], cutoff) != [])
        invariant forall k <- hits :: hits[k] == if k in todo then before[k] else Trimmed(before[k], cutoff)
        decreases todo
      {
        var k :| k in todo;
        var dq := Trim(hits[k], cutoff);
        if dq == [] {
          hits := hits - {k};
        } else {
          hits := hits[k := dq];
        }
        todo := todo - {k};
      }
    }

    /** `check`: admits by the history, and says how long to wait otherwise. */
    method Check(key: string, now: real) returns (allowed: bool, retryAfter: real)
      requires Valid() && clock <= now
      modifies this
      ensures perWindow <= 0 ==> allowed && retryAfter == 0.0 && history == old(history) && hits == old(hits)
      ensures perWindow > 0 ==> Valid() && clock == now
      ensures perWindow > 0 ==> (allowed <==> Admits(perWindow, window, old(history), key, now))
      ensures perWindow > 0 ==> history == Record(perWindow, window, old(history), key, now)
      ensures perWindow > 0 ==> retryAfter == if allowed then 0.0 else RetryAfter(window, Times(old(history), key), now)
      ensures perWindow > 0 ==> forall k <- hits :: hits[k] != [] && hits[k][0] > now - 2.0 * window
    {
      hide Consistent, Swept, Trimmed, RetryAfter, Lookup, Times, CountIn;
      if perWindow <= 0 { return true, 0.0; }
      var cutoff := now - window;
      SweepKeeps(window, history, hits, lastSweep, clock, now);
      WaitingKeeps(window, history, hits, lastSweep, clock, now);
      Sweep(cutoff, now);
      var dq := Trim(Lookup(hits, key), cutoff);
      CheckDecides(perWindow, window, history, hits, lastSweep, key, now);
      clock := now;
      if |dq| >= perWindow {
        RefusedKeeps(perWindow, window, history, hits, lastSweep, key, now);
        hits := hits[key := dq];
        var retry := window - (now - dq[0]);
        allowed, retryAfter := false, if retry > 0.0 then retry else 0.0;
      } else {
        AdmittedKeeps(perWindow, window, history, hits, lastSweep, key, now);
        history := history + [Hit(key, now)];
        hits := hits[key := dq + [now]];
        allowed, retryAfter := true, 0.0;
      }
      RetainedAreRecent(window, history, hits, lastSweep, now);
    }
  }

  // ----- what the specification guarantees ------------------------------------------

  datatype Request = Request(key: string, at: real)

  /** Requests arrive in time order, from `clock` on. */
  predicate InOrder(reqs: seq<Request>, clock: real) {
    reqs == [] || (clock <= reqs[0].at && InOrder(reqs[1..], reqs[0].at))
  }

  function Serve(perWindow: int, window: real, h: seq<Hit>, reqs: seq<Request>): seq<Hit>
    decreases |reqs|
  {
    if reqs == [] then h
    else Serve(perWindow, window, Record(perWindow, window, h, reqs[0].key, reqs[0].at), reqs[1..])
  }

  /** Any admissions that span at most a window number at most `perWindow`. */
  ghost predicate Spaced(perWindow: int, window: real, ts: seq<real>) {
    forall i, j :: 0 <= i <= j < |ts| && ts[j] - ts[i] <= window ==> j - i + 1 <= perWindow
  }

  lemma OneMoreSpaced(perWindow: int, window: real, ts: seq<real>, now: real)
    requires InTimeOrder(ts, now) && Spaced(perWindow, window, ts) && Room(perWindow, window, ts, now)
    ensures Spaced(perWindow, window, ts + [now])
  {
    hide CountIn, Stale;
    CountAscending(ts, now - window, now);
    var first := Stale(ts, now - window);
    forall i, j | 0 <= i <= j < |ts + [now]| && (ts + [now])[j] - (ts + [now])[i] <= window
        ensures j - i + 1 <= perWindow {
      if j < |ts| {
        assert ts[j] - ts[i] <= window;
      } else if i < |ts| {
        assert first <= i;
      }
    }
  }

  lemma RecordSpaced(perWindow: int, window: real, h: seq<Hit>, clock: real, key: string, now: real, k: string)
    requires Ordered(h, clock) && clock <= now && Spaced(perWindow, window, Times(h, k))
    ensures Spaced(perWindow, window, Times(Record(perWindow, window, h, key, now), k))
  {
    hide Spaced, CountIn, Room;
    TimesSnoc(h, Hit(key, now), k);
    if Admits(perWindow, window, h, key, now) && k == key {
      assert InTimeOrder(Times(h, k), clock);
      assert InTimeOrder(Times(h, k), now);
      OneMoreSpaced(perWindow, window, Times(h, k), now);
    } else {
      assert Times(h, k) + [] == Times(h, k);
    }
  }

  lemma {:induction false} CountSpaced(perWindow: int, window: real, ts: seq<real>, lo: real, hi: real)
    requires Ascending(ts) && Spaced(perWindow, window, ts) && hi - lo <= window && 0 <= perWindow
    ensures CountIn(ts, lo, hi) <= perWindow
  {
    if ts != [] {
      var n := |ts| - 1;
      if ts[n] > hi {
        CountSpaced(perWindow, window, ts[..n], lo, hi);
      } else {
        CountAscending(ts, lo, hi);
        var i := Stale(ts, lo);
        if i <= n { assert ts[n] - ts[i] <= window; }
      }
    }
  }

  lemma {:induction false} ServeSpaced(perWindow: int, window: real, h: seq<Hit>, clock: real, reqs: seq<Request>,
                                       key: string)
    requires Ordered(h, clock) && InOrder(reqs, clock) && Spaced(perWindow, window, Times(h, key))
    ensures Spaced(perWindow, window, Times(Serve(perWindow, window, h, reqs), key))
    ensures exists later :: Ordered(Serve(perWindow, window, h, reqs), later)
    decreases |reqs|
  {
    if reqs != [] {
      var r := reqs[0];
      RecordOrdered(perWindow, window, h, clock, r.key, r.at);
      RecordSpaced(perWindow, window, h, clock, r.key, r.at, key);
      ServeSpaced(perWindow, window, Record(perWindow, window, h, r.key, r.at), r.at, reqs[1..], key);
    }
  }

  /** On admissions in time order: there is room exactly when there are fewer than `perWindow`
      of them, or the one `perWindow` back is more than a window old. */
  lemma RoomMeans(perWindow: int, window: real, ts: seq<real>, now: real)
    requires perWindow > 0 && InTimeOrder(ts, now)
    ensures Room(perWindow, window, ts, now) <==> |ts| < perWindow || now - ts[|ts| - perWindow] > window
  {
    hide CountIn, Stale;
    CountAscending(ts, now - window, now);
    var first := Stale(ts, now - window);
  }

  /** So in every run any two admissions of a key that are `perWindow` apart in number are
      more than a window apart in time. */
  lemma AdmissionsAreSpaced(perWindow: int, window: real, reqs: seq<Request>, key: string, i: nat)
    requires perWindow > 0 && window > 0.0 && InOrder(reqs, 0.0)
    requires i + perWindow < |Times(Serve(perWindow, window, [], reqs), key)|
    ensures var ts := Times(Serve(perWindow, window, [], reqs), key); ts[i + perWindow] - ts[i] > window
  {
    hide CountIn, Serve, InOrder;
    ServeSpaced(perWindow, window, [], 0.0, reqs, key);
  }

  /** Whatever the requests, no closed interval as long as the window holds more than
      `perWindow` admissions of one key. */
  lemma NoWindowOverflows(perWindow: int, window: real, reqs: seq<Request>, key: string, lo: real)
    requires perWindow > 0 && window > 0.0 && InOrder(reqs, 0.0)
    ensures CountIn(Times(Serve(perWindow, window, [], reqs), key), lo, lo + window) <= perWindow
  {
    hide CountIn, Spaced, Serve, InOrder;
    ServeSpaced(perWindow, window, [], 0.0, reqs, key);
    var h := Serve(perWindow, window, [], reqs);
    var later :| Ordered(h, later);
    CountSpaced(perWindow, window, Times(h, key), lo, lo + window);
  }

  lemma FullWindow(perWindow: int, window: real, ts: seq<real>, t: real)
    requires perWindow > 0 && InTimeOrder(ts, t) && Spaced(perWindow, window, ts) && !Room(perWindow, window, ts, t)
    ensures |ts| - Stale(ts, t - window) == perWindow
    ensures t + RetryAfter(window, ts, t) == ts[Stale(ts, t - window)] + window
  {
    hide CountIn, Stale;
    CountAscending(ts, t - window, t);
    assert ts[|ts| - 1] - ts[Stale(ts, t - window)] <= window;
  }

  /** On unchanged admissions, a refused key has room again exactly after its delay. */
  lemma RoomAfterDelay(perWindow: int, window: real, ts: seq<real>, t: real, later: real)
    requires perWindow > 0 && window > 0.0 && t <= later
    requires InTimeOrder(ts, t)
    requires Spaced(perWindow, window, ts) && !Room(perWindow, window, ts, t)
    ensures Room(perWindow, window, ts, later) <==> later > t + RetryAfter(window, ts, t)
  {
    hide CountIn, Spaced, RetryAfter, Stale;
    FullWindow(perWindow, window, ts, t);
    CountAscending(ts, later - window, later);
    StaleReaches(ts, t - window, later - window);
  }

  lemma StaleReaches(ts: seq<real>, lo: real, later: real)
    requires Ascending(ts) && Stale(ts, lo) < |ts| && lo <= later
    ensures Stale(ts, lo) < Stale(ts, later) <==> ts[Stale(ts, lo)] < later
  {
    hide Stale;
    var i, j := Stale(ts, lo), Stale(ts, later);
    if ts[i] < later {
      assert forall k :: 0 <= k <= i ==> ts[k] < later;
    }
  }

  lemma RefusedRecord(perWindow: int, window: real, h: seq<Hit>, key: string, r: Request)
    requires r.key == key ==> !Room(perWindow, window, Times(h, key), r.at)
    ensures Times(Record(perWindow, window, h, r.key, r.at), key) == Times(h, key)
  {
    TimesSnoc(h, Hit(r.key, r.at), key);
  }

  lemma {:induction false} ServeLeavesKey(perWindow: int, window: real, h: seq<Hit>, key: string, at: real,
                                          until: real, reqs: seq<Request>)
    requires InOrder(reqs, at)
    requires forall now :: at <= now <= until ==> !Room(perWindow, window, Times(h, key), now)
    requires forall r <- reqs :: r.key == key ==> r.at <= until
    ensures Times(Serve(perWindow, window, h, reqs), key) == Times(h, key)
    decreases |reqs|
  {
    if reqs != [] {
      var r := reqs[0];
      assert r in reqs;
      RefusedRecord(perWindow, window, h, key, r);
      ServeLeavesKey(perWindow, window, Record(perWindow, window, h, r.key, r.at), key, r.at, until, reqs[1..]);
    }
  }

  /** The reported delay is exact: until it has passed every check of the key is refused,
      whatever other requests arrive meanwhile; the first check after it is admitted. */
  lemma RetryDelayIsExact(perWindow: int, window: real, h: seq<Hit>, clock: real, key: string, t: real,
                          reqs: seq<Request>, next: real)
    requires perWindow > 0 && window > 0.0 && Ordered(h, clock) && clock <= t <= next
    requires Spaced(perWindow, window, Times(h, key)) && !Admits(perWindow, window, h, key, t)
    requires InOrder(reqs, t)
    requires forall r <- reqs :: r.key == key ==> r.at <= t + RetryAfter(window, Times(h, key), t)
    ensures Times(Serve(perWindow, window, h, reqs), key) == Times(h, key)
    ensures Admits(perWindow, window, Serve(perWindow, window, h, reqs), key, next)
       <==> next > t + RetryAfter(window, Times(h, key), t)
  {
    var ts := Times(h, key);
    forall now | t <= now <= t + RetryAfter(window, ts, t) ensures !Room(perWindow, window, ts, now) {
      RoomAfterDelay(perWindow, window, ts, t, now);
    }
    ServeLeavesKey(perWindow, window, h, key, t, t + RetryAfter(window, ts, t), reqs);
    RoomAfterDelay(perWindow, window, ts, t, next);
  }
}
