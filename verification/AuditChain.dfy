/** The hash-chained audit log (store.py): appending, verifying, and what verification
    proves about a log whose rows were replaced behind the program's back. */
module AuditChain {
  import opened Wrappers

  const SEP: char := '\U{1F}'

  function Zeros(n: nat): (s: string)
    ensures |s| == n
    ensures forall k :: 0 <= k < n ==> s[k] == '0'
  {
    if n == 0 then "" else ['0'] + Zeros(n - 1)
  }

  /** A SHA-256 hex digest. The hash itself is a parameter; nothing is assumed of it. */
  type Digest = s: string |
    |s| == 64 && (forall k :: 0 <= k < |s| ==> '0' <= s[k] <= '9' || 'a' <= s[k] <= 'f')
    witness Zeros(64)
  const GENESIS: Digest := Zeros(64)

  datatype Row = Row(seqNo: int, kind: string, body: string, created: string,
                     prevHash: string, recordHash: string)

  /** The audit table in `seq` order, and the high-water mark kept in the meta table. */
  datatype Log = Log(rows: seq<Row>, headSeq: Option<int>, headHash: Option<string>)

  const EMPTY_LOG := Log([], None, None)

  function Encode(r: Row): string {
    r.kind + [SEP] + r.body + [SEP] + r.created + [SEP] + r.prevHash
  }

  function TipHash(rows: seq<Row>): string {
    if rows == [] then GENESIS else rows[|rows| - 1].recordHash
  }

  /** The row the append inserts; AUTOINCREMENT numbers it one past the last row. */
  function NextRow(sha: string -> Digest, rows: seq<Row>, kind: string, body: string, created: string): (r: Row)
  {
    var n := if rows == [] then 1 else rows[|rows| - 1].seqNo + 1;
    var bare := Row(n, kind, body, created, TipHash(rows), "");
    bare.(recordHash := sha(Encode(bare)))
  }

  /** `_append_audit_in_txn`: one row, and the mark moved to it in the same transaction. */
  function Append(sha: string -> Digest, log: Log, kind: string, body: string, created: string): Log {
    var r := NextRow(sha, log.rows, kind, body, created);
    Log(log.rows + [r], Some(r.seqNo), Some(r.recordHash))
  }

  /** The text that is hashed: kind, body, time and the previous hash, joined by the unit
      separator; the first row follows 64 zeros and has number one. */
  lemma NextRowIs(sha: string -> Digest, rows: seq<Row>, kind: string, body: string, created: string)
    ensures var r := NextRow(sha, rows, kind, body, created);
            && r.kind == kind && r.body == body && r.created == created
            && r.recordHash == sha(kind + "\U{1F}" + body + "\U{1F}" + created + "\U{1F}" + r.prevHash)
            && (rows == [] ==> r.seqNo == 1 && r.prevHash == Zeros(64))
            && (rows != [] ==> r.seqNo == rows[|rows| - 1].seqNo + 1 && r.prevHash == rows[|rows| - 1].recordHash)
  {
  }

  // ----- verification ---------------------------------------------------------------

  datatype Fault = PrevHashMismatch | RecordHashMismatch | TailTruncation
  datatype Verification = Verified(records: nat) | Broken(records: nat, at: int, fault: Fault)

  predicate Linked(sha: string -> Digest, rows: seq<Row>, i: nat)
    requires i < |rows|
  {
    && rows[i].prevHash == TipHash(rows[..i])
    && rows[i].recordHash == sha(Encode(rows[i]))
  }

  predicate AllLinked(sha: string -> Digest, rows: seq<Row>) {
    forall i :: 0 <= i < |rows| ==> Linked(sha, rows, i)
  }

  /** The tip the rows end at is the tip the mark recorded; without a mark nothing is compared. */
  predicate HeadMatches(log: Log) {
    log.headSeq.Some? ==>
      && log.headSeq.value == (if log.rows == [] then 0 else log.rows[|log.rows| - 1].seqNo)
      && (log.headHash.Some? ==> log.headHash.value == TipHash(log.rows))
  }

  predicate Verifies(sha: string -> Digest, log: Log) {
    AllLinked(sha, log.rows) && HeadMatches(log)
  }

  /** `verify_chain`: walks the rows once and stops at the first row that does not fit. */
  method VerifyChain(sha: string -> Digest, log: Log) returns (v: Verification)
    ensures v.Verified? <==> Verifies(sha, log)
    ensures v.Verified? ==> v.records == |log.rows|
    ensures v.Broken? && v.fault != TailTruncation ==>
              && v.records < |log.rows| && v.at == log.rows[v.records].seqNo
              && AllLinked(sha, log.rows[..v.records])
              && (v.fault == PrevHashMismatch <==> log.rows[v.records].prevHash != TipHash(log.rows[..v.records]))
              && (v.fault == RecordHashMismatch ==> log.rows[v.records].recordHash != sha(Encode(log.rows[v.records])))
    ensures v.Broken? && v.fault == TailTruncation ==>
              v.records == |log.rows| && AllLinked(sha, log.rows) && log.headSeq == Some(v.at)
  {
    hide Encode;
    var prev: string := GENESIS;
    var count := 0;
    var lastSeq := 0;
    while count < |log.rows|
      invariant count <= |log.rows|
      invariant prev == TipHash(log.rows[..count])
      invariant lastSeq == if count == 0 then 0 else log.rows[count - 1].seqNo
      invariant forall i :: 0 <= i < count ==> Linked(sha, log.rows, i)
    {
      var r := log.rows[count];
      LinkedPrefix(sha, log.rows, count);
      assert Linked(sha, log.rows, count) <==> r.prevHash == prev && r.recordHash == sha(Encode(r));
      if r.prevHash != prev {
        return Broken(count, r.seqNo, PrevHashMismatch);
      }
      if r.recordHash != sha(Encode(r)) {
        return Broken(count, r.seqNo, RecordHashMismatch);
      }
      prev := r.recordHash;
      lastSeq := r.seqNo;
      count := count + 1;
    }
    assert log.rows[..count] == log.rows;
    if log.headSeq.Some? {
      if lastSeq != log.headSeq.value || (log.headHash.Some? && prev != log.headHash.value) {
        return Broken(count, log.headSeq.value, TailTruncation);
      }
    }
    return Verified(count);
  }

  lemma LinkedPrefix(sha: string -> Digest, rows: seq<Row>, n: nat)
    requires n <= |rows|
    ensures AllLinked(sha, rows[..n]) <==> forall i :: 0 <= i < n ==> Linked(sha, rows, i)
  {
    forall i | 0 <= i < n ensures Linked(sha, rows[..n], i) <==> Linked(sha, rows, i) {
      assert rows[..n][..i] == rows[..i];
    }
    if AllLinked(sha, rows[..n]) {
      forall i | 0 <= i < n ensures Linked(sha, rows, i) { assert Linked(sha, rows[..n], i); }
    }
  }

  // ----- the separator-joined encoding ----------------------------------------------

  predicate SepFree(s: string) { SEP !in s }

  /** What the program itself writes: no field it hashes holds the separator. */
  predicate CleanRow(r: Row) {
    SepFree(r.kind) && SepFree(r.body) && SepFree(r.created) && SepFree(r.prevHash)
  }

  ghost function Seps(s: string): nat {
    if s == "" then 0 else (if s[0] == SEP then 1 else 0) + Seps(s[1..])
  }

  lemma {:induction false} SepsConcat(a: string, b: string)
    ensures Seps(a + b) == Seps(a) + Seps(b)
  {
    if a == "" {
      assert a + b == b;
    } else {
      assert (a + b)[1..] == a[1..] + b;
      SepsConcat(a[1..], b);
    }
  }

  lemma {:induction false} NoSeps(s: string)
    ensures Seps(s) == 0 <==> SepFree(s)
  {
    if s != "" {
      NoSeps(s[1..]);
      assert s == [s[0]] + s[1..];
    }
  }

  lemma EncodeSeps(r: Row)
    ensures Seps(Encode(r)) == 3 + Seps(r.kind) + Seps(r.body) + Seps(r.created) + Seps(r.prevHash)
  {
    var s := [SEP];
    assert Seps(s) == 1;
    SepsConcat(r.kind, s);
    SepsConcat(r.kind + s, r.body);
    SepsConcat(r.kind + s + r.body, s);
    SepsConcat(r.kind + s + r.body + s, r.created);
    SepsConcat(r.kind + s + r.body + s + r.created, s);
    SepsConcat(r.kind + s + r.body + s + r.created + s, r.prevHash);
  }

  lemma PeelField(a: string, b: string, x: string, y: string)
    requires SepFree(a) && SepFree(b)
    requires a + [SEP] + x == b + [SEP] + y
    ensures a == b && x == y
  {
    var s, t := a + [SEP] + x, b + [SEP] + y;
    assert s[|a|] == SEP && t[|b|] == SEP;
    assert a == s[..|a|] && b == t[..|b|];
    assert x == s[|a| + 1..] && y == t[|b| + 1..];
  }

  lemma EncodeNested(r: Row)
    ensures Encode(r) == r.kind + [SEP] + (r.body + [SEP] + (r.created + [SEP] + r.prevHash))
  {
  }

  /** One clean row suffices: nothing else encodes to the same text. */
  lemma EncodeUnambiguous(a: Row, b: Row)
    requires CleanRow(a) && Encode(a) == Encode(b)
    ensures a.kind == b.kind && a.body == b.body && a.created == b.created && a.prevHash == b.prevHash
  {
    EncodeSeps(a); EncodeSeps(b);
    NoSeps(a.kind); NoSeps(a.body); NoSeps(a.created); NoSeps(a.prevHash);
    NoSeps(b.kind); NoSeps(b.body); NoSeps(b.created); NoSeps(b.prevHash);
    var s := [SEP];
    var x2, y2 := a.created + s + a.prevHash, b.created + s + b.prevHash;
    var x1, y1 := a.body + s + x2, b.body + s + y2;
    EncodeNested(a);
    EncodeNested(b);
    PeelField(a.kind, b.kind, x1, y1);
    PeelField(a.body, b.body, x2, y2);
    PeelField(a.created, b.created, a.prevHash, b.prevHash);
  }

  // ----- logs the program writes ----------------------------------------------------

  datatype Entry = Entry(kind: string, body: string, created: string)

  predicate CleanEntry(e: Entry) { SepFree(e.kind) && SepFree(e.body) && SepFree(e.created) }

  /** The log after a run of appends. */
  function AppendAll(sha: string -> Digest, es: seq<Entry>): (log: Log)
    ensures |log.rows| == |es|
  {
    if es == [] then EMPTY_LOG
    else
      var e := es[|es| - 1];
      Append(sha, AppendAll(sha, es[..|es| - 1]), e.kind, e.body, e.created)
  }

  /** Row numbers are 1, 2, 3, …; every row is clean and linked; the mark is at the tip. */
  ghost predicate Sound(sha: string -> Digest, log: Log) {
    && Verifies(sha, log)
    && (forall i :: 0 <= i < |log.rows| ==> CleanRow(log.rows[i]) && log.rows[i].seqNo == i + 1)
    && (log.headSeq.Some? <==> log.rows != []) && (log.headHash.Some? <==> log.rows != [])
  }

  lemma DigestSepFree(d: Digest)
    ensures SepFree(d)
  {
  }

  lemma AppendKeepsSound(sha: string -> Digest, log: Log, kind: string, body: string, created: string)
    requires Sound(sha, log)
    requires SepFree(kind) && SepFree(body) && SepFree(created)
    ensures Sound(sha, Append(sha, log, kind, body, created))
  {
    hide Encode;
    var log' := Append(sha, log, kind, body, created);
    var n := |log.rows|;
    var r := log'.rows[n];
    if n > 0 {
      assert Linked(sha, log.rows, n - 1);
      DigestSepFree(sha(Encode(log.rows[n - 1])));
    } else {
      DigestSepFree(GENESIS);
    }
    assert log'.rows[..n] == log.rows;
    LinkedPrefix(sha, log'.rows, n);
    HashNotHashed(r);
    assert Linked(sha, log'.rows, n);
  }

  lemma HashNotHashed(r: Row)
    ensures Encode(r) == Encode(r.(recordHash := ""))
  {
  }

  /** Every run of appends leaves a sound log; in particular one that verifies. */
  lemma {:induction false} AppendAllSound(sha: string -> Digest, es: seq<Entry>)
    requires forall e <- es :: CleanEntry(e)
    ensures Sound(sha, AppendAll(sha, es))
  {
    if es != [] {
      var e := es[|es| - 1];
      assert e in es;
      AppendAllSound(sha, es[..|es| - 1]);
      AppendKeepsSound(sha, AppendAll(sha, es[..|es| - 1]), e.kind, e.body, e.created);
    }
  }

  // ----- tamper evidence ------------------------------------------------------------

  datatype Forgery = Agreement | Collision(x: string, y: string) | GenesisPreimage(x: string)

  /** Walks two chains back from their tips and reports where they first part. */
  ghost function Compare(a: seq<Row>, b: seq<Row>): Forgery {
    if a == [] && b == [] then Agreement
    else if a == [] then GenesisPreimage(Encode(b[|b| - 1]))
    else if b == [] then GenesisPreimage(Encode(a[|a| - 1]))
    else if Encode(a[|a| - 1]) != Encode(b[|b| - 1]) then
      Collision(Encode(a[|a| - 1]), Encode(b[|b| - 1]))
    else Compare(a[..|a| - 1], b[..|b| - 1])
  }

  predicate SameRecord(r: Row, t: Row) { r.(seqNo := t.seqNo) == t }

  /** Equal in everything that is hashed, position by position; numbering aside. */
  predicate SameRecords(a: seq<Row>, b: seq<Row>) {
    |a| == |b| && forall i :: 0 <= i < |a| ==> SameRecord(a[i], b[i])
  }

  ghost predicate EncodesRowOf(x: string, rows: seq<Row>) {
    exists i :: 0 <= i < |rows| && x == Encode(rows[i])
  }

  /** What a comparison outcome claims about the two row lists, with explicit witnesses. */
  ghost predicate Explains(sha: string -> Digest, f: Forgery, a: seq<Row>, b: seq<Row>) {
    match f
    case Agreement => SameRecords(a, b)
    case Collision(x, y) => x != y && sha(x) == sha(y) && EncodesRowOf(x, a) && EncodesRowOf(y, b)
    case GenesisPreimage(x) => sha(x) == GENESIS && (EncodesRowOf(x, a) || EncodesRowOf(x, b))
  }

  lemma WithoutTip(sha: string -> Digest, rows: seq<Row>)
    requires rows != [] && AllLinked(sha, rows)
    ensures var n := |rows| - 1;
            AllLinked(sha, rows[..n]) && rows[n].prevHash == TipHash(rows[..n])
            && rows[n].recordHash == sha(Encode(rows[n]))
  {
    assert Linked(sha, rows, |rows| - 1);
    LinkedPrefix(sha, rows, |rows| - 1);
  }

  lemma ExplainsWithTip(sha: string -> Digest, f: Forgery, a: seq<Row>, b: seq<Row>, r: Row, t: Row)
    requires Explains(sha, f, a, b) && SameRecord(r, t)
    ensures Explains(sha, f, a + [r], b + [t])
  {
    assert (a + [r])[..|a|] == a && (b + [t])[..|b|] == b;
    if f.Collision? {
      EncodesRowOfPrefix(f.x, a + [r], |a|);
      EncodesRowOfPrefix(f.y, b + [t], |b|);
    } else if f.GenesisPreimage? {
      EncodesRowOfPrefix(f.x, a + [r], |a|);
      EncodesRowOfPrefix(f.x, b + [t], |b|);
    }
  }

  lemma {:induction false} CompareExplains(sha: string -> Digest, a: seq<Row>, b: seq<Row>)
    requires AllLinked(sha, a) && AllLinked(sha, b) && TipHash(a) == TipHash(b)
    requires forall r <- a :: CleanRow(r)
    ensures Explains(sha, Compare(a, b), a, b)
  {
    var m, n := |a| - 1, |b| - 1;
    if m >= 0 { WithoutTip(sha, a); }
    if n >= 0 { WithoutTip(sha, b); }
    if m >= 0 && n >= 0 && Encode(a[m]) == Encode(b[n]) {
      EncodeUnambiguous(a[m], b[n]);
      CompareExplains(sha, a[..m], b[..n]);
      assert a == a[..m] + [a[m]] && b == b[..n] + [b[n]];
      ExplainsWithTip(sha, Compare(a, b), a[..m], b[..n], a[m], b[n]);
    }
  }

  lemma EncodesRowOfPrefix(x: string, rows: seq<Row>, n: nat)
    requires n <= |rows|
    ensures EncodesRowOf(x, rows[..n]) ==> EncodesRowOf(x, rows)
  {
    if EncodesRowOf(x, rows[..n]) {
      var i :| 0 <= i < n && x == Encode(rows[..n][i]);
      assert x == Encode(rows[i]);
    }
  }

  /** Replace the rows of any nonempty sound log, leave its mark: if the result still
      verifies, nothing hashed has changed and the tip keeps its number, or the two logs
      hand over a collision or a preimage of the genesis value. */
  lemma TamperEvidence(sha: string -> Digest, log: Log, rows: seq<Row>)
    requires Sound(sha, log) && log.rows != []
    requires Verifies(sha, log.(rows := rows))
    ensures Explains(sha, Compare(log.rows, rows), log.rows, rows)
    ensures Compare(log.rows, rows).Agreement? ==>
              |rows| == |log.rows| && rows[|rows| - 1].seqNo == log.rows[|rows| - 1].seqNo
  {
    CompareExplains(sha, log.rows, rows);
  }

  /** Conversely, equal records verify exactly when the tip keeps its number: renumbering
      any other row is never noticed. */
  lemma RenumberingVerifies(sha: string -> Digest, log: Log, rows: seq<Row>)
    requires Sound(sha, log) && log.rows != []
    requires SameRecords(log.rows, rows)
    ensures Verifies(sha, log.(rows := rows)) <==> rows[|rows| - 1].seqNo == |rows|
  {
    forall i | 0 <= i < |rows| ensures Linked(sha, rows, i) {
      assert SameRecord(log.rows[i], rows[i]) && Linked(sha, log.rows, i);
      assert Encode(log.rows[i]) == Encode(rows[i]);
      if i > 0 { assert SameRecord(log.rows[i - 1], rows[i - 1]); }
    }
    assert SameRecord(log.rows[|rows| - 1], rows[|rows| - 1]);
  }

  /** A log of two rows whose first was renumbered, and which verifies. */
  lemma ARenumberedLogVerifies(sha: string -> Digest)
    ensures var log := AppendAll(sha, [Entry("a", "", ""), Entry("b", "", "")]);
            var rows := log.rows[0 := log.rows[0].(seqNo := 7)];
            rows != log.rows && Verifies(sha, log.(rows := rows))
  {
    hide Verifies, AppendAll;
    var es := [Entry("a", "", ""), Entry("b", "", "")];
    AppendAllSound(sha, es);
    var log := AppendAll(sha, es);
    var rows := log.rows[0 := log.rows[0].(seqNo := 7)];
    RenumberingVerifies(sha, log, rows);
  }

  /** Dropping newest rows is always caught, whatever the hash. */
  lemma TruncationDetected(sha: string -> Digest, log: Log, keep: nat)
    requires Sound(sha, log) && keep < |log.rows|
    ensures !Verifies(sha, log.(rows := log.rows[..keep]))
  {
    assert log.headSeq == Some(|log.rows|);
  }
}
