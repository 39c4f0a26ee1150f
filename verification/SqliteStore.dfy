/** The store object (store.py `SqliteStore`): statements that write in place inside
    transactions, and rollbacks that undo them, proved against the ledger operations. */
module StoreObject {
  import opened Wrappers
  import opened AuditChain
  import opened AuditBody
  import opened JsonRecord
  import opened Ledger
  import opened Descriptor
  import opened ToolCatalog
  import opened Persistence

  class SqliteStore {
    var rows: seq<Row>
    var headSeq: Option<int>
    var headHash: Option<string>
    var grants: map<string, Grant>
    var redemptions: map<string, Redemption>
    var tables: Tables
    /** The bodies the audit rows were rendered from. */
    ghost var bodies: seq<Body>
    const sha: string -> Digest

    constructor (sha: string -> Digest)
      ensures this.sha == sha && View() == EMPTY_STORE && tables == EMPTY_TABLES
    {
      this.sha := sha;
      rows, headSeq, headHash, grants, redemptions := [], None, None, map[], map[];
      tables, bodies := EMPTY_TABLES, [];
    }

    ghost function View(): Store
      reads this
    {
      Store(Log(rows, headSeq, headHash), bodies, grants, redemptions)
    }

    /** Three statements of an open transaction. A fault may strike between them, leaving the
        row in place with the mark behind it: only the caller's rollback makes that good. */
    method AppendInTxn(b: Body, m: Moment) returns (r: Wrappers.Result<int, StoreError>)
      modifies this`rows, this`headSeq, this`headHash, this`bodies
      ensures m.fault ==> r == Failure(AppendFailed)
      ensures !m.fault ==> View() == AppendBody(sha, old(View()), b, m.created)
                           && r == Success(NextRow(sha, old(rows), KindOf(b), BodyText(b), m.created).seqNo)
    {
      hide KindOf, BodyText, Encode;
      var kind, body := KindOf(b), BodyText(b);
      var prev: string := if rows == [] then GENESIS else rows[|rows| - 1].recordHash;
      var n := if rows == [] then 1 else rows[|rows| - 1].seqNo + 1;
      var row := Row(n, kind, body, m.created, prev, "");
      row := row.(recordHash := sha(Encode(row)));
      assert row == NextRow(sha, rows, kind, body, m.created);
      rows := rows + [row];
      bodies := bodies + [b];
      headSeq := Some(n);
      if m.fault { return Failure(AppendFailed); }
      headHash := Some(row.recordHash);
      return Success(n);
    }

    /** ROLLBACK to a state saved at BEGIN. */
    method Rollback(log: Log, ghost bs: seq<Body>, gs: map<string, Grant>, rs: map<string, Redemption>)
      modifies this`rows, this`headSeq, this`headHash, this`bodies, this`grants, this`redemptions
      ensures View() == Store(log, bs, gs, rs)
    {
      rows, headSeq, headHash := log.rows, log.headSeq, log.headHash;
      bodies := bs;
      grants, redemptions := gs, rs;
    }

    method AppendAudit(b: Body, m: Moment) returns (r: Wrappers.Result<int, StoreError>)
      modifies this
      ensures (View(), r) == Ledger.AppendAudit(sha, old(View()), b, m) && tables == old(tables)
    {
      hide AppendBody, BodyText, KindOf;
      var saved := Log(rows, headSeq, headHash);
      ghost var bs := bodies;
      r := AppendInTxn(b, m);
      if r.Failure? { Rollback(saved, bs, grants, redemptions); }
    }

    method IssueGrant(gid: string, g: Grant, ttl: Option<int>, m: Moment) returns (r: Wrappers.Result<int, StoreError>)
      requires Fresh(g)
      modifies this
      ensures (View(), r) == Issue(sha, old(View()), gid, g, ttl, m) && tables == old(tables)
    {
      hide AppendBody, BodyText, KindOf, NextRow;
      if gid in grants { return Failure(IntegrityError); }
      var saved, before := Log(rows, headSeq, headHash), grants;
      ghost var bs := bodies;
      grants := grants[gid := g];
      AppendIgnoresTables(sha, old(View()), grants, redemptions, IssueBody(gid, g, ttl), m.created);
      r := AppendInTxn(IssueBody(gid, g, ttl), m);
      if r.Failure? { Rollback(saved, bs, before, redemptions); }
    }

    /** `redeem_grant`: every branch before the latch rolls back with nothing written. */
    method RedeemGrant(gid: string, argsHash: string, principalId: string, check: Option<InvocableCheck>, m: Moment)
      returns (r: Wrappers.Result<RedeemReply, StoreError>)
      modifies this
      ensures (View(), r) == Redeem(sha, old(View()), gid, argsHash, principalId, check, m) && tables == old(tables)
    {
      hide AppendBody, BodyText, KindOf, NextRow;
      var saved, before := Log(rows, headSeq, headHash), grants;
      ghost var bs := bodies;
      if gid !in grants { return Success(RedeemReply(Reason.NotFound, None, None, None)); }
      var g := grants[gid];
      var did, sid, nm := Some(g.decisionId), Some(g.sourceId), Some(g.name);
      if g.redeemedAt.Some? { return Success(RedeemReply(AlreadyRedeemed, did, sid, nm)); }
      if g.closedAt.Some? { return Success(RedeemReply(Closed, did, sid, nm)); }
      if g.expiresAt.instant <= m.now { return Success(RedeemReply(Expired, did, sid, nm)); }
      if principalId != g.principalId { return Success(RedeemReply(PrincipalMismatch, did, sid, nm)); }
      if argsHash != g.argsHash { return Success(RedeemReply(ArgsMismatch, did, sid, nm)); }
      if check.Some? && (g.sourceId, g.name) !in check.value {
        grants := grants[gid := g.(closedAt := Some(m.stamp))];
        var closed := AppendInTxn(GrantClose(gid, g.decisionId, "not_invocable", false), m);
        if closed.Failure? {
          Rollback(saved, bs, before, redemptions);
          return Failure(AppendFailed);
        }
        return Success(RedeemReply(NotInvocable, did, sid, nm));
      }
      grants := grants[gid := g.(redeemedAt := Some(m.stamp))];
      var redeemed := AppendInTxn(GrantRedeem(gid, g.decisionId, principalId, g.sourceId, g.name), m);
      if redeemed.Failure? {
        Rollback(saved, bs, before, redemptions);
        return Failure(AppendFailed);
      }
      return Success(RedeemReply(Ok, did, sid, nm));
    }

    method CloseGrant(gid: string, reason: string, m: Moment)
      returns (r: Wrappers.Result<Option<CloseReply>, StoreError>)
      modifies this
      ensures (View(), r) == Close(sha, old(View()), gid, reason, m) && tables == old(tables)
    {
      hide AppendBody, BodyText, KindOf, NextRow;
      if gid !in grants { return Success(None); }
      var saved, before := Log(rows, headSeq, headHash), grants;
      ghost var bs := bodies;
      var g := grants[gid];
      var already := g.closedAt.Some?;
      if !already { grants := grants[gid := g.(closedAt := Some(m.stamp))]; }
      assert grants == before[gid := if already then g else g.(closedAt := Some(m.stamp))];
      var closed := AppendInTxn(GrantClose(gid, g.decisionId, reason, already), m);
      if closed.Failure? {
        Rollback(saved, bs, before, redemptions);
        return Failure(AppendFailed);
      }
      return Success(Some(CloseReply(g.decisionId, already)));
    }

    /** `record_govgrant_redemption`: the insert is refused by the primary key on a replay. */
    method RecordRedemption(gid: string, r0: Redemption, m: Moment) returns (r: Wrappers.Result<bool, StoreError>)
      modifies this
      ensures (View(), r) == Ledger.Claim(sha, old(View()), gid, r0, m) && tables == old(tables)
    {
      hide AppendBody, BodyText, KindOf, NextRow;
      var saved, before := Log(rows, headSeq, headHash), redemptions;
      ghost var bs := bodies;
      if gid in redemptions { return Success(false); }
      var row := r0.(redeemedAt := m.stamp);
      redemptions := redemptions[gid := row];
      var claimed := AppendInTxn(ClaimBody(gid, row), m);
      if claimed.Failure? {
        Rollback(saved, bs, grants, before);
        return Failure(AppendFailed);
      }
      return Success(true);
    }

    /** One operation of any caller. */
    method Perform(op: Op)
      requires Callable(op)
      modifies this
      ensures View() == Apply(sha, old(View()), op) && tables == old(tables)
    {
      hide Issue, Redeem, Close, Ledger.Claim, Ledger.AppendAudit;
      match op
      case AppendOp(b, m) => var r := AppendAudit(b, m);
      case IssueOp(gid, g, ttl, m) => var r := IssueGrant(gid, g, ttl, m);
      case RedeemOp(gid, h, p, check, m) => var r := RedeemGrant(gid, h, p, check, m);
      case CloseOp(gid, reason, m) => var r := CloseGrant(gid, reason, m);
      case ClaimOp(gid, row, m) => var r := RecordRedemption(gid, row, m);
    }

    /** Whatever other callers do to the store between two steps of one of them. */
    method Meanwhile(ops: seq<Op>)
      requires AllCallable(ops)
      modifies this
      ensures View() == Run(sha, old(View()), ops) && tables == old(tables)
    {
      hide Apply, Callable;
      for i := 0 to |ops|
        invariant AllCallable(ops[i..]) && tables == old(tables)
        invariant Run(sha, old(View()), ops) == Run(sha, View(), ops[i..])
      {
        assert ops[i..][1..] == ops[i + 1..] && ops[i..][0] == ops[i];
        Perform(ops[i]);
      }
    }

    /** `find_decision`: scans the stored rows, reading each decision body back from its JSON. */
    method FindDecision(did: string) returns (k: nat)
      requires RowsMatch(View())
      ensures k == Ledger.FindDecision(bodies, did)
    {
      hide KindOf, BodyText, Ledger.FindDecision;
      k := 0;
      while k < |rows|
        invariant k <= |rows|
        invariant forall j :: 0 <= j < k ==> !IsDecision(bodies[j], did)
      {
        DecisionReadsBack(bodies[k], did);
        if rows[k].kind == "decision" && CellAt(rows[k].body, "decision_id") == Word(did) { break; }
        k := k + 1;
      }
      FoundFirst(bodies, did, k);
    }

    method Verify() returns (v: Verification)
      ensures v.Verified? <==> Verifies(sha, View().log)
      ensures v.Verified? ==> v.records == |View().log.rows|
    {
      v := VerifyChain(sha, Log(rows, headSeq, headHash));
    }

    method WriteSource(source: Source, declares: seq<string>, command: Option<seq<string>>)
      modifies this`tables
      ensures tables == UpsertSource(old(tables), source, declares, command)
    {
      var row := SourceRowOf(source, declares, command);
      tables := tables.(sources := tables.sources[source.sourceId := row]);
    }

    method WriteTool(tv: ToolVersion)
      modifies this`tables
      ensures tables == UpsertTool(old(tables), tv)
    {
      var row := ToolRowOf(tv);
      tables := tables.(tools := tables.tools[(tv.sourceId, tv.name) := row]);
    }

    method WriteAssertion(id: ToolId, r: AssertionRecord)
      modifies this`tables
      ensures tables == UpsertAssertion(old(tables), id, r)
    {
      tables := UpsertAssertion(tables, id, r);
    }

    method WriteDiscovery(sid: string, names: set<string>)
      modifies this`tables
      ensures tables == RecordDiscovery(old(tables), sid, names)
    {
      tables := RecordDiscovery(tables, sid, names);
    }
  }

  /** The sequence number an append hands out depends on the log alone. */
  lemma AppendIgnoresTables(sha: string -> Digest, s: Store, gs: map<string, Grant>, rs: map<string, Redemption>,
                            b: Body, created: IsoText)
    ensures AppendBody(sha, s.(grants := gs, redemptions := rs), b, created)
         == AppendBody(sha, s, b, created).(grants := gs, redemptions := rs)
  {
  }

  predicate IsDecision(b: Body, did: string) { b.Decision? && b.decisionId == did }

  lemma FoundFirst(bs: seq<Body>, did: string, k: nat)
    requires k <= |bs| && (forall j :: 0 <= j < k ==> !IsDecision(bs[j], did)) && (k < |bs| ==> IsDecision(bs[k], did))
    ensures Ledger.FindDecision(bs, did) == k
  {
    hide Ledger.FindDecision;
    var n := Ledger.FindDecision(bs, did);
  }

  /** The stored kind and text say which decision a record is about. */
  lemma DecisionReadsBack(b: Body, did: string)
    ensures KindOf(b) == "decision" && CellAt(BodyText(b), "decision_id") == Word(did) <==> IsDecision(b, did)
  {
    hide CellAt, RecordText, DistinctColumns;
    DecisionKind(b);
    if b.Decision? {
      ColumnNamesDistinct(b);
      assert Columns(b)[8] == Column("decision_id", Word(b.decisionId));
      CellReadsBack(Columns(b), Column("decision_id", Word(b.decisionId)));
    }
  }

  lemma DecisionKind(b: Body)
    ensures KindOf(b) == "decision" <==> b.Decision?
  {
  }
}
