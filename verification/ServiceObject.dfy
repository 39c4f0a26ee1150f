/** The service object (service.py `ToolConnectService`): it owns a store and a catalog,
    updates both in place, and does what the specification of each call says. */
module ServiceObject {
  import opened Wrappers
  import opened Text
  import opened CanonicalJson
  import opened AuditChain
  import opened AuditBody
  import opened Ledger
  import opened Descriptor
  import opened Serializers
  import opened ToolCatalog
  import opened Policy
  import opened StoreObject
  import opened GovAcceptance
  import S = ServiceCalls
  import P = Persistence
  import G = GovGrants
  import D = Documents
  import GS = GovScope

  function StatusCode(e: P.CallError): int {
    match e
    case BadRequest => 400
    case NotFound => 404
    case Conflicting => 409
    case Unprocessable => 422
  }

  /** The audit note of a catalog call. */
  function NoteOf(call: P.Call): Body {
    match call
    case RegisterCall(sid, _, _, declares, _) => Note(SourceNote, sid, SortNames(set n | n in declares))
    case IngestCall(sid, claims) => Note(IngestNote, sid, SortNames(P.Names(claims)))
    case AssertCall(sid, name, _, _) => Note(AssertionNote, sid, [name])
  }

  class ToolConnectService {
    const store: SqliteStore
    const catalog: Catalog
    const pdp: Pdp
    const gov: S.Governance
    /** The in-memory list the broker appends to, mirrored into the store. */
    var auditLog: seq<Body>

    /** At startup the catalog is whatever the store hydrates to. */
    constructor (store: SqliteStore, catalog: Catalog, pdp: Pdp, gov: S.Governance)
      requires P.LoadCatalog(catalog.digest, store.tables) == Some(catalog.View())
      ensures this.store == store && this.catalog == catalog && this.pdp == pdp && this.gov == gov
      ensures auditLog == [] && P.Faithful(catalog.digest, World())
    {
      this.store, this.catalog, this.pdp, this.gov := store, catalog, pdp, gov;
      auditLog := [];
    }

    /** The catalog in memory beside the catalog tables on disk. */
    ghost function World(): P.World
      reads store, catalog
    {
      P.World(catalog.View(), store.tables)
    }

    // ----- catalog calls ------------------------------------------------------------

    method NoteCall(call: P.Call, m: Moment) returns (r: Wrappers.Result<int, S.Fault>)
      modifies store
      ensures store.tables == old(store.tables)
      ensures store.View() == AppendAudit(store.sha, old(store.View()), NoteOf(call), m).0
      ensures r.Success? <==> AppendAudit(store.sha, old(store.View()), NoteOf(call), m).1.Success?
      ensures r.Success? ==> r.value == AppendAudit(store.sha, old(store.View()), NoteOf(call), m).1.value
      ensures r.Failure? ==> r.error.StoreRaised?
    {
      var logged := store.AppendAudit(NoteOf(call), m);
      return if logged.Success? then Success(logged.value) else Failure(S.StoreRaised(logged.error));
    }

    /** What a catalog call did: refused with nothing changed; or stopped at the table write
        that raised, with memory ahead of the tables; or carried out on both sides and noted.
        `failing` is the number of table writes that go through before one raises. */
    ghost predicate CallMade(call: P.Call, before: P.World, after: P.World, s: Store, t: Store,
                             r: Wrappers.Result<int, S.Fault>, failing: nat, m: Moment)
    {
      var refusal := P.Refusal(before.cat, call);
      if refusal.Some? then after == before && t == s && r == Failure(S.Status(StatusCode(refusal.value)))
      else if failing < |P.CrashPoints(catalog.digest, before, call)| - 1 then
        && after.cat == P.MemoryAt(catalog.digest, before, call, failing)
        && after.tables == P.CrashPoints(catalog.digest, before, call)[failing]
        && t == s && r == Failure(S.StoreRaised(WriteFailed))
      else
        && after == P.Complete(catalog.digest, before, call)
        && t == AppendAudit(store.sha, s, NoteOf(call), m).0
        && (r.Success? <==> AppendAudit(store.sha, s, NoteOf(call), m).1.Success?)
        && (r.Success? ==> r.value == AppendAudit(store.sha, s, NoteOf(call), m).1.value)
        && (r.Failure? ==> r.error.StoreRaised?)
    }

    method RegisterSource(sid: string, tier: string, transport: string, declares: seq<string>,
                          command: Option<seq<string>>, failing: nat, m: Moment)
      returns (r: Wrappers.Result<int, S.Fault>)
      modifies store, catalog
      ensures CallMade(P.RegisterCall(sid, tier, transport, declares, command), old(World()), World(),
                       old(store.View()), store.View(), r, failing, m)
    {
      hide AppendAudit, AppendBody, SortNames, P.UpsertSource;
      var t := TierNamed(tier);
      if sid == "" || t.None? { return Failure(S.Status(400)); }
      var source := Source(sid, t.value, transport);
      catalog.RegisterSource(source, set n | n in declares);
      if failing < 1 { return Failure(S.StoreRaised(WriteFailed)); }
      store.WriteSource(source, declares, command);
      r := NoteCall(P.RegisterCall(sid, tier, transport, declares, command), m);
    }

    /** The first pass over a pushed payload: nothing is ingested unless every name is usable. */
    method CheckPayload(claims: seq<P.Claim>) returns (refusal: Option<P.CallError>)
      ensures refusal == P.PayloadRefusal(claims, {})
    {
      var seen: set<string> := {};
      for i := 0 to |claims|
        invariant P.PayloadRefusal(claims, {}) == P.PayloadRefusal(claims[i..], seen)
      {
        var name := claims[i].name;
        if name == "" { return Some(P.BadRequest); }
        if name in seen { return Some(P.Conflicting); }
        assert claims[i..][1..] == claims[i + 1..];
        seen := seen + {name};
      }
      return None;
    }

    method IngestOne(sid: string, cl: P.Claim, fails: bool)
      requires sid in catalog.sources
      modifies store`tables, catalog
      ensures catalog.View() == P.IngestOne(catalog.digest, old(World()), sid, cl).cat
      ensures store.tables == if fails then old(store.tables)
          else P.IngestOne(catalog.digest, old(World()), sid, cl).tables
    {
      hide FingerprintOf, Fingerprint, P.UpsertTool, P.ToolRowOf;
      var got := catalog.IngestClaimed(sid, cl.name, cl.claimed, cl.version);
      var tv := got.value.(schema := cl.schema);
      catalog.tools := catalog.tools[(sid, cl.name) := tv];
      if !fails { store.WriteTool(tv); }
    }

    /** The second pass: each tool into memory, then onto disk, until a write raises. */
    method IngestEach(sid: string, claims: seq<P.Claim>, failing: nat) returns (ok: bool)
      requires sid in catalog.sources
      modifies store`tables, catalog
      ensures ok <==> failing >= |claims|
      ensures ok ==> World() == P.IngestAll(catalog.digest, old(World()), sid, claims)
      ensures !ok ==> catalog.View() == P.IngestAll(catalog.digest, old(World()), sid, claims[..failing + 1]).cat
      ensures !ok ==> store.tables == P.IngestAll(catalog.digest, old(World()), sid, claims[..failing]).tables
    {
      hide P.IngestAll, P.IngestOne;
      ghost var w := World();
      NothingIngested(catalog.digest, w, sid);
      for i := 0 to |claims|
        invariant sid in catalog.sources && i <= failing
        invariant World() == P.IngestAll(catalog.digest, w, sid, claims[..i])
      {
        assert claims[..i + 1] == claims[..i] + [claims[i]];
        P.IngestAllSnoc(catalog.digest, w, sid, claims[..i], claims[i]);
        IngestOne(sid, claims[i], i == failing);
        if i == failing { return false; }
      }
      assert claims[..|claims|] == claims;
      return true;
    }

    method IngestPayload(sid: string, claims: seq<P.Claim>, failing: nat, m: Moment)
      returns (r: Wrappers.Result<int, S.Fault>)
      modifies store, catalog
      ensures CallMade(P.IngestCall(sid, claims), old(World()), World(), old(store.View()), store.View(), r, failing, m)
    {
      hide AppendAudit, AppendBody, P.PayloadRefusal, P.IngestAll, P.RecordDiscovery, SortNames;
      if sid !in catalog.sources { return Failure(S.Status(404)); }
      var refusal := CheckPayload(claims);
      if refusal.Some? { return Failure(S.Status(StatusCode(refusal.value))); }
      var ok := IngestEach(sid, claims, failing);
      assert claims[..|claims|] == claims;
      if !ok || failing == |claims| { return Failure(S.StoreRaised(WriteFailed)); }
      store.WriteDiscovery(sid, P.Names(claims));
      r := NoteCall(P.IngestCall(sid, claims), m);
    }

    method AssertTool(sid: string, name: string, desc: Option<Asserted>, schemaOk: bool, failing: nat, m: Moment)
      returns (r: Wrappers.Result<int, S.Fault>)
      modifies store, catalog
      ensures CallMade(P.AssertCall(sid, name, desc, schemaOk), old(World()), World(),
                       old(store.View()), store.View(), r, failing, m)
    {
      hide AppendAudit, AppendBody, FingerprintOf, P.UpsertTool, P.UpsertAssertion, SortNames, Rederive, BodyText,
          KindOf;
      if desc.None? { return Failure(S.Status(400)); }
      if (sid, name) in catalog.tools && !schemaOk { return Failure(S.Status(422)); }
      var got := catalog.AssertDescriptor(sid, name, desc.value);
      if got.Failure? { return Failure(S.Status(if got.error.NotAsserted? then 400 else 404)); }
      if failing < 1 { return Failure(S.StoreRaised(WriteFailed)); }
      store.WriteTool(got.value);
      if failing < 2 { return Failure(S.StoreRaised(WriteFailed)); }
      store.WriteAssertion((sid, name), catalog.assertions[(sid, name)]);
      r := NoteCall(P.AssertCall(sid, name, desc, schemaOk), m);
    }

    // ----- governed calls -----------------------------------------------------------

    /** The broker's append: stored first, and only then visible in memory. */
    method Log(b: Body, m: Moment) returns (r: Wrappers.Result<int, StoreError>)
      modifies this`auditLog, store
      ensures store.tables == old(store.tables)
      ensures (store.View(), r) == AppendAudit(store.sha, old(store.View()), b, m)
      ensures auditLog == if r.Success? then old(auditLog) + [b] else old(auditLog)
    {
      hide AppendAudit;
      r := store.AppendAudit(b, m);
      if r.Success? { auditLog := auditLog + [b]; }
    }

    /** `authorize`, under the authorization lock: the id bound to the grant is read back from
        the end of the broker's list. */
    method Authorize(a: S.Ask, d: S.Draw, m: Moment, m2: Moment) returns (r: Wrappers.Result<S.Answer, S.Fault>)
      modifies this`auditLog, store
      ensures (store.View(), r) == S.Authorize(store.sha, pdp, old(store.View()), catalog.View(), a, d, m, m2)
      ensures store.tables == old(store.tables)
    {
      hide BrokerVerdict, AppendBody, BodyText, KindOf, NextRow, CanonicalArgs, S.TtlOf, AppendAudit, Issue;
      if S.Malformed(a) { return Failure(S.BAD_REQUEST); }
      var p := a.principal.value;
      var v := BrokerVerdict(pdp, catalog.View(), p, a.sid, a.name, S.Context(a));
      var logged := Log(DecisionBody(d.decisionId, p, a.sid, a.name, v), m);
      if logged.Failure? { return Failure(S.StoreRaised(logged.error)); }
      var decisionId := auditLog[|auditLog| - 1].decisionId;
      if a.args.None? || !v.allowed { return Success(S.Answer(v, decisionId, None)); }
      var ttl := S.TtlOf(a.ttl).value;
      var expires := Stamp(d.expiresText, d.issued.instant + ttl * S.MICROS);
      var hash := S.ArgsHash(store.sha, a.args.value).value;
      var g := Grant(decisionId, p.id, a.sid, a.name, hash, d.issued, expires, None, None);
      var issued := store.IssueGrant(d.grantId, g, Some(ttl), m2);
      if issued.Failure? { return Failure(S.StoreRaised(issued.error)); }
      return Success(S.Answer(v, decisionId, Some(S.GrantReply(d.grantId, hash, d.expiresText, ttl))));
    }

    method RedeemGrant(gid: string, principal: Option<Principal>, args: PyVal, m: Moment, m2: Moment)
      returns (r: Wrappers.Result<RedeemReply, S.Fault>)
      modifies store
      ensures (store.View(), r)
          == S.RedeemGrant(store.sha, old(store.View()), catalog.View(), gid, principal, args, m, m2)
      ensures store.tables == old(store.tables)
    {
      hide CanonicalArgs, Redeem, AppendAudit, Invocable;
      if gid == "" || principal.None? { return Failure(S.BAD_REQUEST); }
      var hash := S.ArgsHash(store.sha, args);
      if hash.None? { return Failure(S.BAD_REQUEST); }
      var p := principal.value;
      var got := store.RedeemGrant(gid, hash.value, p.id, Some(InvocableSet(catalog.View())), m);
      if got.Failure? { return Failure(S.StoreRaised(got.error)); }
      if got.value.reason != Ok {
        var denied := GrantRedeemDenied(gid, got.value.decisionId, p.id, S.ReasonText(got.value.reason));
        var logged := store.AppendAudit(denied, m2);
        if logged.Failure? { return Failure(S.StoreRaised(logged.error)); }
      }
      return Success(got.value);
    }

    method RecordOutcome(did: string, outcome: string, detail: string, gid: Option<string>, m: Moment, m2: Moment)
      returns (r: Wrappers.Result<int, S.Fault>)
      requires RowsMatch(store.View())
      modifies store
      ensures (store.View(), r) == S.RecordOutcome(store.sha, old(store.View()), did, outcome, detail, gid, m, m2)
      ensures store.tables == old(store.tables)
    {
      hide FindDecision, Close, AppendAudit, BodyText, KindOf;
      if did == "" { return Failure(S.BAD_REQUEST); }
      var k := store.FindDecision(did);
      if k >= |store.rows| { return Failure(S.UNKNOWN); }
      var logged := store.AppendAudit(Outcome(did, store.rows[k].seqNo, outcome, detail), m);
      if logged.Failure? { return Failure(S.StoreRaised(logged.error)); }
      if gid.None? { return Success(logged.value); }
      if gid.value !in store.grants { return Failure(S.UNKNOWN); }
      if store.grants[gid.value].decisionId != did { return Failure(S.BAD_REQUEST); }
      var closed := store.CloseGrant(gid.value, "outcome_reported", m2);
      if closed.Failure? { return Failure(S.StoreRaised(closed.error)); }
      return Success(logged.value);
    }

    method CloseGrant(gid: string, reason: string, m: Moment) returns (r: Wrappers.Result<CloseReply, S.Fault>)
      modifies store
      ensures (store.View(), r) == S.CloseGrant(store.sha, old(store.View()), gid, reason, m)
      ensures store.tables == old(store.tables)
    {
      hide Close;
      var closed := store.CloseGrant(gid, reason, m);
      if closed.Failure? { return Failure(S.StoreRaised(closed.error)); }
      if closed.value.None? { return Failure(S.UNKNOWN); }
      return Success(closed.value.value);
    }

    method Deny(a: S.GovAsk, v: G.Verification, reason: string, m: Moment)
      returns (r: Wrappers.Result<S.GovReply, S.Fault>)
      requires !S.GovMalformed(a)
      modifies store
      ensures (store.View(), r) == S.Deny(store.sha, gov, old(store.View()), a, v, reason, m)
      ensures store.tables == old(store.tables)
    {
      hide AppendAudit, CanonicalArgs, S.CodeTexts;
      var logged := store.AppendAudit(S.DeniedBody(store.sha, gov, a, v, reason), m);
      if logged.Failure? { return Failure(S.StoreRaised(logged.error)); }
      return Success(S.GovReply(false, reason, S.GrantIdOf(v), S.CodeTexts(v.codes)));
    }

    method RedeemGovernanceGrant(a: S.GovAsk, m: Moment, m2: Moment) returns (r: Wrappers.Result<S.GovReply, S.Fault>)
      modifies store
      ensures (store.View(), r) == S.RedeemGovernance(store.sha, gov, old(store.View()), a, m, m2)
      ensures store.tables == old(store.tables)
    {
      hide CanonicalArgs, G.Verify, GS.ScopeCodes, S.Deny, Claim, S.RowFor;
      if S.GovMalformed(a) { return Failure(S.BAD_REQUEST); }
      var o := G.VerifyGrant(gov.tr, a.grant, gov.root, a.at, None, gov.list);
      if o.Raised? { return Failure(S.KeyMissing); }
      RefusalSaysWhy(gov.tr, a.grant, gov.root, a.at, None, gov.list);
      if !o.v.valid {
        r := Deny(a, o.v, G.CodeText(o.v.codes[0]), m);
        return;
      }
      var p := o.v.payload.value;
      var scope := GS.ScopeFailures(gov.tr, p, S.ScopeOf(gov, a));
      if scope != [] {
        r := Deny(a, o.v, G.CodeText(scope[0]), m);
        return;
      }
      var claimed := store.RecordRedemption(D.TextAt(p, "grant_id"), S.RowFor(store.sha, gov, a, p, m.stamp), m);
      if claimed.Failure? { return Failure(S.StoreRaised(claimed.error)); }
      if !claimed.value {
        r := Deny(a, o.v, "already_redeemed", m2);
        return;
      }
      return Success(S.GovReply(true, "ok", S.GrantIdOf(o.v), []));
    }
  }

  lemma NothingIngested(digest: string -> nat, w: P.World, sid: string)
    requires sid in w.cat.sources
    ensures P.IngestAll(digest, w, sid, []) == w
  {
  }

  // ----- refusals of catalog calls, by status ---------------------------------------

  /** The status a catalog call is refused with, if it is. */
  function RefusedWith(c: State, call: P.Call): Option<int> {
    var why := P.Refusal(c, call);
    if why.None? then None else Some(StatusCode(why.value))
  }

  /** A registration: 400 without an id or under a tier that is none of the four. */
  lemma RegisterRefused(c: State, call: P.Call)
    requires call.RegisterCall?
    ensures RefusedWith(c, call) ==
              if call.sid != "" && (call.tier == "verified" || call.tier == "known" || call.tier == "untrusted"
                                    || call.tier == "quarantined")
              then None else Some(400)
  {
  }

  /** An assertion: 400 for a descriptor that does not parse; 422 for a known tool whose input
      schema is not valid; 400 without a name to answer for it; 404 for an unknown tool. */
  lemma AssertRefused(c: State, call: P.Call)
    requires call.AssertCall?
    ensures RefusedWith(c, call) ==
              if call.desc == None then Some(400)
              else if (call.sid, call.name) in c.tools && !call.schemaOk then Some(422)
              else if call.desc.value.assertedBy == "" then Some(400)
              else if (call.sid, call.name) !in c.tools then Some(404)
              else None
  {
  }

  /** The name at `k` is the first that is empty or was there before. */
  ghost predicate FirstBadName(claims: seq<P.Claim>, k: nat) {
    && k < |claims| && !GoodName(claims, k) && forall j :: 0 <= j < k ==> GoodName(claims, j)
  }

  predicate GoodName(claims: seq<P.Claim>, k: nat)
    requires k < |claims|
  {
    claims[k].name != "" && forall j :: 0 <= j < k ==> claims[j].name != claims[k].name
  }

  lemma {:induction false} PayloadByNames(claims: seq<P.Claim>, n: nat, seen: set<string>)
    requires n <= |claims| && seen == (set j | 0 <= j < n :: claims[j].name)
    requires forall j :: 0 <= j < n ==> GoodName(claims, j)
    ensures P.PayloadRefusal(claims[n..], seen) == None <==> forall j :: 0 <= j < |claims| ==> GoodName(claims, j)
    ensures forall k: nat :: FirstBadName(claims, k) ==>
              P.PayloadRefusal(claims[n..], seen)
              == Some(if claims[k].name == "" then P.BadRequest else P.Conflicting)
    decreases |claims| - n
  {
    hide GoodName;
    if n < |claims| {
      assert claims[n..][1..] == claims[n + 1..];
      NameIsGood(claims, n, seen);
      if GoodName(claims, n) {
        PayloadByNames(claims, n + 1, seen + {claims[n].name});
      } else {
        forall k: nat | FirstBadName(claims, k) ensures k == n {}
      }
    }
  }

  lemma NameIsGood(claims: seq<P.Claim>, n: nat, seen: set<string>)
    requires n < |claims| && seen == (set j | 0 <= j < n :: claims[j].name)
    ensures GoodName(claims, n) <==> claims[n].name != "" && claims[n].name !in seen
    ensures seen + {claims[n].name} == set j | 0 <= j < n + 1 :: claims[j].name
  {
  }

  /** An ingest: 404 for an unknown source; otherwise, for the first bad name, 400 when it is
      empty and 409 when it repeats an earlier one. */
  lemma IngestRefused(c: State, call: P.Call)
    requires call.IngestCall?
    ensures call.sid !in c.sources ==> RefusedWith(c, call) == Some(404)
    ensures call.sid in c.sources ==>
              (RefusedWith(c, call) == None <==> forall k :: 0 <= k < |call.claims| ==> GoodName(call.claims, k))
    ensures forall k: nat :: call.sid in c.sources && FirstBadName(call.claims, k) ==>
              RefusedWith(c, call) == Some(if call.claims[k].name == "" then 400 else 409)
  {
    hide GoodName;
    assert call.claims[0..] == call.claims;
    PayloadByNames(call.claims, 0, {});
  }

  /** What the note of a catalog call names. */
  lemma NotesName(call: P.Call)
    ensures var b := NoteOf(call);
      && b.Note? && b.sourceId == call.sid
      && (call.RegisterCall? ==> b.noteKind == SourceNote && forall n :: n in b.names <==> n in call.declares)
      && (call.IngestCall? ==>
            b.noteKind == IngestNote
            && forall n :: n in b.names <==> exists k :: 0 <= k < |call.claims| && call.claims[k].name == n)
      && (call.AssertCall? ==> b.noteKind == AssertionNote && b.names == [call.name])
  {
  }
}
