/** The in-memory catalog (catalog.py): namespaced identity, durable assertion evidence,
    and drift. */
module ToolCatalog {
  import opened Wrappers
  import opened Text
  import opened JsonRecord
  import opened Descriptor

  datatype AssertionRecord = AssertionRecord(descriptor: Asserted, fingerprint: nat)

  datatype State = State(sources: map<string, Source>, tools: map<ToolId, ToolVersion>,
                         declared: map<string, set<string>>, assertions: map<ToolId, AssertionRecord>)

  const EMPTY := State(map[], map[], map[], map[])

  datatype CatalogError = UnknownSource | UnknownTool | NotAsserted

  // ----- fingerprints ---------------------------------------------------------------

  function Hint(h: Option<bool>): Cell { if h.None? then Null else Flag(h.value) }

  function ClaimCells(version: string, c: Claimed): seq<Cell> {
    [Word(version), Word(c.description), Hint(c.readOnly), Hint(c.destructive), Hint(c.idempotent), Hint(c.openWorld)]
  }

  /** The leading eight bytes of a digest (`digest`) of the claim's canonical text. */
  function Fingerprint(digest: string -> nat, version: string, c: Claimed): nat {
    digest(ListText(ClaimCells(version, c)))
  }

  function FingerprintOf(digest: string -> nat, tv: ToolVersion): nat {
    Fingerprint(digest, tv.version, tv.claimed)
  }

  /** Equal fingerprints mean the same version and claim, or a collision of the digest. */
  lemma FingerprintBinds(digest: string -> nat, v: string, c: Claimed, w: string, d: Claimed)
    requires Fingerprint(digest, v, c) == Fingerprint(digest, w, d)
    ensures (v == w && c == d)
         || (ListText(ClaimCells(v, c)) != ListText(ClaimCells(w, d))
             && digest(ListText(ClaimCells(v, c))) == digest(ListText(ClaimCells(w, d))))
  {
    if ListText(ClaimCells(v, c)) == ListText(ClaimCells(w, d)) {
      ListTextInjective(ClaimCells(v, c), ClaimCells(w, d));
      var a, b := ClaimCells(v, c), ClaimCells(w, d);
      assert a[0] == b[0] && a[1] == b[1] && a[2] == b[2] && a[3] == b[3] && a[4] == b[4] && a[5] == b[5];
    }
  }

  // ----- operations -----------------------------------------------------------------

  function Register(c: State, source: Source, declares: set<string>): State {
    c.(sources := c.sources[source.sourceId := source], declared := c.declared[source.sourceId := declares])
  }

  /** Re-derives the assertion of a tool from the evidence on file. */
  function Rederive(digest: string -> nat, tv: ToolVersion, evidence: map<ToolId, AssertionRecord>): ToolVersion {
    var id := (tv.sourceId, tv.name);
    if id in evidence && FingerprintOf(digest, tv) == evidence[id].fingerprint
    then tv.(asserted := Some(evidence[id].descriptor))
    else tv.(asserted := None)
  }

  /** `ingest_claimed`: a matching claim keeps its assertion, a changed one loses it. */
  function Ingest(digest: string -> nat, c: State, sid: string, name: string, claimed: Claimed, version: string)
    : Result<State, CatalogError>
  {
    if sid !in c.sources then Failure(UnknownSource)
    else
      var tv := Rederive(digest, ToolVersion(name, version, sid, claimed, None, "{}"), c.assertions);
      Success(c.(tools := c.tools[(sid, name) := tv]))
  }

  /** `assert_descriptor`: an operator vouches for the claim as it stands. */
  function Assert(digest: string -> nat, c: State, sid: string, name: string, desc: Asserted)
    : Result<State, CatalogError>
  {
    if desc.assertedBy == "" then Failure(NotAsserted)
    else if (sid, name) !in c.tools then Failure(UnknownTool)
    else
      var tv := c.tools[(sid, name)].(asserted := Some(desc));
      Success(c.(tools := c.tools[(sid, name) := tv],
                 assertions := c.assertions[(sid, name) := AssertionRecord(desc, FingerprintOf(digest, tv))]))
  }

  /** What the service stores after an ingest: the same entry with its input schema. */
  function IngestWithSchema(digest: string -> nat, c: State, sid: string, name: string, claimed: Claimed,
                            version: string, schema: string): Result<State, CatalogError>
  {
    var r := Ingest(digest, c, sid, name, claimed, version);
    if r.Failure? then r
    else Success(r.value.(tools := r.value.tools[(sid, name) := r.value.tools[(sid, name)].(schema := schema)]))
  }

  /** What each operation leaves: an ingested tool is its claim, version and schema as given,
      asserted by the descriptor on file exactly when that was given for a claim of the same
      fingerprint; an assertion binds its descriptor to the claim there. Nothing else changes. */
  lemma IngestLeaves(digest: string -> nat, c: State, sid: string, name: string, claimed: Claimed, version: string,
                     schema: string)
    ensures var r := IngestWithSchema(digest, c, sid, name, claimed, version, schema);
      && (r.Success? <==> sid in c.sources)
      && (r.Failure? ==> r.error == UnknownSource)
      && (r.Success? ==>
            var id, fp := (sid, name), digest(ListText(ClaimCells(version, claimed)));
            var standing := if id in c.assertions && c.assertions[id].fingerprint == fp
                            then Some(c.assertions[id].descriptor) else None;
            r.value == c.(tools := c.tools[id := ToolVersion(name, version, sid, claimed, standing, schema)]))
  {
  }

  lemma AssertLeaves(digest: string -> nat, c: State, sid: string, name: string, desc: Asserted)
    ensures var r, id := Assert(digest, c, sid, name, desc), (sid, name);
      && (desc.assertedBy == "" ==> r == Failure(NotAsserted))
      && (desc.assertedBy != "" && id !in c.tools ==> r == Failure(UnknownTool))
      && (desc.assertedBy != "" && id in c.tools ==>
            var tv := c.tools[id];
            var fp := digest(ListText(ClaimCells(tv.version, tv.claimed)));
            r == Success(c.(tools := c.tools[id := tv.(asserted := Some(desc))],
                            assertions := c.assertions[id := AssertionRecord(desc, fp)])))
  {
  }

  // ----- questions ------------------------------------------------------------------

  datatype Status = Never | StandsAsserted | Changed

  function StatusOf(c: State, sid: string, name: string): Status {
    if (sid, name) !in c.assertions then Never
    else if (sid, name) in c.tools && c.tools[(sid, name)].asserted.Some? then StandsAsserted
    else Changed
  }

  predicate Invocable(c: State, sid: string, name: string) {
    && (sid, name) in c.tools && c.tools[(sid, name)].asserted.Some?
    && sid in c.sources && c.sources[sid].tier.Invocable()
  }

  function InvocableSet(c: State): set<ToolId> {
    set id | id in c.tools && Invocable(c, id.0, id.1)
  }

  datatype Resolution = Resolved(id: ToolId) | NoSuchName | Ambiguous

  function FindAll(c: State, name: string): set<ToolId> { set id | id in c.tools && id.1 == name }

  /** `resolve`: a bare name, only when exactly one source exposes it. */
  ghost function Resolve(c: State, name: string): Resolution {
    var matches := FindAll(c, name);
    if matches == {} then NoSuchName
    else if |matches| > 1 then Ambiguous
    else var id :| id in matches; Resolved(id)
  }

  datatype Drift = Drift(advertisedMissing: seq<string>, undeclaredPresent: seq<string>, unasserted: seq<string>,
                         conflicts: seq<(string, Conflict)>, redefined: seq<string>)
  {
    predicate Clean() {
      advertisedMissing == [] && undeclaredPresent == [] && unasserted == [] && conflicts == [] && redefined == []
    }
  }

  function Declared(c: State, sid: string): set<string> { if sid in c.declared then c.declared[sid] else {} }

  function Mine(c: State, sid: string): set<string> { set id | id in c.tools && id.0 == sid :: id.1 }

  function Tagged(name: string, cs: seq<Conflict>): (r: seq<(string, Conflict)>)
    ensures |r| == |cs|
    ensures forall k :: 0 <= k < |cs| ==> r[k] == (name, cs[k])
  {
    if cs == [] then [] else [(name, cs[0])] + Tagged(name, cs[1..])
  }

  function ConflictsOf(c: State, sid: string, names: seq<string>): seq<(string, Conflict)>
    requires forall n <- names :: (sid, n) in c.tools
  {
    if names == [] then []
    else Tagged(names[0], c.tools[(sid, names[0])].Conflicts()) + ConflictsOf(c, sid, names[1..])
  }

  function DriftOf(c: State, sid: string, discovered: set<string>): Drift {
    var declared := Declared(c, sid);
    var mine := Mine(c, sid);
    Drift(SortNames(declared - discovered),
          SortNames(discovered - declared),
          SortNames(set n | n in discovered && StatusOf(c, sid, n) == Never),
          ConflictsOf(c, sid, SortNames(discovered * mine)),
          SortNames(set n | n in discovered * mine && StatusOf(c, sid, n) == Changed))
  }

  // ----- the class ------------------------------------------------------------------

  class Catalog {
    var sources: map<string, Source>
    var tools: map<ToolId, ToolVersion>
    var declared: map<string, set<string>>
    var assertions: map<ToolId, AssertionRecord>
    const digest: string -> nat

    constructor (digest: string -> nat, from: State)
      ensures this.digest == digest && View() == from
    {
      this.digest := digest;
      sources, tools, declared, assertions := from.sources, from.tools, from.declared, from.assertions;
    }

    function View(): State
      reads this
    {
      State(sources, tools, declared, assertions)
    }

    method RegisterSource(source: Source, declares: set<string>)
      modifies this
      ensures View() == Register(old(View()), source, declares)
    {
      sources := sources[source.sourceId := source];
      declared := declared[source.sourceId := declares];
    }

    method IngestClaimed(sid: string, name: string, claimed: Claimed, version: string)
      returns (r: Result<ToolVersion, CatalogError>)
      modifies this
      ensures var spec := Ingest(digest, old(View()), sid, name, claimed, version);
              if spec.Success? then View() == spec.value && r == Success(tools[(sid, name)])
              else View() == old(View()) && r == Failure(spec.error)
    {
      if sid !in sources { return Failure(UnknownSource); }
      var tv := ToolVersion(name, version, sid, claimed, None, "{}");
      if (sid, name) in assertions && FingerprintOf(digest, tv) == assertions[(sid, name)].fingerprint {
        tv := tv.(asserted := Some(assertions[(sid, name)].descriptor));
      }
      tools := tools[(sid, name) := tv];
      return Success(tv);
    }

    method AssertDescriptor(sid: string, name: string, desc: Asserted)
      returns (r: Result<ToolVersion, CatalogError>)
      modifies this
      ensures var spec := Assert(digest, old(View()), sid, name, desc);
              if spec.Success? then View() == spec.value && r == Success(tools[(sid, name)])
              else View() == old(View()) && r == Failure(spec.error)
    {
      if desc.assertedBy == "" { return Failure(NotAsserted); }
      if (sid, name) !in tools { return Failure(UnknownTool); }
      var tv := tools[(sid, name)].(asserted := Some(desc));
      tools := tools[(sid, name) := tv];
      assertions := assertions[(sid, name) := AssertionRecord(desc, FingerprintOf(digest, tv))];
      return Success(tv);
    }
  }

  // ----- runs and their history -----------------------------------------------------

  datatype CatOp =
    | RegisterOp(source: Source, declares: set<string>)
    | IngestOp(sid: string, name: string, claimed: Claimed, version: string, schema: string)
    | AssertOp(sid: string, name: string, desc: Asserted)
  {
    function SourceId(): string { if RegisterOp? then source.sourceId else sid }
  }

  /** One operation; a refused one changes nothing. */
  function Do(digest: string -> nat, c: State, op: CatOp): State {
    match op
    case RegisterOp(s, ds) => Register(c, s, ds)
    case IngestOp(sid, name, claimed, version, schema) =>
      var r := IngestWithSchema(digest, c, sid, name, claimed, version, schema);
      if r.Success? then r.value else c
    case AssertOp(sid, name, desc) =>
      var r := Assert(digest, c, sid, name, desc);
      if r.Success? then r.value else c
  }

  function DoAll(digest: string -> nat, ops: seq<CatOp>): State {
    if ops == [] then EMPTY else Do(digest, DoAll(digest, ops[..|ops| - 1]), ops[|ops| - 1])
  }

  predicate Registered(ops: seq<CatOp>, sid: string) {
    exists i :: 0 <= i < |ops| && ops[i].RegisterOp? && ops[i].source.sourceId == sid
  }

  /** The claim a tool last made while its source was registered, read off the history. */
  function LastClaim(ops: seq<CatOp>, id: ToolId): Option<(string, Claimed)> {
    if ops == [] then None
    else
      var front, op := ops[..|ops| - 1], ops[|ops| - 1];
      if op.IngestOp? && (op.sid, op.name) == id && Registered(front, op.sid) then Some((op.version, op.claimed))
      else LastClaim(front, id)
  }

  datatype Vouch = Vouch(version: string, claimed: Claimed, desc: Asserted)

  /** The claim an operator last vouched for, with the descriptor, read off the history. */
  function LastVouch(ops: seq<CatOp>, id: ToolId): Option<Vouch> {
    if ops == [] then None
    else
      var front, op := ops[..|ops| - 1], ops[|ops| - 1];
      if op.AssertOp? && (op.sid, op.name) == id && op.desc.assertedBy != "" && LastClaim(front, id).Some?
      then Some(Vouch(LastClaim(front, id).value.0, LastClaim(front, id).value.1, op.desc))
      else LastVouch(front, id)
  }

  /** Whether the history says the tool is asserted now, and by which descriptor. */
  function StandingAssertion(digest: string -> nat, ops: seq<CatOp>, id: ToolId): Option<Asserted> {
    var claim, vouch := LastClaim(ops, id), LastVouch(ops, id);
    if claim.Some? && vouch.Some?
       && Fingerprint(digest, claim.value.0, claim.value.1)
           == Fingerprint(digest, vouch.value.version, vouch.value.claimed)
    then Some(vouch.value.desc) else None
  }

  lemma RegisteredSnoc(ops: seq<CatOp>, op: CatOp, sid: string)
    ensures Registered(ops + [op], sid) <==> Registered(ops, sid) || (op.RegisterOp? && op.source.sourceId == sid)
  {
    var all := ops + [op];
    if Registered(ops, sid) {
      var i :| 0 <= i < |ops| && ops[i].RegisterOp? && ops[i].source.sourceId == sid;
      assert all[i] == ops[i];
    }
    if op.RegisterOp? && op.source.sourceId == sid { assert all[|ops|] == op; }
  }

  /** One tool's entries are what its history predicts. */
  ghost predicate TracksId(digest: string -> nat, c: State, ops: seq<CatOp>, id: ToolId) {
    var claim, vouch := LastClaim(ops, id), LastVouch(ops, id);
    && (id in c.tools <==> claim.Some?)
    && (id in c.assertions <==> vouch.Some?)
    && (id in c.assertions ==> id in c.tools)
    && (id in c.tools ==>
          && id.0 in c.sources
          && (c.tools[id].sourceId, c.tools[id].name) == id
          && (c.tools[id].version, c.tools[id].claimed) == claim.value
          && c.tools[id].asserted == StandingAssertion(digest, ops, id))
    && (id in c.assertions ==>
          c.assertions[id]
              == AssertionRecord(vouch.value.desc, Fingerprint(digest, vouch.value.version, vouch.value.claimed)))
  }

  /** Catalog contents that the history predicts. */
  ghost predicate Tracks(digest: string -> nat, c: State, ops: seq<CatOp>) {
    && (forall sid :: sid in c.sources <==> Registered(ops, sid))
    && (forall id :: TracksId(digest, c, ops, id))
  }

  /** What an operation does not touch stays tracked. */
  lemma UntouchedTracks(digest: string -> nat, c: State, c': State, ops: seq<CatOp>, op: CatOp, id: ToolId)
    requires TracksId(digest, c, ops, id) && c.sources.Keys <= c'.sources.Keys
    requires id in c'.tools <==> id in c.tools
    requires id in c.tools ==> c'.tools[id] == c.tools[id]
    requires id in c'.assertions <==> id in c.assertions
    requires id in c.assertions ==> c'.assertions[id] == c.assertions[id]
    requires LastClaim(ops + [op], id) == LastClaim(ops, id) && LastVouch(ops + [op], id) == LastVouch(ops, id)
    ensures TracksId(digest, c', ops + [op], id)
  {
  }

  lemma OtherHistory(ops: seq<CatOp>, op: CatOp, id: ToolId)
    requires op.RegisterOp? || (op.sid, op.name) != id
    ensures LastClaim(ops + [op], id) == LastClaim(ops, id) && LastVouch(ops + [op], id) == LastVouch(ops, id)
  {
    assert (ops + [op])[..|ops|] == ops;
  }

  predicate Refused(c: State, op: CatOp) {
    (op.IngestOp? && op.sid !in c.sources)
    || (op.AssertOp? && (op.desc.assertedBy == "" || (op.sid, op.name) !in c.tools))
  }

  /** A refused operation leaves no trace in the history either. */
  lemma RefusedHistory(digest: string -> nat, c: State, ops: seq<CatOp>, op: CatOp, id: ToolId)
    requires Tracks(digest, c, ops) && Refused(c, op)
    ensures LastClaim(ops + [op], id) == LastClaim(ops, id) && LastVouch(ops + [op], id) == LastVouch(ops, id)
  {
    assert (ops + [op])[..|ops|] == ops;
    if op.AssertOp? { assert TracksId(digest, c, ops, (op.sid, op.name)); }
  }

  lemma TouchedTracks(digest: string -> nat, c: State, ops: seq<CatOp>, op: CatOp)
    requires Tracks(digest, c, ops) && !op.RegisterOp? && !Refused(c, op)
    ensures TracksId(digest, Do(digest, c, op), ops + [op], (op.sid, op.name))
  {
    assert (ops + [op])[..|ops|] == ops;
    assert TracksId(digest, c, ops, (op.sid, op.name));
  }

  lemma DoTracks(digest: string -> nat, c: State, ops: seq<CatOp>, op: CatOp)
    requires Tracks(digest, c, ops)
    ensures Tracks(digest, Do(digest, c, op), ops + [op])
  {
    hide LastClaim, LastVouch, TracksId, StandingAssertion, Fingerprint, Rederive, Registered;
    var c' := Do(digest, c, op);
    forall sid ensures sid in c'.sources <==> Registered(ops + [op], sid) { RegisteredSnoc(ops, op, sid); }
    forall id ensures TracksId(digest, c', ops + [op], id) {
      assert TracksId(digest, c, ops, id);
      if Refused(c, op) {
        RefusedHistory(digest, c, ops, op, id);
        UntouchedTracks(digest, c, c', ops, op, id);
      } else if op.RegisterOp? || (op.sid, op.name) != id {
        OtherHistory(ops, op, id);
        UntouchedTracks(digest, c, c', ops, op, id);
      } else {
        TouchedTracks(digest, c, ops, op);
      }
    }
  }

  lemma {:induction false} DoAllTracks(digest: string -> nat, ops: seq<CatOp>)
    ensures Tracks(digest, DoAll(digest, ops), ops)
  {
    if ops != [] {
      var front, op := ops[..|ops| - 1], ops[|ops| - 1];
      DoAllTracks(digest, front);
      DoTracks(digest, DoAll(digest, front), front, op);
      assert front + [op] == ops;
    }
  }

  // ----- main results ---------------------------------------------------------------

  /** After any run: never asserted, standing, or changed underneath the operator, exactly
      as the claims and vouches in the history say. */
  lemma StatusFromHistory(digest: string -> nat, ops: seq<CatOp>, sid: string, name: string)
    ensures var c := DoAll(digest, ops);
            var claim, vouch := LastClaim(ops, (sid, name)), LastVouch(ops, (sid, name));
            && (StatusOf(c, sid, name) == Never <==> vouch.None?)
            && (StatusOf(c, sid, name) == StandsAsserted <==>
                  vouch.Some? && claim.Some? && Fingerprint(digest, claim.value.0, claim.value.1)
                                             == Fingerprint(digest, vouch.value.version, vouch.value.claimed))
            && (Invocable(c, sid, name) <==>
                  StatusOf(c, sid, name) == StandsAsserted && sid in c.sources && c.sources[sid].tier.Invocable())
  {
    DoAllTracks(digest, ops);
    assert TracksId(digest, DoAll(digest, ops), ops, (sid, name));
  }

  /** Evidence always belongs to a known tool of a known source, filed under its own name. */
  ghost predicate Coherent(c: State) { forall id :: CoherentAt(c, id) }

  predicate CoherentAt(c: State, id: ToolId) {
    && (id in c.assertions ==> id in c.tools)
    && (id in c.tools ==> id.0 in c.sources && (c.tools[id].sourceId, c.tools[id].name) == id)
    && (id in c.tools && c.tools[id].asserted.Some? ==> id in c.assertions)
  }

  lemma TracksIsCoherent(digest: string -> nat, c: State, ops: seq<CatOp>, id: ToolId)
    requires TracksId(digest, c, ops, id)
    ensures CoherentAt(c, id)
  {
    hide LastClaim, LastVouch, Fingerprint;
  }

  lemma RunsAreCoherent(digest: string -> nat, ops: seq<CatOp>)
    ensures Coherent(DoAll(digest, ops))
  {
    hide TracksId, DoAll, Registered;
    var c := DoAll(digest, ops);
    DoAllTracks(digest, ops);
    forall id ensures CoherentAt(c, id) { TracksIsCoherent(digest, c, ops, id); }
  }

  lemma MineMember(c: State, sid: string, n: string)
    ensures n in Mine(c, sid) <==> (sid, n) in c.tools
  {
    if (sid, n) in c.tools { assert (sid, n).1 in Mine(c, sid); }
  }

  /** Two catalogs that hold the same entries for one source. */
  ghost predicate SameSource(c: State, c': State, sid: string) {
    && (sid in c'.sources <==> sid in c.sources) && (sid in c.sources ==> c'.sources[sid] == c.sources[sid])
    && Declared(c', sid) == Declared(c, sid)
    && (forall n :: SameTool(c, c', (sid, n)))
  }

  predicate SameTool(c: State, c': State, id: ToolId) {
    && (id in c'.tools <==> id in c.tools) && (id in c.tools ==> c'.tools[id] == c.tools[id])
    && (id in c'.assertions <==> id in c.assertions)
  }

  lemma OthersUntouched(digest: string -> nat, c: State, op: CatOp, sid: string)
    requires op.SourceId() != sid
    ensures SameSource(c, Do(digest, c, op), sid)
  {
    forall n ensures SameTool(c, Do(digest, c, op), (sid, n)) {}
  }

  lemma SameSourceSameDrift(c: State, c': State, sid: string, discovered: set<string>)
    requires SameSource(c, c', sid)
    ensures DriftOf(c', sid, discovered) == DriftOf(c, sid, discovered)
  {
    forall n ensures (n in Mine(c', sid) <==> n in Mine(c, sid)) && StatusOf(c', sid, n) == StatusOf(c, sid, n) {
      assert SameTool(c, c', (sid, n));
      MineMember(c, sid, n);
      MineMember(c', sid, n);
    }
    var mine := Mine(c, sid);
    assert Mine(c', sid) == mine;
    assert (set n | n in discovered && StatusOf(c', sid, n) == Never)
        == (set n | n in discovered && StatusOf(c, sid, n) == Never);
    assert (set n | n in discovered * mine && StatusOf(c', sid, n) == Changed)
        == (set n | n in discovered * mine && StatusOf(c, sid, n) == Changed);
    forall n <- SortNames(discovered * mine) ensures SameTool(c, c', (sid, n)) && (sid, n) in c.tools {
      MineMember(c, sid, n);
    }
    SameConflicts(c, c', sid, SortNames(discovered * mine));
  }

  /** An operation on one source never changes what another source's tools may do. */
  lemma SourcesAreIsolated(digest: string -> nat, c: State, op: CatOp, sid: string, name: string,
                           discovered: set<string>)
    requires op.SourceId() != sid
    ensures var c' := Do(digest, c, op);
            && StatusOf(c', sid, name) == StatusOf(c, sid, name)
            && Invocable(c', sid, name) == Invocable(c, sid, name)
            && DriftOf(c', sid, discovered) == DriftOf(c, sid, discovered)
  {
    OthersUntouched(digest, c, op, sid);
    assert SameTool(c, Do(digest, c, op), (sid, name));
    SameSourceSameDrift(c, Do(digest, c, op), sid, discovered);
  }

  lemma {:induction false} SameConflicts(c: State, c': State, sid: string, names: seq<string>)
    requires forall n <- names :: (sid, n) in c.tools && (sid, n) in c'.tools && c'.tools[(sid, n)] == c.tools[(sid, n)]
    ensures ConflictsOf(c', sid, names) == ConflictsOf(c, sid, names)
  {
    if names != [] { SameConflicts(c, c', sid, names[1..]); }
  }

  /** Every discovered name is reported once: unasserted, redefined, or standing. */
  lemma DriftTrichotomy(c: State, sid: string, discovered: set<string>, n: string)
    requires Coherent(c) && n in discovered
    ensures var d := DriftOf(c, sid, discovered);
            && (n in d.unasserted <==> StatusOf(c, sid, n) == Never)
            && (n in d.redefined <==> StatusOf(c, sid, n) == Changed)
            && (n in d.unasserted || n in d.redefined || StatusOf(c, sid, n) == StandsAsserted)
            && !(n in d.unasserted && n in d.redefined)
  {
    assert CoherentAt(c, (sid, n));
    MineMember(c, sid, n);
  }

  lemma {:induction false} TaggedConflicts(c: State, sid: string, names: seq<string>, n: string, k: Conflict)
    requires forall n <- names :: (sid, n) in c.tools
    ensures (n, k) in ConflictsOf(c, sid, names) <==> n in names && k in c.tools[(sid, n)].Conflicts()
  {
    if names != [] {
      var cs := c.tools[(sid, names[0])].Conflicts();
      TaggedConflicts(c, sid, names[1..], n, k);
      assert names == [names[0]] + names[1..];
      if n == names[0] && k in cs {
        var i :| 0 <= i < |cs| && cs[i] == k;
        assert Tagged(names[0], cs)[i] == (n, k);
      }
    }
  }

  /** What each list of a drift report holds, name by name. */
  lemma DriftLists(c: State, sid: string, discovered: set<string>, n: string, k: Conflict)
    ensures var d := DriftOf(c, sid, discovered);
            var declares := sid in c.declared && n in c.declared[sid];
            && (n in d.advertisedMissing <==> declares && n !in discovered)
            && (n in d.undeclaredPresent <==> n in discovered && !declares)
            && (n in d.unasserted <==> n in discovered && (sid, n) !in c.assertions)
            && (n in d.redefined <==> n in discovered && (sid, n) in c.tools && (sid, n) in c.assertions
                                      && c.tools[(sid, n)].asserted.None?)
            && ((n, k) in d.conflicts <==>
                  n in discovered && (sid, n) in c.tools && k in c.tools[(sid, n)].Conflicts())
  {
    hide ConflictsOf;
    MineMember(c, sid, n);
    forall x <- SortNames(discovered * Mine(c, sid)) ensures (sid, x) in c.tools { MineMember(c, sid, x); }
    TaggedConflicts(c, sid, SortNames(discovered * Mine(c, sid)), n, k);
  }

  /** When a server contradicts the operator, hint by hint: `destructive` and `openWorld` count
      as true when not given, and nothing is implied when no hint was given. */
  lemma ConflictsMean(tv: ToolVersion)
    ensures tv.asserted.None? ==> tv.Conflicts() == []
    ensures tv.asserted.Some? ==>
      var h, a, cs := tv.claimed, tv.asserted.value, tv.Conflicts();
      var silent := h.readOnly == None && h.destructive == None && h.openWorld == None;
      var implied :=
        if h.readOnly == Some(true) then ReadEffect
        else if h.destructive != Some(false) then DestructiveEffect
        else if h.openWorld != Some(false) then ExternalEffect
        else WriteEffect;
      && (EffectDiffers in cs <==> !silent && implied != a.effect)
      && (ReadOnlyButNotRead in cs <==> h.readOnly == Some(true) && a.effect != ReadEffect)
      && (IdempotentButNot in cs <==> h.idempotent == Some(true) && !a.idempotent)
      && (ClosedWorldButExternal in cs <==> h.openWorld == Some(false) && External in a.writesData)
  {
  }

  function Place(k: Conflict): nat {
    match k
    case EffectDiffers => 0
    case ReadOnlyButNotRead => 1
    case IdempotentButNot => 2
    case ClosedWorldButExternal => 3
  }

  /** Each is reported once, in this order. */
  lemma ConflictsInOrder(tv: ToolVersion, i: nat, j: nat)
    requires i < j < |tv.Conflicts()|
    ensures Place(tv.Conflicts()[i]) < Place(tv.Conflicts()[j])
  {
  }

  lemma {:induction false} NoConflicts(c: State, sid: string, names: seq<string>)
    requires forall n <- names :: (sid, n) in c.tools
    ensures ConflictsOf(c, sid, names) == [] <==> forall n <- names :: c.tools[(sid, n)].Conflicts() == []
  {
    if names != [] {
      NoConflicts(c, sid, names[1..]);
      assert names == [names[0]] + names[1..];
      assert |Tagged(names[0], c.tools[(sid, names[0])].Conflicts())| == |c.tools[(sid, names[0])].Conflicts()|;
    }
  }

  lemma NoNames(s: set<string>)
    ensures SortNames(s) == [] <==> s == {}
  {
    if s != {} {
      var x :| x in s;
      assert x in SortNames(s);
    }
  }

  /** No drift means exactly: declared is discovered, all of it vouched for, no contradiction. */
  lemma CleanDrift(c: State, sid: string, discovered: set<string>)
    requires Coherent(c)
    ensures DriftOf(c, sid, discovered).Clean() <==>
              && Declared(c, sid) == discovered
              && (forall n <- discovered :: StatusOf(c, sid, n) == StandsAsserted)
              && (forall n <- discovered :: (sid, n) in c.tools && c.tools[(sid, n)].Conflicts() == [])
  {
    var d := DriftOf(c, sid, discovered);
    var declared, mine := Declared(c, sid), Mine(c, sid);
    NoNames(declared - discovered);
    NoNames(discovered - declared);
    var never := set n | n in discovered && StatusOf(c, sid, n) == Never;
    var changed := set n | n in discovered * mine && StatusOf(c, sid, n) == Changed;
    NoNames(never);
    NoNames(changed);
    forall n ensures n in mine <==> (sid, n) in c.tools { MineMember(c, sid, n); }
    NoConflicts(c, sid, SortNames(discovered * mine));
    if d.Clean() {
      forall n <- discovered ensures StatusOf(c, sid, n) == StandsAsserted {
        DriftTrichotomy(c, sid, discovered, n);
      }
      assert declared == discovered;
      forall n <- discovered ensures (sid, n) in c.tools && c.tools[(sid, n)].Conflicts() == [] {
        assert n in SortNames(discovered * mine);
      }
    } else if declared == discovered && forall n <- discovered :: StatusOf(c, sid, n) == StandsAsserted {
      assert never == {} && changed == {};
      var n :| n in SortNames(discovered * mine) && c.tools[(sid, n)].Conflicts() != [];
      assert n in discovered;
    }
  }

  /** A bare name resolves to a tool only when no other source exposes that name. */
  lemma ResolveNeverGuesses(c: State, name: string, id: ToolId)
    ensures Resolve(c, name) == Resolved(id) <==>
        id in c.tools && id.1 == name && forall k <- c.tools :: k.1 == name ==> k == id
    ensures Resolve(c, name) == NoSuchName <==> forall k <- c.tools :: k.1 != name
  {
    var matches := FindAll(c, name);
    forall k ensures k in matches <==> k in c.tools && k.1 == name {}
    if matches != {} {
      var k :| k in matches;
      if |matches| == 1 {
        assert |matches - {k}| == 0;
        assert matches == {k};
      } else {
        assert matches != {k};
      }
    }
  }
}
