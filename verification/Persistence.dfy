/** The catalog tables and hydration (store.py), and the service calls that write through
    them (service.py): a restart continues exactly where the in-memory catalog left off. */
module Persistence {
  import opened Wrappers
  import opened Text
  import opened CanonicalJson
  import opened JsonRecord
  import opened Descriptor
  import opened Serializers
  import opened ToolCatalog

  datatype SourceRow = SourceRow(tier: string, transport: string, declared: string, command: Option<string>)
  datatype ToolRow = ToolRow(version: string, claimed: string, asserted: Option<string>, schema: string)
  datatype AssertionRow = AssertionRow(descriptor: string, fingerprint: string)

  datatype Tables = Tables(sources: map<string, SourceRow>, tools: map<ToolId, ToolRow>,
                           assertions: map<ToolId, AssertionRow>, discoveries: map<string, string>)

  const EMPTY_TABLES := Tables(map[], map[], map[], map[])

  function Identity(s: string): string { s }

  // ----- writes: one transaction each -----------------------------------------------

  function SourceRowOf(source: Source, declares: seq<string>, command: Option<seq<string>>): SourceRow {
    SourceRow(TierName(source.tier), source.transport, CellText(Words(Sort(declares, Identity))),
              if command.None? then None else Some(CellText(Words(command.value))))
  }

  function UpsertSource(t: Tables, source: Source, declares: seq<string>, command: Option<seq<string>>): Tables {
    t.(sources := t.sources[source.sourceId := SourceRowOf(source, declares, command)])
  }

  function ToolRowOf(tv: ToolVersion): ToolRow {
    ToolRow(tv.version, ClaimedToJson(tv.claimed),
            if tv.asserted.None? then None else Some(AssertedToJson(tv.asserted.value)), tv.schema)
  }

  function UpsertTool(t: Tables, tv: ToolVersion): Tables {
    t.(tools := t.tools[(tv.sourceId, tv.name) := ToolRowOf(tv)])
  }

  function UpsertAssertion(t: Tables, id: ToolId, r: AssertionRecord): Tables {
    t.(assertions := t.assertions[id := AssertionRow(AssertedToJson(r.descriptor), IntRepr(r.fingerprint))])
  }

  function RecordDiscovery(t: Tables, sid: string, names: set<string>): Tables {
    t.(discoveries := t.discoveries[sid := CellText(Words(SortNames(names)))])
  }

  // ----- hydration ------------------------------------------------------------------

  function ReadSource(sid: string, row: SourceRow): Option<Source> {
    var tier := TierNamed(row.tier);
    if tier.None? then None else Some(Source(sid, tier.value, row.transport))
  }

  function ReadDeclared(row: SourceRow): set<string> { set n | n in WordsIn(CellOfText(row.declared)) }

  /** The `asserted` column is not read: a tool hydrates unasserted. */
  function ReadTool(id: ToolId, row: ToolRow): ToolVersion {
    ToolVersion(id.1, row.version, id.0, ClaimedFromJson(row.claimed), None, row.schema)
  }

  function ReadAssertion(row: AssertionRow): Option<AssertionRecord> {
    var d, n := AssertedFromJson(row.descriptor), ParseInt(row.fingerprint);
    if d.None? || n.None? || n.value < 0 then None else Some(AssertionRecord(d.value, n.value))
  }

  predicate SourcesReadable(rows: map<string, SourceRow>) {
    forall sid <- rows :: ReadSource(sid, rows[sid]).Some?
  }

  predicate AssertionsReadable(rows: map<ToolId, AssertionRow>) {
    forall id <- rows :: ReadAssertion(rows[id]).Some?
  }

  function Evidence(rows: map<ToolId, AssertionRow>): map<ToolId, AssertionRecord>
    requires AssertionsReadable(rows)
  {
    map id | id in rows :: ReadAssertion(rows[id]).value
  }

  function LoadedSources(rows: map<string, SourceRow>): map<string, Source>
    requires SourcesReadable(rows)
  {
    map sid | sid in rows :: ReadSource(sid, rows[sid]).value
  }

  function LoadedDeclared(rows: map<string, SourceRow>): map<string, set<string>> {
    map sid | sid in rows :: ReadDeclared(rows[sid])
  }

  function LoadedTools(digest: string -> nat, rows: map<ToolId, ToolRow>,
                       ev: map<ToolId, AssertionRecord>): map<ToolId, ToolVersion> {
    map id | id in rows :: Rederive(digest, ReadTool(id, rows[id]), ev)
  }

  /** `load_catalog`: assertions are re-derived from fingerprints, never read from a tool row. */
  function LoadCatalog(digest: string -> nat, t: Tables): Option<State> {
    if !SourcesReadable(t.sources) || !AssertionsReadable(t.assertions) then None
    else
      var ev := Evidence(t.assertions);
      Some(State(LoadedSources(t.sources), LoadedTools(digest, t.tools, ev), LoadedDeclared(t.sources), ev))
  }

  /** What the rows say that hydration does not read: the command of a source, and the names of
      its last discovery, in order. */
  lemma RowsSay(t: Tables, source: Source, declares: seq<string>, command: Option<seq<string>>, sid: string,
                names: set<string>)
    ensures var row := UpsertSource(t, source, declares, command).sources[source.sourceId];
      (if command == None then row.command == None
       else row.command.Some? && CellOfText(row.command.value) == Words(command.value))
    ensures var u := RecordDiscovery(t, sid, names);
      sid in u.discoveries && CellOfText(u.discoveries[sid]) == Words(SortNames(names))
  {
    if command.Some? { CellTextReadsBack(Words(command.value)); }
    CellTextReadsBack(Words(SortNames(names)));
  }

  // ----- each write, seen through hydration -----------------------------------------

  lemma SourceRowWrite(digest: string -> nat, c: State, t: Tables, sid: string, row: SourceRow, s: Source)
    requires LoadCatalog(digest, t) == Some(c) && ReadSource(sid, row) == Some(s)
    ensures LoadCatalog(digest, t.(sources := t.sources[sid := row]))
         == Some(c.(sources := c.sources[sid := s], declared := c.declared[sid := ReadDeclared(row)]))
  {
    hide ReadDeclared, LoadedTools, Evidence, AssertionsReadable;
    var rows := t.sources[sid := row];
    assert SourcesReadable(rows);
    assert LoadedSources(rows) == c.sources[sid := s];
    assert LoadedDeclared(rows) == c.declared[sid := ReadDeclared(row)];
  }

  lemma DeclaredReadsBack(s: Source, declares: seq<string>, command: Option<seq<string>>)
    ensures ReadDeclared(SourceRowOf(s, declares, command)) == set n | n in declares
  {
    var sorted := Sort(declares, Identity);
    CellTextReadsBack(Words(sorted));
    SameElements(sorted, declares);
  }

  lemma TierReadsBack(s: Source, declares: seq<string>, command: Option<seq<string>>)
    ensures ReadSource(s.sourceId, SourceRowOf(s, declares, command)) == Some(s)
  {
    assert TierNamed(TierName(s.tier)) == Some(s.tier);
  }

  lemma SourceWrite(digest: string -> nat, c: State, t: Tables, s: Source, declares: seq<string>,
                    command: Option<seq<string>>)
    requires LoadCatalog(digest, t) == Some(c)
    ensures LoadCatalog(digest, UpsertSource(t, s, declares, command)) == Some(Register(c, s, set n | n in declares))
  {
    TierReadsBack(s, declares, command);
    DeclaredReadsBack(s, declares, command);
    SourceRowWrite(digest, c, t, s.sourceId, SourceRowOf(s, declares, command), s);
  }

  lemma AssertionReadsBack(r: AssertionRecord)
    ensures ReadAssertion(AssertionRow(AssertedToJson(r.descriptor), IntRepr(r.fingerprint))) == Some(r)
  {
    AssertedRoundTrip(r.descriptor);
    ParseIntInverts(r.fingerprint);
  }

  lemma ToolReadsBack(tv: ToolVersion)
    ensures ReadTool((tv.sourceId, tv.name), ToolRowOf(tv)) == tv.(asserted := None)
  {
    ClaimedRoundTrip(tv.claimed);
  }

  lemma OneMoreTool(digest: string -> nat, rows: map<ToolId, ToolRow>, ev: map<ToolId, AssertionRecord>, id: ToolId,
                    row: ToolRow)
    ensures LoadedTools(digest, rows[id := row], ev)
         == LoadedTools(digest, rows, ev)[id := Rederive(digest, ReadTool(id, row), ev)]
  {
  }

  lemma ToolRowWrite(digest: string -> nat, c: State, t: Tables, id: ToolId, row: ToolRow, tv: ToolVersion)
    requires LoadCatalog(digest, t) == Some(c)
    requires (tv.sourceId, tv.name) == id && ReadTool(id, row) == tv.(asserted := None)
    ensures LoadCatalog(digest, t.(tools := t.tools[id := row]))
         == Some(c.(tools := c.tools[id := Rederive(digest, tv, c.assertions)]))
  {
    OneMoreTool(digest, t.tools, c.assertions, id, row);
    assert Rederive(digest, ReadTool(id, row), c.assertions) == Rederive(digest, tv, c.assertions);
  }

  /** Writing a tool row hydrates to the tool with its assertion re-derived from evidence. */
  lemma ToolWrite(digest: string -> nat, c: State, t: Tables, tv: ToolVersion)
    requires LoadCatalog(digest, t) == Some(c)
    ensures LoadCatalog(digest, UpsertTool(t, tv))
         == Some(c.(tools := c.tools[(tv.sourceId, tv.name) := Rederive(digest, tv, c.assertions)]))
  {
    ToolReadsBack(tv);
    ToolRowWrite(digest, c, t, (tv.sourceId, tv.name), ToolRowOf(tv), tv);
  }

  lemma HydratedTool(digest: string -> nat, c: State, t: Tables, id: ToolId)
    requires LoadCatalog(digest, t) == Some(c) && id in c.tools
    ensures (c.tools[id].sourceId, c.tools[id].name) == id
    ensures c.tools[id] == Rederive(digest, c.tools[id], c.assertions)
  {
    assert c.tools[id] == Rederive(digest, ReadTool(id, t.tools[id]), c.assertions);
  }

  lemma ReboundTools(digest: string -> nat, rows: map<ToolId, ToolRow>, ev: map<ToolId, AssertionRecord>, id: ToolId,
                     r: AssertionRecord)
    requires id in rows
    ensures var tools := LoadedTools(digest, rows, ev);
            LoadedTools(digest, rows, ev[id := r]) == tools[id := Rederive(digest, tools[id], ev[id := r])]
  {
    forall k | k in rows && k != id
      ensures Rederive(digest, ReadTool(k, rows[k]), ev[id := r]) == Rederive(digest, ReadTool(k, rows[k]), ev)
    {
      OtherEvidence(digest, ReadTool(k, rows[k]), ev, id, r);
    }
    RederiveTwice(digest, ReadTool(id, rows[id]), ev, ev[id := r]);
  }

  lemma RederiveIgnoresAsserted(digest: string -> nat, tv: ToolVersion, a: Option<Asserted>,
                                ev: map<ToolId, AssertionRecord>)
    ensures Rederive(digest, tv.(asserted := a), ev) == Rederive(digest, tv, ev)
  {
  }

  lemma RederiveTwice(digest: string -> nat, tv: ToolVersion, ev: map<ToolId, AssertionRecord>,
                      ev': map<ToolId, AssertionRecord>)
    ensures Rederive(digest, Rederive(digest, tv, ev), ev') == Rederive(digest, tv, ev')
  {
  }

  lemma OneMoreRecord(rows: map<ToolId, AssertionRow>, id: ToolId, row: AssertionRow, r: AssertionRecord)
    requires AssertionsReadable(rows) && ReadAssertion(row) == Some(r)
    ensures AssertionsReadable(rows[id := row]) && Evidence(rows[id := row]) == Evidence(rows)[id := r]
  {
    assert AssertionsReadable(rows[id := row]);
  }

  lemma AssertionRowWrite(digest: string -> nat, c: State, t: Tables, id: ToolId, row: AssertionRow, r: AssertionRecord)
    requires LoadCatalog(digest, t) == Some(c) && id in c.tools && ReadAssertion(row) == Some(r)
    ensures LoadCatalog(digest, t.(assertions := t.assertions[id := row]))
         == Some(c.(assertions := c.assertions[id := r],
                    tools := c.tools[id := Rederive(digest, c.tools[id], c.assertions[id := r])]))
  {
    OneMoreRecord(t.assertions, id, row, r);
    ReboundTools(digest, t.tools, c.assertions, id, r);
  }

  lemma AssertionWrite(digest: string -> nat, c: State, t: Tables, id: ToolId, r: AssertionRecord)
    requires LoadCatalog(digest, t) == Some(c) && id in c.tools
    ensures LoadCatalog(digest, UpsertAssertion(t, id, r))
         == Some(c.(assertions := c.assertions[id := r],
                    tools := c.tools[id := Rederive(digest, c.tools[id], c.assertions[id := r])]))
  {
    AssertionReadsBack(r);
    AssertionRowWrite(digest, c, t, id, AssertionRow(AssertedToJson(r.descriptor), IntRepr(r.fingerprint)), r);
  }

  lemma OtherEvidence(digest: string -> nat, tv: ToolVersion, ev: map<ToolId, AssertionRecord>, id: ToolId,
                      r: AssertionRecord)
    requires (tv.sourceId, tv.name) != id
    ensures Rederive(digest, tv, ev[id := r]) == Rederive(digest, tv, ev)
  {
  }

  // ----- service calls --------------------------------------------------------------

  datatype World = World(cat: State, tables: Tables)

  const NEW_WORLD := World(EMPTY, EMPTY_TABLES)

  datatype Claim = Claim(name: string, claimed: Claimed, version: string, schema: string)

  datatype CallError = BadRequest | NotFound | Conflicting | Unprocessable

  datatype Call =
    | RegisterCall(sid: string, tier: string, transport: string, declares: seq<string>, command: Option<seq<string>>)
    | IngestCall(sid: string, claims: seq<Claim>)
    | AssertCall(sid: string, name: string, desc: Option<Asserted>, schemaOk: bool)

  /** Why a push ingest is refused before anything is written, if it is. */
  function IngestRefusal(c: State, sid: string, claims: seq<Claim>): Option<CallError> {
    if sid !in c.sources then Some(NotFound) else PayloadRefusal(claims, {})
  }

  function PayloadRefusal(claims: seq<Claim>, seen: set<string>): Option<CallError> {
    if claims == [] then None
    else if claims[0].name == "" then Some(BadRequest)
    else if claims[0].name in seen then Some(Conflicting)
    else PayloadRefusal(claims[1..], seen + {claims[0].name})
  }

  /** `assert_tool`: bad descriptor, then bad input schema of a known tool, then the catalog. */
  function AssertRefusal(c: State, sid: string, name: string, desc: Option<Asserted>,
                         schemaOk: bool): Option<CallError> {
    if desc.None? then Some(BadRequest)
    else if (sid, name) in c.tools && !schemaOk then Some(Unprocessable)
    else if desc.value.assertedBy == "" then Some(BadRequest)
    else if (sid, name) !in c.tools then Some(NotFound)
    else None
  }

  function RegisterRefusal(sid: string, tier: string): Option<CallError> {
    if sid == "" || TierNamed(tier).None? then Some(BadRequest) else None
  }

  function Refusal(c: State, call: Call): Option<CallError> {
    match call
    case RegisterCall(sid, tier, _, _, _) => RegisterRefusal(sid, tier)
    case IngestCall(sid, claims) => IngestRefusal(c, sid, claims)
    case AssertCall(sid, name, desc, ok) => AssertRefusal(c, sid, name, desc, ok)
  }

  function Names(claims: seq<Claim>): set<string> { set k | 0 <= k < |claims| :: claims[k].name }

  /** One tool of an ingest: the catalog entry, then its row. */
  function IngestOne(digest: string -> nat, w: World, sid: string, cl: Claim): (r: World)
    requires sid in w.cat.sources
    ensures r.cat.sources == w.cat.sources
  {
    var cat := IngestWithSchema(digest, w.cat, sid, cl.name, cl.claimed, cl.version, cl.schema).value;
    World(cat, UpsertTool(w.tables, cat.tools[(sid, cl.name)]))
  }

  function IngestAll(digest: string -> nat, w: World, sid: string, claims: seq<Claim>): (r: World)
    requires sid in w.cat.sources
    ensures sid in r.cat.sources
    decreases |claims|
  {
    if claims == [] then w else IngestAll(digest, IngestOne(digest, w, sid, claims[0]), sid, claims[1..])
  }

  /** The world a completed call leaves; a refused call leaves it alone. */
  function Complete(digest: string -> nat, w: World, call: Call): World {
    if Refusal(w.cat, call).Some? then w
    else
      match call
      case RegisterCall(sid, tier, transport, declares, command) =>
        var s := Source(sid, TierNamed(tier).value, transport);
        World(Register(w.cat, s, set n | n in declares), UpsertSource(w.tables, s, declares, command))
      case IngestCall(sid, claims) =>
        var r := IngestAll(digest, w, sid, claims);
        r.(tables := RecordDiscovery(r.tables, sid, Names(claims)))
      case AssertCall(sid, name, desc, _) =>
        var cat := Assert(digest, w.cat, sid, name, desc.value).value;
        World(cat, UpsertAssertion(UpsertTool(w.tables, cat.tools[(sid, name)]), (sid, name),
            cat.assertions[(sid, name)]))
  }

  function CompleteAll(digest: string -> nat, calls: seq<Call>): World {
    if calls == [] then NEW_WORLD
    else Complete(digest, CompleteAll(digest, calls[..|calls| - 1]), calls[|calls| - 1])
  }

  /** A restart would rebuild exactly the catalog in memory. */
  ghost predicate Faithful(digest: string -> nat, w: World) { LoadCatalog(digest, w.tables) == Some(w.cat) }

  /** The entry an ingest leaves: the claim as made, asserted only on the evidence. */
  lemma IngestedEntry(digest: string -> nat, c: State, sid: string, cl: Claim)
    requires sid in c.sources
    ensures var id := (sid, cl.name);
            var r := IngestWithSchema(digest, c, sid, cl.name, cl.claimed, cl.version, cl.schema);
            && r.Success? && id in r.value.tools
            && r.value == c.(tools := c.tools[id := r.value.tools[id]])
            && (r.value.tools[id].sourceId, r.value.tools[id].name) == id
            && Rederive(digest, r.value.tools[id], c.assertions) == r.value.tools[id]
  {
    var id := (sid, cl.name);
    var r := IngestWithSchema(digest, c, sid, cl.name, cl.claimed, cl.version, cl.schema);
    assert r.value.tools == c.tools[id := r.value.tools[id]];
  }

  lemma IngestOneFaithful(digest: string -> nat, w: World, sid: string, cl: Claim)
    requires Faithful(digest, w) && sid in w.cat.sources
    ensures Faithful(digest, IngestOne(digest, w, sid, cl))
  {
    IngestedEntry(digest, w.cat, sid, cl);
    ToolWrite(digest, w.cat, w.tables, IngestOne(digest, w, sid, cl).cat.tools[(sid, cl.name)]);
  }

  lemma {:induction false} IngestAllFaithful(digest: string -> nat, w: World, sid: string, claims: seq<Claim>)
    requires Faithful(digest, w) && sid in w.cat.sources
    ensures Faithful(digest, IngestAll(digest, w, sid, claims))
    decreases |claims|
  {
    if claims != [] {
      IngestOneFaithful(digest, w, sid, claims[0]);
      IngestAllFaithful(digest, IngestOne(digest, w, sid, claims[0]), sid, claims[1..]);
    }
  }

  lemma DiscoveryNotHydrated(digest: string -> nat, t: Tables, sid: string, names: set<string>)
    ensures LoadCatalog(digest, RecordDiscovery(t, sid, names)) == LoadCatalog(digest, t)
  {
  }

  /** A tool written with another assertion hydrates as before. */
  lemma ReassertedRow(digest: string -> nat, c: State, t: Tables, id: ToolId, desc: Asserted)
    requires LoadCatalog(digest, t) == Some(c) && id in c.tools
    ensures LoadCatalog(digest, UpsertTool(t, c.tools[id].(asserted := Some(desc)))) == Some(c)
  {
    hide LoadCatalog, Rederive, UpsertTool;
    HydratedTool(digest, c, t, id);
    ToolWrite(digest, c, t, c.tools[id].(asserted := Some(desc)));
    RederiveIgnoresAsserted(digest, c.tools[id], Some(desc), c.assertions);
    assert c.tools[id := c.tools[id]] == c.tools;
  }

  /** Between the two writes of an assertion the tables still hydrate to the catalog before. */
  lemma AssertHalfway(digest: string -> nat, w: World, sid: string, name: string, desc: Asserted)
    requires Faithful(digest, w) && desc.assertedBy != "" && (sid, name) in w.cat.tools
    ensures var cat := Assert(digest, w.cat, sid, name, desc).value;
            LoadCatalog(digest, UpsertTool(w.tables, cat.tools[(sid, name)])) == Some(w.cat)
  {
    ReassertedRow(digest, w.cat, w.tables, (sid, name), desc);
  }

  lemma AssertFaithful(digest: string -> nat, w: World, sid: string, name: string, desc: Asserted)
    requires Faithful(digest, w) && desc.assertedBy != "" && (sid, name) in w.cat.tools
    ensures var cat := Assert(digest, w.cat, sid, name, desc).value;
            var t := UpsertTool(w.tables, cat.tools[(sid, name)]);
            LoadCatalog(digest, UpsertAssertion(t, (sid, name), cat.assertions[(sid, name)])) == Some(cat)
  {
    var id := (sid, name);
    var cat := Assert(digest, w.cat, sid, name, desc).value;
    AssertHalfway(digest, w, sid, name, desc);
    HydratedTool(digest, w.cat, w.tables, id);
    AssertionWrite(digest, w.cat, UpsertTool(w.tables, cat.tools[id]), id, cat.assertions[id]);
    assert Rederive(digest, w.cat.tools[id], cat.assertions) == cat.tools[id];
  }

  lemma CompleteFaithful(digest: string -> nat, w: World, call: Call)
    requires Faithful(digest, w)
    ensures Faithful(digest, Complete(digest, w, call))
  {
    if Refusal(w.cat, call).None? {
      match call
      case RegisterCall(sid, tier, transport, declares, command) =>
        SourceWrite(digest, w.cat, w.tables, Source(sid, TierNamed(tier).value, transport), declares, command);
      case IngestCall(sid, claims) =>
        IngestAllFaithful(digest, w, sid, claims);
        DiscoveryNotHydrated(digest, IngestAll(digest, w, sid, claims).tables, sid, Names(claims));
      case AssertCall(sid, name, desc, _) =>
        AssertFaithful(digest, w, sid, name, desc.value);
    }
  }

  // ----- main results ---------------------------------------------------------------

  /** After any sequence of completed calls, hydrating the tables gives the catalog in memory. */
  lemma {:induction false} RestartContinues(digest: string -> nat, calls: seq<Call>)
    ensures LoadCatalog(digest, CompleteAll(digest, calls).tables) == Some(CompleteAll(digest, calls).cat)
  {
    if calls != [] {
      RestartContinues(digest, calls[..|calls| - 1]);
      CompleteFaithful(digest, CompleteAll(digest, calls[..|calls| - 1]), calls[|calls| - 1]);
    }
  }

  /** The table states a call passes through; a crash can leave any one of them on disk. */
  function CrashPoints(digest: string -> nat, w: World, call: Call): seq<Tables> {
    if Refusal(w.cat, call).Some? then [w.tables]
    else
      match call
      case RegisterCall(_, _, _, _, _) => [w.tables, Complete(digest, w, call).tables]
      case IngestCall(sid, claims) =>
        seq(|claims| + 1, k requires 0 <= k <= |claims| => IngestAll(digest, w, sid, claims[..k]).tables)
        + [Complete(digest, w, call).tables]
      case AssertCall(sid, name, desc, _) =>
        [w.tables,
         UpsertTool(w.tables, Assert(digest, w.cat, sid, name, desc.value).value.tools[(sid, name)]),
         Complete(digest, w, call).tables]
  }

  /** The catalog a restart builds after a crash at point `k` of a call: that of the calls
      before it, of a prefix of its tools, or of the whole call. */
  function AfterCrash(digest: string -> nat, w: World, call: Call, k: nat): State {
    if k >= |CrashPoints(digest, w, call)| - 1 then Complete(digest, w, call).cat
    else if call.IngestCall? then IngestAll(digest, w, call.sid, call.claims[..k]).cat
    else w.cat
  }

  lemma CrashInIngest(digest: string -> nat, w: World, call: Call, k: nat)
    requires Faithful(digest, w) && call.IngestCall? && Refusal(w.cat, call).None? && k <= |call.claims|
    ensures LoadCatalog(digest, CrashPoints(digest, w, call)[k]) == Some(AfterCrash(digest, w, call, k))
  {
    hide LoadCatalog, IngestAll, Complete;
    IngestAllFaithful(digest, w, call.sid, call.claims[..k]);
  }

  lemma CrashInAssert(digest: string -> nat, w: World, call: Call)
    requires Faithful(digest, w) && call.AssertCall? && Refusal(w.cat, call).None?
    ensures LoadCatalog(digest, CrashPoints(digest, w, call)[1]) == Some(AfterCrash(digest, w, call, 1))
  {
    AssertHalfway(digest, w, call.sid, call.name, call.desc.value);
  }

  lemma CrashBeforeFirstWrite(digest: string -> nat, w: World, call: Call)
    requires Faithful(digest, w) && 1 < |CrashPoints(digest, w, call)|
    ensures LoadCatalog(digest, CrashPoints(digest, w, call)[0]) == Some(AfterCrash(digest, w, call, 0))
  {
    if call.IngestCall? { CrashInIngest(digest, w, call, 0); }
  }

  lemma CrashHydrates(digest: string -> nat, calls: seq<Call>, call: Call, k: nat)
    requires k < |CrashPoints(digest, CompleteAll(digest, calls), call)|
    ensures LoadCatalog(digest, CrashPoints(digest, CompleteAll(digest, calls), call)[k])
         == Some(AfterCrash(digest, CompleteAll(digest, calls), call, k))
  {
    hide LoadCatalog, IngestAll, CompleteAll, PayloadRefusal;
    var w := CompleteAll(digest, calls);
    RestartContinues(digest, calls);
    if k == |CrashPoints(digest, w, call)| - 1 {
      CompleteFaithful(digest, w, call);
    } else if k == 0 {
      CrashBeforeFirstWrite(digest, w, call);
    } else if call.IngestCall? {
      CrashInIngest(digest, w, call, k);
    } else {
      CrashInAssert(digest, w, call);
    }
  }

  // ----- a write that fails without a crash -----------------------------------------

  lemma {:induction false} IngestAllSnoc(digest: string -> nat, w: World, sid: string, claims: seq<Claim>, cl: Claim)
    requires sid in w.cat.sources
    ensures IngestAll(digest, w, sid, claims + [cl]) == IngestOne(digest, IngestAll(digest, w, sid, claims), sid, cl)
    decreases |claims|
  {
    hide IngestOne;
    if claims == [] {
      assert ([] + [cl])[1..] == [];
    } else {
      assert (claims + [cl])[1..] == claims[1..] + [cl];
      IngestAllSnoc(digest, IngestOne(digest, w, sid, claims[0]), sid, claims[1..], cl);
    }
  }

  /** The catalog in memory when table write `k` of a call raises: memory is changed first. */
  function MemoryAt(digest: string -> nat, w: World, call: Call, k: nat): State {
    if call.IngestCall? && Refusal(w.cat, call).None? && k < |call.claims|
    then IngestAll(digest, w, call.sid, call.claims[..k + 1]).cat
    else Complete(digest, w, call).cat
  }

  /** The change the failed write was to store is no change. */
  predicate Harmless(digest: string -> nat, w: World, call: Call, k: nat)
    requires Refusal(w.cat, call).None?
  {
    match call
    case RegisterCall(sid, tier, transport, declares, _) =>
      && sid in w.cat.sources && w.cat.sources[sid] == Source(sid, TierNamed(tier).value, transport)
      && sid in w.cat.declared && w.cat.declared[sid] == set n | n in declares
    case IngestCall(sid, claims) =>
      k >= |claims| || ToolStands(digest, IngestAll(digest, w, sid, claims[..k]).cat, sid, claims[k])
    case AssertCall(sid, name, desc, _) =>
      var tv := w.cat.tools[(sid, name)];
      && tv.asserted == desc && (sid, name) in w.cat.assertions
      && w.cat.assertions[(sid, name)] == AssertionRecord(desc.value, FingerprintOf(digest, tv))
  }

  /** The tool is there already as this claim would leave it. */
  predicate ToolStands(digest: string -> nat, c: State, sid: string, cl: Claim) {
    (sid, cl.name) in c.tools
    && c.tools[(sid, cl.name)]
       == Rederive(digest, ToolVersion(cl.name, cl.version, sid, cl.claimed, None, "{}"),
           c.assertions).(schema := cl.schema)
  }

  lemma ToolStandsIff(digest: string -> nat, w: World, sid: string, cl: Claim)
    requires sid in w.cat.sources
    ensures IngestOne(digest, w, sid, cl).cat == w.cat <==> ToolStands(digest, w.cat, sid, cl)
  {
    hide FingerprintOf, Rederive, UpsertTool;
    var id := (sid, cl.name);
    var tv := Rederive(digest, ToolVersion(cl.name, cl.version, sid, cl.claimed, None, "{}"),
        w.cat.assertions).(schema := cl.schema);
    IngestedCatalog(digest, w, sid, cl);
    SameEntry(w.cat, id, tv);
  }

  lemma IngestedCatalog(digest: string -> nat, w: World, sid: string, cl: Claim)
    requires sid in w.cat.sources
    ensures var tv := Rederive(digest, ToolVersion(cl.name, cl.version, sid, cl.claimed, None, "{}"), w.cat.assertions);
            IngestOne(digest, w, sid, cl).cat
                == w.cat.(tools := w.cat.tools[(sid, cl.name) := tv.(schema := cl.schema)])
  {
    hide FingerprintOf, Rederive, UpsertTool;
    IngestedEntry(digest, w.cat, sid, cl);
  }

  lemma SameEntry(c: State, id: ToolId, tv: ToolVersion)
    ensures c.(tools := c.tools[id := tv]) == c <==> id in c.tools && c.tools[id] == tv
  {
    assert c.tools[id := tv][id] == tv;
    if id in c.tools && c.tools[id] == tv { assert c.tools[id := tv] == c.tools; }
  }

  lemma MemoryUnmoved(digest: string -> nat, w: World, call: Call, k: nat)
    requires Refusal(w.cat, call).None? && k < |CrashPoints(digest, w, call)| - 1
    ensures MemoryAt(digest, w, call, k) == AfterCrash(digest, w, call, k) <==> Harmless(digest, w, call, k)
  {
    hide FingerprintOf, Rederive, UpsertTool, UpsertSource, UpsertAssertion, RecordDiscovery, PayloadRefusal,
        ToolStands, IngestOne;
    match call
    case RegisterCall(sid, tier, transport, declares, _) =>
      var cat := Register(w.cat, Source(sid, TierNamed(tier).value, transport), set n | n in declares);
      assert cat.sources[sid] == Source(sid, TierNamed(tier).value, transport)
          && cat.declared[sid] == set n | n in declares;
      if Harmless(digest, w, call, k) { assert cat.sources == w.cat.sources && cat.declared == w.cat.declared; }
    case IngestCall(sid, claims) =>
      if k < |claims| {
        assert claims[..k + 1] == claims[..k] + [claims[k]];
        IngestAllSnoc(digest, w, sid, claims[..k], claims[k]);
        ToolStandsIff(digest, IngestAll(digest, w, sid, claims[..k]), sid, claims[k]);
      } else {
        assert claims[..k] == claims;
      }
    case AssertCall(sid, name, desc, _) =>
      AssertUnmoved(digest, w, sid, name, desc.value);
  }

  lemma AssertUnmoved(digest: string -> nat, w: World, sid: string, name: string, desc: Asserted)
    requires desc.assertedBy != "" && (sid, name) in w.cat.tools
    ensures Assert(digest, w.cat, sid, name, desc).value == w.cat <==>
              && w.cat.tools[(sid, name)].asserted == Some(desc) && (sid, name) in w.cat.assertions
              && w.cat.assertions[(sid, name)] == AssertionRecord(desc, FingerprintOf(digest, w.cat.tools[(sid, name)]))
  {
    hide Fingerprint;
    var id := (sid, name);
    var cat := Assert(digest, w.cat, sid, name, desc).value;
    assert id in cat.assertions && cat.tools[id].asserted == Some(desc);
    if w.cat.tools[id].asserted == Some(desc) {
      assert w.cat.tools[id].(asserted := Some(desc)) == w.cat.tools[id];
      assert cat.tools == w.cat.tools;
    }
  }

  /** A table write that raises leaves the process running on its memory. Memory and tables
      then agree exactly when the change was none, or only the discovery was left unwritten. */
  lemma FailedWriteAgreesIff(digest: string -> nat, calls: seq<Call>, call: Call, k: nat)
    requires var w := CompleteAll(digest, calls);
             Refusal(w.cat, call).None? && k < |CrashPoints(digest, w, call)| - 1
    ensures var w := CompleteAll(digest, calls);
            LoadCatalog(digest, CrashPoints(digest, w, call)[k]) == Some(MemoryAt(digest, w, call, k))
            <==> Harmless(digest, w, call, k)
  {
    hide LoadCatalog, CrashPoints, MemoryAt, AfterCrash, Harmless, CompleteAll, Refusal;
    CrashHydrates(digest, calls, call, k);
    MemoryUnmoved(digest, CompleteAll(digest, calls), call, k);
  }

  /** So a first assertion whose write fails leaves the tool invocable until a restart. */
  lemma InvocableUntilRestart(digest: string -> nat, calls: seq<Call>, call: Call, k: nat)
    requires var w := CompleteAll(digest, calls);
             && call.AssertCall? && Refusal(w.cat, call).None? && k < 2
             && call.sid in w.cat.sources && w.cat.sources[call.sid].tier.Invocable()
             && !Invocable(w.cat, call.sid, call.name)
    ensures var w := CompleteAll(digest, calls);
            && Invocable(MemoryAt(digest, w, call, k), call.sid, call.name)
            && LoadCatalog(digest, CrashPoints(digest, w, call)[k]).Some?
            && !Invocable(LoadCatalog(digest, CrashPoints(digest, w, call)[k]).value, call.sid, call.name)
  {
    hide LoadCatalog, CompleteAll, FingerprintOf, UpsertTool, UpsertAssertion;
    CrashHydrates(digest, calls, call, k);
  }

  // ----- calls as catalog runs ------------------------------------------------------

  /** The catalog operations a completed call amounts to. */
  function Steps(c: State, call: Call): seq<CatOp> {
    if Refusal(c, call).Some? then []
    else
      match call
      case RegisterCall(sid, tier, transport, declares, _) =>
        [RegisterOp(Source(sid, TierNamed(tier).value, transport), set n | n in declares)]
      case IngestCall(sid, claims) => ClaimSteps(sid, claims)
      case AssertCall(sid, name, desc, _) => [AssertOp(sid, name, desc.value)]
  }

  function ClaimSteps(sid: string, claims: seq<Claim>): seq<CatOp> {
    if claims == [] then []
    else [StepOf(sid, claims[0])] + ClaimSteps(sid, claims[1..])
  }

  function History(digest: string -> nat, calls: seq<Call>): seq<CatOp> {
    if calls == [] then []
    else
      var front := calls[..|calls| - 1];
      History(digest, front) + Steps(CompleteAll(digest, front).cat, calls[|calls| - 1])
  }

  lemma DoAllSnoc(digest: string -> nat, ops: seq<CatOp>, op: CatOp)
    ensures DoAll(digest, ops + [op]) == Do(digest, DoAll(digest, ops), op)
  {
    assert (ops + [op])[..|ops|] == ops;
  }

  function StepOf(sid: string, cl: Claim): CatOp { IngestOp(sid, cl.name, cl.claimed, cl.version, cl.schema) }

  lemma ClaimStep(digest: string -> nat, w: World, sid: string, cl: Claim, ops: seq<CatOp>)
    requires w.cat == DoAll(digest, ops) && sid in w.cat.sources
    ensures IngestOne(digest, w, sid, cl).cat == DoAll(digest, ops + [StepOf(sid, cl)])
    ensures sid in IngestOne(digest, w, sid, cl).cat.sources
  {
    DoAllSnoc(digest, ops, StepOf(sid, cl));
    IngestedEntry(digest, w.cat, sid, cl);
  }

  lemma Regroup(ops: seq<CatOp>, op: CatOp, rest: seq<CatOp>)
    ensures ops + ([op] + rest) == ops + [op] + rest
  {
  }

  lemma {:induction false} ClaimStepsRun(digest: string -> nat, w: World, sid: string, claims: seq<Claim>,
                                         ops: seq<CatOp>)
    requires w.cat == DoAll(digest, ops) && sid in w.cat.sources
    ensures IngestAll(digest, w, sid, claims).cat == DoAll(digest, ops + ClaimSteps(sid, claims))
    decreases |claims|
  {
    if claims == [] {
      assert ops + [] == ops;
    } else {
      var op := StepOf(sid, claims[0]);
      ClaimStep(digest, w, sid, claims[0], ops);
      ClaimStepsRun(digest, IngestOne(digest, w, sid, claims[0]), sid, claims[1..], ops + [op]);
      Regroup(ops, op, ClaimSteps(sid, claims[1..]));
    }
  }

  /** So everything the history predicts of a catalog run holds of the hydrated catalog. */
  lemma {:induction false} CallsAreCatalogRuns(digest: string -> nat, calls: seq<Call>)
    ensures CompleteAll(digest, calls).cat == DoAll(digest, History(digest, calls))
  {
    if calls != [] {
      var front, call := calls[..|calls| - 1], calls[|calls| - 1];
      CallsAreCatalogRuns(digest, front);
      var w, ops := CompleteAll(digest, front), History(digest, front);
      if Refusal(w.cat, call).Some? {
        assert ops + [] == ops;
      } else if call.IngestCall? {
        ClaimStepsRun(digest, w, call.sid, call.claims, ops);
      } else {
        DoAllSnoc(digest, ops, Steps(w.cat, call)[0]);
      }
    }
  }

  // ----- tables edited by hand ------------------------------------------------------

  /** The same tables but for the `asserted` column of tool rows. */
  predicate SameButAsserted(t: Tables, u: Tables) {
    && t.sources == u.sources && t.assertions == u.assertions && t.tools.Keys == u.tools.Keys
    && forall id <- t.tools :: t.tools[id].(asserted := None) == u.tools[id].(asserted := None)
  }

  /** Whatever stands in the `asserted` column, the same catalog is hydrated, or none. */
  lemma AssertedColumnIgnored(digest: string -> nat, t: Tables, u: Tables)
    requires SameButAsserted(t, u)
    ensures LoadCatalog(digest, t) == LoadCatalog(digest, u)
  {
    hide LoadedTools, Evidence, SourcesReadable, AssertionsReadable;
    if AssertionsReadable(t.assertions) { SameTools(digest, t.tools, u.tools, Evidence(t.assertions)); }
  }

  lemma SameTools(digest: string -> nat, rows: map<ToolId, ToolRow>, rows': map<ToolId, ToolRow>,
                  ev: map<ToolId, AssertionRecord>)
    requires rows.Keys == rows'.Keys
    requires forall id <- rows :: rows[id].(asserted := None) == rows'[id].(asserted := None)
    ensures LoadedTools(digest, rows, ev) == LoadedTools(digest, rows', ev)
  {
    hide Rederive, ClaimedFromJson;
    forall id <- rows ensures ReadTool(id, rows[id]) == ReadTool(id, rows'[id]) {
      assert rows[id].(asserted := None) == rows'[id].(asserted := None);
    }
  }

  /** What a row with this claim says of the tool. */
  predicate Matches(digest: string -> nat, row: ToolRow, v: Vouch) {
    Fingerprint(digest, row.version, ClaimedFromJson(row.claimed)) == Fingerprint(digest, v.version, v.claimed)
  }

  /** Two claims whose texts differ but have one digest. */
  predicate ClaimsCollide(digest: string -> nat, v: string, c: Claimed, w: string, d: Claimed) {
    var x, y := ListText(ClaimCells(v, c)), ListText(ClaimCells(w, d));
    x != y && digest(x) == digest(y)
  }

  /** However the tool rows are edited behind the program's back, a restart finds a tool
      invocable exactly when its stored claim has the fingerprint of the claim an operator last
      vouched for, and its source is trusted enough; then under that operator's descriptor. */
  lemma EditedRowsHydrate(digest: string -> nat, calls: seq<Call>, rows: map<ToolId, ToolRow>, sid: string,
                          name: string)
    ensures var w := CompleteAll(digest, calls);
            var c := LoadCatalog(digest, w.tables.(tools := rows));
            var vouch := LastVouch(History(digest, calls), (sid, name));
            && c.Some?
            && (Invocable(c.value, sid, name) <==>
                  && (sid, name) in rows && vouch.Some? && Matches(digest, rows[(sid, name)], vouch.value)
                  && sid in w.cat.sources && w.cat.sources[sid].tier.Invocable())
            && (Invocable(c.value, sid, name) ==> c.value.tools[(sid, name)].asserted == Some(vouch.value.desc))
  {
    hide LastVouch, LastClaim, Fingerprint, CompleteAll, History, StandingAssertion, ReadSource, ClaimedFromJson,
        LoadedDeclared, Registered;
    var w, ops, id := CompleteAll(digest, calls), History(digest, calls), (sid, name);
    RestartContinues(digest, calls);
    CallsAreCatalogRuns(digest, calls);
    DoAllTracks(digest, ops);
    assert TracksId(digest, w.cat, ops, id);
  }

  /** So no edit resurrects a tool: an invocable one carries the very claim vouched for, or
      one whose text collides with it under the digest. */
  lemma EditsDoNotResurrect(digest: string -> nat, calls: seq<Call>, rows: map<ToolId, ToolRow>, sid: string,
                            name: string)
    requires LoadCatalog(digest, CompleteAll(digest, calls).tables.(tools := rows)).Some?
    requires Invocable(LoadCatalog(digest, CompleteAll(digest, calls).tables.(tools := rows)).value, sid, name)
    ensures (sid, name) in rows && LastVouch(History(digest, calls), (sid, name)).Some?
    ensures var row, v := rows[(sid, name)], LastVouch(History(digest, calls), (sid, name)).value;
            || (row.version == v.version && ClaimedFromJson(row.claimed) == v.claimed)
            || ClaimsCollide(digest, row.version, ClaimedFromJson(row.claimed), v.version, v.claimed)
  {
    hide LoadCatalog, CompleteAll, History, LastVouch, ClaimedFromJson, Invocable, ListText, ClaimCells;
    EditedRowsHydrate(digest, calls, rows, sid, name);
    var row, v := rows[(sid, name)], LastVouch(History(digest, calls), (sid, name)).value;
    FingerprintBinds(digest, row.version, ClaimedFromJson(row.claimed), v.version, v.claimed);
  }
}
