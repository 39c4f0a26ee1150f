# ToolConnect: verified model

ToolConnect decides whether an agent may call a tool, binds an allowed call to its exact
arguments by a one-use grant, and keeps a hash-chained record of everything it decided. This
project models that path end to end in Dafny 4.11 (decision, grant, redemption, forwarded
call, audit record) and proves what it is for. `dafny verify dfyconfig.toml` checks all of it.

## Layout

| file | models |
|---|---|
| `Documents` | reading a JSON document as Python reads a dict |
| `CanonicalJson`, `CanonicalJsonMeaning`, `CanonicalText` | the argument rendering and its hash: printer, parser, meaning, the text itself (sections 4 to 7 of RFC 8259, keys in code-point order) |
| `PyEquality` | Python's `==` on JSON values, and where it is equality as JSON |
| `JsonRecord`, `Serializers` | records stored as JSON text and read back |
| `AuditChain`, `AuditBody`, `AuditText` | the hash-chained log, the bodies recorded in it, and their stored JSON |
| `Ledger` | grants and redemptions as transactions over log and tables |
| `SqliteStore` | the store object: statements in place, rollback, proved against `Ledger` |
| `Descriptor`, `Catalog` | claims, assertions, fingerprints, drift; the catalog object |
| `Persistence` | catalog tables, hydration, restart and crash |
| `Policy` | principals, verdicts, admission checks before the engine |
| `GovGrants`, `GovAcceptance` | offline verification of governance grants and revocation lists |
| `GovReasons` | why a grant is refused, in the names and texts of the format |
| `GovScope`, `GovExactness` | binding a grant to a call, and how exactly it binds |
| `ServiceCalls`, `ServiceRuns`, `ServiceResults` | the service's calls, runs of them, and what runs guarantee |
| `ServiceAnswers` | what the service answers and records, in the numbers and texts a caller sees |
| `SourceTrust` | source tiers, from registration to what is forwarded |
| `ServiceObject` | the service object over store and catalog, proved against `ServiceCalls` |
| `ConcurrentAuthorize` | threads inside `authorize` under its lock, with other store users interleaving |
| `Framing` | the downstream link: newline framing, one call, reverse requests |
| `ClientLoop` | the bounded client read loop |
| `ToolListing`, `GatewaySession`, `GatewayObject` | pagination, the session step machine, and the gateway object that runs it |
| `GatewaySafety`, `GatewaySurface` | what a session keeps; each message by its name, and the frames and codes it leads to |
| `GatewayForwarding`, `GatewayOutcomes` | when a call is forwarded and what the client is told, what a sent call leaves |
| `RateLimiter`, `Flow` | the sliding-window limiter; toolset flow analysis |

## How to read it

Objects the program updates in place are classes. Each method's contract equates its result
and the new state with a function of the old state, and the properties are lemmas about those
functions over every run. Nothing is assumed of the hash: wherever equality of hashes is used,
the conclusion is equality of what was hashed or an explicit collision. Fresh identifiers,
clock readings, failing appends (`Moment.fault`), downstream bytes and replies, and what other
users of the store do meanwhile are arguments that range over everything. Beside the specification
functions stand theorems that name every method, tier, status, code, key and limit outright. In `ConcurrentAuthorize`
fresh means never drawn before; elsewhere even that is not needed. Values parsed from JSON are
`PyVal`. Timestamps are a text with the instant it parses to.

## Where code and documentation differ

The model follows the code.

- The governance verifier is documented never to raise. It raises KeyError on a grant without
  the window keys: `GovAcceptance.RaisesExactly` gives the exact condition and
  `GovAcceptance.BarePayloadRaises` such a grant.
- A downstream frame over the size cap is documented as refused. One that ends within the chunk
  that carries it over is accepted: `Framing.FramesPassExactly`, `Framing.AnOverlongFrameCanPass`.
- Argument constraints are documented as exact JSON equality. The code uses Python's `==`:
  `ServiceResults.AGrantForOneRedeemsForTrue` spends a grant for 1 on true, and
  `GovExactness.ConstraintBindsExactlyIff` says for which constraint values the code is exact.
- The revocation list is documented to be waived outside its coverage. For an authentic list
  that never happens to a grant in force (`GovAcceptance.CoveredWhenInForce`).
- `verify_chain` does not look at the numbering except at the tip (`AuditChain.RenumberingVerifies`,
  with an instance in `AuditChain.ARenumberedLogVerifies`).
- `redeem_grant` judges expiry by the clock read under the lock but stamps a later one, so a
  stamp can lie after the expiry: `Ledger.StampedLateIff`, with an instance in `Ledger.AStampAfterExpiry`.
- The gateway's four error codes are documented never to collide with the downstream's. Downstream
  errors keep their code, so they can: `GatewayForwarding.ADownstreamErrorLooksLikeADenial`,
  `GatewayForwarding.APingLooksUnpermitted`. `GatewayForwarding.CodesTell` and
  `GatewayForwarding.NotPermittedExactly` say what each code means to the client, and
  `GatewayForwarding.CodesAreTheGatewaysOwnIff` when it means what is documented.
- Results and errors are documented as relayed as they are. A result that is no object becomes an
  empty one, and an `error` key of null hides a good result: `GatewayForwarding.RelayedUnchangedIff`,
  `Framing.ErrorKeptExactly`, with instances in `Framing.AStringResultIsLost` and
  `Framing.ANullErrorHidesTheResult`.
- Hydration is documented as literal. It does not read the `asserted` column
  (`Persistence.AssertedColumnIgnored`), as the comment inside it says.
- Out-of-band chatter is documented never to be mistaken for an answer, and a reverse request
  never to be dropped. One that carries the id in flight is both (`Framing.ARequestTakenForTheAnswer`);
  `Framing.ReverseRefusedExactly` gives the exact condition. Ids are compared as Python does, so
  `true` and `1.0` are the id `1`.
- Every mutation is documented as written through. Memory is changed first, so a table write that
  raises leaves it ahead: `Persistence.FailedWriteAgreesIff`, `Persistence.InvocableUntilRestart`.

## Model

| member | source | states |
|---|---|---|
| CanonicalJsonMeaning.CanonicalDecodes | src/toolconnect/hashing.py:31-58 | the canonical text of accepted arguments parses back, with nothing left over, to their sorted form, whose meaning is the JSON value of the arguments |
| CanonicalJsonMeaning.CanonicalIffEqual | src/toolconnect/hashing.py:31-58 | two accepted arguments, of any depth and key order, print alike exactly when they are equal as JSON values; ints, floats, bools and strings are never conflated |
| CanonicalJsonMeaning.ArgsHashBinds | src/toolconnect/hashing.py:61-63 | equal hashes mean equal arguments, or two different texts that collide |
| CanonicalJsonMeaning.AcceptedIffClean | src/toolconnect/hashing.py:31-57 | rendering succeeds exactly for an object with only string keys, finite floats and JSON types at every depth |
| CanonicalJsonMeaning.CanonicalIsAscii | src/toolconnect/hashing.py:57-58 | the canonical text is printable ASCII only |
| CanonicalText.KeysInOrder | src/toolconnect/hashing.py:57-58 | the keys of a rendered object come in code-point order: each a proper beginning of the next or smaller where they first differ |
| CanonicalText.PrintedScalars | src/toolconnect/hashing.py:57-58 | null, true, false, a float's repr, and empty brackets |
| CanonicalText.PrintedItems | src/toolconnect/hashing.py:57-58 | items are separated by a bare comma |
| CanonicalText.PrintedInts | src/toolconnect/hashing.py:57-58 | integers in decimal, with a sign only for what is negative |
| CanonicalText.PrintedStrings | src/toolconnect/hashing.py:57-58 | a string is quoted, its characters escaped one by one |
| CanonicalText.PrintedMembers | src/toolconnect/hashing.py:57-58 | members are printed as quoted name, bare colon and value, separated by a bare comma |
| CanonicalText.ShortEscapes | src/toolconnect/hashing.py:57-58 | quote, backslash and five controls are escaped by letter, other printable ASCII stands for itself |
| CanonicalText.UnicodeEscapes | src/toolconnect/hashing.py:57-58 | every other character is its four lower-case hex digits, or two surrogates |
| CanonicalText.HexDigits | src/toolconnect/hashing.py:57-58 | the sixteen digits, and the most significant first |
| CanonicalJson.ParseInverts | src/toolconnect/hashing.py:57-58 | a parser recovers the printed structure from any text that starts with it, whatever follows |
| JsonRecord.CellReadsBack | src/toolconnect/store.py:207-211 | every column of a stored record reads back from its canonical JSON text under its own name |
| JsonRecord.ListTextInjective | src/toolconnect/catalog.py:178-195 | the canonical text of a list of scalars determines the list |
| Serializers.ClaimedRoundTrip | src/toolconnect/store.py:213-232 | claimed metadata survives being stored as JSON and read back |
| Serializers.AssertedRoundTrip | src/toolconnect/store.py:234-262 | an asserted descriptor survives being stored as JSON and read back, its sets included |
| Serializers.AssertedTexts | src/toolconnect/store.py:234-246 | a stored descriptor holds each part under its key, the effect by its name |
| Serializers.ClassTexts | src/toolconnect/descriptor.py:26-31 | the names of the data classes in stored texts |
| Serializers.TierTexts | src/toolconnect/descriptor.py:47-51 | the names of the four tiers |
| Serializers.MissingKeys | src/toolconnect/store.py:248-262 | what stands for keys a stored descriptor lacks: reversible, and otherwise nothing and no |
| AuditChain.VerifyChain | src/toolconnect/store.py:579-620 | ok exactly when every row links and hashes and the tip matches the mark; otherwise the first fault, its kind, the row and the count of good rows before it |
| AuditChain.NextRowIs | src/toolconnect/store.py:508-520 | what is hashed: kind, body, time and previous hash joined by the unit separator; the first row is number one and follows 64 zeros, each other is one more and follows its predecessor's hash |
| AuditChain.EncodeUnambiguous | src/toolconnect/store.py:513-514 | the separator-joined text determines all four fields as soon as one of the two rows is separator-free |
| AuditChain.AppendKeepsSound | src/toolconnect/store.py:508-530 | an append keeps the log numbered from one, linked, clean and marked at its tip |
| AuditChain.AppendAllSound | src/toolconnect/store.py:508-530 | every run of appends leaves such a log, so it verifies |
| AuditChain.TamperEvidence | src/toolconnect/store.py:508-529 | rows that replace those of a nonempty log and still verify agree in kind, body, time and both hashes at every position and in the tip's number, or a collision or a preimage of the genesis value is extracted from the two |
| AuditChain.RenumberingVerifies | src/toolconnect/store.py:592-602 | equal records verify exactly when the tip keeps its number: gaps and renumbering elsewhere go unnoticed |
| AuditChain.ARenumberedLogVerifies | src/toolconnect/store.py:592-602 | a two-row log, renumbered below its tip, that verifies |
| AuditChain.TruncationDetected | src/toolconnect/store.py:610-619 | dropping any number of newest rows is always caught, whatever the hash |
| AuditBody.EntryIsClean | src/toolconnect/store.py:508-514 | nothing the program itself hashes holds the separator, whatever the values recorded |
| AuditText.StoredDecision | src/toolconnect/policy.py:174-186 | the stored JSON of a decision, key by key |
| AuditText.StoredIssue | src/toolconnect/store.py:655-664 | the stored JSON of an issued grant, key by key |
| AuditText.StoredRedeem | src/toolconnect/store.py:756-760 | the stored JSON of a redemption, key by key |
| AuditText.StoredClose | src/toolconnect/store.py:855-862 | the stored JSON of a close, key by key |
| AuditText.StoredDenial | src/toolconnect/service.py:551-556 | the stored JSON of a denied redemption, key by key |
| AuditText.StoredOutcome | src/toolconnect/service.py:728-731 | the stored JSON of an outcome, key by key |
| AuditText.StoredEnforcement | src/toolconnect/service.py:616-634 | the stored JSON of a governance enforcement record, key by key |
| AuditText.NoteKinds | src/toolconnect/service.py:240-390 | the kinds catalog calls are recorded under |
| ServiceObject.NotesName | src/toolconnect/service.py:240-390 | which names the note of a catalog call lists |
| Ledger.RunKeeps | src/toolconnect/store.py:645-863 | over any run of store operations with any appends failing, the ledger invariant holds and the log has one row per committed append |
| Ledger.LedgerOverEveryRun | src/toolconnect/store.py:645-863 | a grant row exists exactly when it has one issue record; it is redeemed, or closed, exactly when it has one such record; issue comes first and no redemption follows a close; the chain verifies |
| Ledger.RunEvolves | src/toolconnect/store.py:645-863 | latches are written once, identity columns never change, a closed grant is never redeemed afterwards, and records are only added |
| Ledger.ReasonsByRow | src/toolconnect/store.py:722-755 | every answer of a redemption from the grant's row: which of the eight exactly when, in terms of the latches, the expiry, the principal, the hash and the callback |
| Ledger.RedeemWrites | src/toolconnect/store.py:722-761 | what a redemption writes: the latch and its record on ok, the closed row and its record for a lapsed tool, nothing otherwise; the reply names what the row names |
| Ledger.RecordsRepeatRows | src/toolconnect/store.py:645-823 | in every run the issue record of a grant, and the enforcement record of a governance redemption, repeat their row field by field |
| Ledger.StampedLateIff | src/toolconnect/store.py:712-759 | an ok redemption was judged before the expiry; its stamp is late exactly when the expiry lies between the two clock readings |
| Ledger.AStampAfterExpiry | src/toolconnect/store.py:712-759 | a grant judged in time and stamped as redeemed after it expired |
| Ledger.IssueKeeps | src/toolconnect/store.py:645-665 | issuing keeps row and record together, or does neither |
| Ledger.RedeemKeeps | src/toolconnect/store.py:705-773 | every branch of a redemption keeps the ledger invariant, rollback included |
| Ledger.CloseKeeps | src/toolconnect/store.py:847-863 | closing, also of a closed grant, keeps the ledger invariant |
| Ledger.ClaimKeeps | src/toolconnect/store.py:797-823 | a governance claim keeps one redeemed record per redemption row |
| StoreObject.SqliteStore.AppendInTxn | src/toolconnect/store.py:495-530 | the statements of an open transaction insert the next chained row and move the mark |
| StoreObject.SqliteStore.AppendAudit | src/toolconnect/store.py:532-535 | an append commits as a whole, or leaves the store as it was |
| StoreObject.SqliteStore.IssueGrant | src/toolconnect/store.py:645-665 | the store after issuing is exactly that of the ledger operation, also when the append fails or the id is taken |
| StoreObject.SqliteStore.RedeemGrant | src/toolconnect/store.py:688-773 | reply and store are exactly those of the ledger operation, for every deny reason and for a failed append |
| StoreObject.SqliteStore.CloseGrant | src/toolconnect/store.py:839-863 | reply and store are exactly those of the ledger operation |
| StoreObject.SqliteStore.RecordRedemption | src/toolconnect/store.py:775-823 | the one use is claimed with its record or not at all |
| StoreObject.SqliteStore.FindDecision | src/toolconnect/store.py:568-577 | scanning stored JSON bodies finds the first decision recorded under the id, and only that |
| ToolCatalog.FingerprintBinds | src/toolconnect/catalog.py:178-195 | equal fingerprints mean the same version and claim, or a collision of the digest |
| ToolCatalog.IngestLeaves | src/toolconnect/catalog.py:136-158 | an ingested entry is the claim, version and schema as given, asserted exactly when evidence is on file for a claim of the same fingerprint; nothing else changes |
| ToolCatalog.AssertLeaves | src/toolconnect/catalog.py:160-175 | the two refusals of a vouch, and the evidence it files otherwise; nothing else changes |
| ToolCatalog.Catalog.IngestClaimed | src/toolconnect/catalog.py:136-158 | a matching claim keeps its assertion, a changed one loses it, an unknown source is refused |
| ToolCatalog.Catalog.AssertDescriptor | src/toolconnect/catalog.py:160-175 | a vouch needs a person and a known tool, and binds to the claim as it stands |
| ToolCatalog.Catalog.RegisterSource | src/toolconnect/catalog.py:132-134 | registering replaces one source and its declared names |
| ToolCatalog.StatusFromHistory | src/toolconnect/catalog.py:221-239 | after any run, status and invocability are what the history of claims and vouches predicts: asserted exactly when the current claim has the fingerprint last vouched for |
| ToolCatalog.RunsAreCoherent | src/toolconnect/catalog.py:132-175 | in every run evidence belongs to a known tool of a known source |
| ToolCatalog.SourcesAreIsolated | src/toolconnect/catalog.py:132-175 | an operation on one source changes no status, invocability or drift of another |
| ToolCatalog.DriftTrichotomy | src/toolconnect/catalog.py:256-289 | every discovered name is exactly one of unasserted, redefined or asserted |
| ToolCatalog.DriftLists | src/toolconnect/catalog.py:256-289 | each list of a drift report by membership: missing is declared and not discovered, undeclared is discovered and not declared, unasserted has no evidence, redefined has evidence that no longer holds, conflicts are those of discovered known tools |
| ToolCatalog.ConflictsMean | src/toolconnect/descriptor.py:149-167 | each contradiction between server and operator, hint by hint, with the defaults of the protocol |
| ToolCatalog.ConflictsInOrder | src/toolconnect/descriptor.py:149-167 | each contradiction is reported once, in a fixed order |
| ToolCatalog.CleanDrift | src/toolconnect/catalog.py:256-289 | drift is clean exactly when declared equals discovered, all of it stands asserted and no claim conflicts |
| ToolCatalog.ResolveNeverGuesses | src/toolconnect/catalog.py:205-219 | a bare name resolves exactly when one source exposes it |
| Persistence.RestartContinues | src/toolconnect/store.py:425-468 | after any completed calls, hydrating the tables gives the catalog in memory, assertions re-derived from fingerprints |
| Persistence.CrashHydrates | src/toolconnect/service.py:332-345 | a crash inside any call hydrates to the state before it, to a prefix of its tools, or to the state after it |
| Persistence.AssertHalfway | src/toolconnect/service.py:384-386 | between the two writes of an assertion the tables hydrate to the catalog before the call |
| Persistence.FailedWriteAgreesIff | src/toolconnect/service.py:238-239 | when a table write raises and the process goes on, memory and tables agree exactly when the change was none or only the discovery was left unwritten |
| Persistence.InvocableUntilRestart | src/toolconnect/service.py:378-386 | a first assertion whose write raises leaves the tool invocable in memory and not on disk |
| Persistence.CallsAreCatalogRuns | src/toolconnect/service.py:223-392 | the catalog after any calls is that of a run of catalog operations, so the history results hold of it |
| Persistence.AssertedColumnIgnored | src/toolconnect/store.py:440-447 | tables that differ only in the asserted column of tool rows hydrate alike, whatever they hold |
| Persistence.EditedRowsHydrate | src/toolconnect/store.py:440-447 | after any calls and any edit of the tool rows, a restart finds a tool invocable exactly when its stored claim has the fingerprint of the claim last vouched for and its source is trusted enough, and then under that descriptor |
| Persistence.EditsDoNotResurrect | src/toolconnect/store.py:440-447 | so it carries the very claim vouched for, or a collision of the digest is exhibited |
| Persistence.RowsSay | src/toolconnect/store.py:355-412 | the command of a source and the names of a discovery are stored as given, in order |
| SourceTrust.InvocableByCalls | src/toolconnect/descriptor.py:54-55 | after any calls a tool may run exactly when its last claim has the fingerprint last vouched for and its source was last registered under the text verified or known |
| SourceTrust.DistrustedIsDenied | src/toolconnect/policy.py:167-170 | a tool of any other source is denied without asking the engine, labelled as unregistered or not invocable, and no grant is issued |
| SourceTrust.DistrustedDoesNotRedeem | src/toolconnect/service.py:529-576 | nor does a grant for it redeem |
| SourceTrust.ForwardedIsTrusted | src/toolconnect/gateway.py:512-578 | every forwarded call of every session was redeemed while its source was trusted and its assertion stood |
| SourceTrust.DistrustedSendsNoCalls | src/toolconnect/gateway.py:512-578 | a session whose source is never trusted when a grant is presented sends no tool call |
| RateLimiter.Limiter.Check | src/toolconnect/server.py:79-94 | the deques admit exactly when fewer than the limit were admitted to this key in the closed window of the full history |
| RateLimiter.Limiter.Sweep | src/toolconnect/server.py:60-73 | sweeping loses no hit that can still count |
| RateLimiter.NoWindowOverflows | src/toolconnect/server.py:83-94 | no closed interval as long as the window holds more admissions of a key than the limit |
| RateLimiter.RoomMeans | src/toolconnect/server.py:84-94 | admitted exactly when fewer than the limit were, or the one that many back is more than a window old |
| RateLimiter.AdmissionsAreSpaced | src/toolconnect/server.py:83-94 | in every run two admissions of a key that many apart in number are more than a window apart in time |
| RateLimiter.RetryDelayIsExact | src/toolconnect/server.py:90-92 | after a rejection with a delay, every check of the key up to and including its end is rejected and the first one later is admitted |
| RateLimiter.RetainedAreRecent | src/toolconnect/server.py:60-73 | after every check each retained key has a hit later than two windows ago |
| Policy.EffectiveTier | src/toolconnect/policy.py:28-37 | by name: local exactly when the whole chain is local; trusted-cloud when nothing else but local occurs with it; rented when nothing unknown occurs with it; otherwise the first name of the chain that is none of the three |
| Policy.ChainIs | src/toolconnect/policy.py:28-37 | the chain is the caller's tier and then the chain of whoever it acts for |
| Policy.BrokerAnswers | src/toolconnect/policy.py:158-172 | an unknown tool, one not asserted or of a source neither verified nor known, and the engine's own verdict for every other, with their texts and labels |
| Policy.DecideSays | src/toolconnect/policy.py:112-143 | what is said of each evaluation: permitted, forbidden, errored, nothing matched, or an engine that raised |
| Policy.JoinedIs | src/toolconnect/policy.py:136-142 | how the words of a reason are joined |
| Policy.DecisionRecordSays | src/toolconnect/policy.py:174-186 | the record of a decision says who, which tool, what was decided and why, and whether nothing matched |
| GovGrants.StructuralFailures | src/toolconnect/govgrants.py:139-168 | the shape checks give exactly these codes, and a payload only when there are none |
| GovGrants.VerifyRevocationList | src/toolconnect/govgrants.py:233-273 | the codes gathered step by step are those of the specification |
| GovGrants.VerifyGrant | src/toolconnect/govgrants.py:276-384 | the verdict and codes gathered step by step are those of the specification, KeyError included |
| GovAcceptance.AcceptanceIs | src/toolconnect/govgrants.py:310-384 | accepted means, without mention of codes: a grant's shape, the pinned issuer, a good signature under the trust root, in force at the instant, nothing from the list |
| GovAcceptance.ListIff | src/toolconnect/govgrants.py:233-273 | a list gives no codes exactly when it is well-formed, authentic and already issued |
| GovAcceptance.AcceptedWithAuthenticList | src/toolconnect/govgrants.py:364-379 | with an authentic list: accepted exactly when accepted without one, not named, and issued no later than the list |
| GovAcceptance.AcceptedWithFailingList | src/toolconnect/govgrants.py:353-363 | with a list that does not verify: accepted exactly when accepted without one and the window ends no later than the instant the list claims |
| GovAcceptance.ExcusedListsAreLater | src/toolconnect/govgrants.py:353-363 | so a failing list is excused only when it claims an instant after the present one |
| GovAcceptance.CodesGrow | src/toolconnect/govgrants.py:353-384 | codes without a list are a prefix of those with one; valid exactly when no code was found |
| GovAcceptance.RefusalSaysWhy | src/toolconnect/service.py:639-641 | a refusal always has a first code and a valid grant a payload to read |
| GovAcceptance.RaisesExactly | src/toolconnect/govgrants.py:341-351 | the verifier raises exactly when the instant parses and a window key it goes on to index is absent |
| GovAcceptance.BarePayloadRaises | src/toolconnect/govgrants.py:343-346 | a grant with every required field and no optional one makes it raise, whatever the trust root |
| GovScope.ScopeFailures | src/toolconnect/govgrants.py:387-422 | the codes gathered step by step are those of the specification |
| GovScope.InScopeByName | src/toolconnect/govgrants.py:387-422 | no code exactly when the provider, tool.invoke among the operations, the caller, the tool, the source if one is named, and every other constraint hold |
| GovScope.ScopeCodesByName | src/toolconnect/govgrants.py:407-421 | which binding that fails yields which code |
| GovScope.FirstScopeCode | src/toolconnect/govgrants.py:407-421 | the text of the first code is that of the first binding that fails |
| GovReasons.PayloadShape | src/toolconnect/govgrants.py:47-76 | the field tables, name by name and type by type |
| GovReasons.ListShapeByName | src/toolconnect/govgrants.py:171-195 | the fields a revocation list must have, name by name |
| GovReasons.FirstReason | src/toolconnect/govgrants.py:276-384 | valid exactly when a reading that stops at the first objection has none; the first code of any other grant is that objection, for every stage and text |
| GovReasons.EveryObjection | src/toolconnect/govgrants.py:310-384 | a refusal lists the objections of every stage, each led by its own reason |
| GovReasons.VerdictFlags | src/toolconnect/govgrants.py:310-384 | the two flags of a verdict: a good signature under the trust root, and within the window |
| GovReasons.UnsignedByName | src/toolconnect/govgrants.py:266-269 | a list's signature covers every field but the signature |
| Documents.FieldMeans | src/toolconnect/govgrants.py:141-148 | reading a field of a document: only of an object, and only of its type |
| PyEquality.EqualByKind | src/toolconnect/govgrants.py:416-421 | which kinds of value can be equal to which, and bools, ints and floats by what they are worth |
| PyEquality.EqualityIsExactIff | src/toolconnect/govgrants.py:416-421 | every accepted value Python takes for equal to a given one is that one as JSON, exactly when the given value holds, at any depth, no bool, no 0 or 1, no int that some float equals and no integral float |
| GovExactness.ConstraintBindsExactlyIff | src/toolconnect/govgrants.py:400-422 | every call in scope of a grant meets an argument constraint exactly as written, if and only if its value is such an unambiguous one; for any other, some call in scope carries another argument |
| GovExactness.UnambiguousConstraintsBind | src/toolconnect/govgrants.py:400-422 | a call in scope meets every unambiguous constraint exactly |
| GovExactness.OneOnlyAccepted | src/toolconnect/govgrants.py:310-384 | a grant with every required field for the argument 1 is accepted under any trust root that signed it |
| GovExactness.TrueIsTakenForOne | src/toolconnect/govgrants.py:416-421 | and is in scope for the argument true |
| ServiceResults.AGrantForOneRedeemsForTrue | src/toolconnect/service.py:607-688 | so a signed grant for the argument 1, not used before, is redeemed for true |
| ServiceObject.ToolConnectService.RegisterSource | src/toolconnect/service.py:223-245 | refused with nothing changed, carried out in catalog and tables alike and then noted, or stopped at a table write that raised, with memory ahead |
| ServiceObject.ToolConnectService.IngestPayload | src/toolconnect/service.py:308-345 | all names are checked before any tool is ingested; catalog and tables end as the completed call says, or as the table write that raised leaves them |
| ServiceObject.ToolConnectService.AssertTool | src/toolconnect/service.py:359-392 | the refusals in their order, both writes and the note, or the state at the write that raised |
| ServiceObject.RegisterRefused | src/toolconnect/service.py:223-233 | 400 exactly without an id or under a tier that is none of the four |
| ServiceObject.IngestRefused | src/toolconnect/service.py:308-331 | 404 for an unknown source; for the first bad name 400 when empty and 409 when repeated |
| ServiceObject.AssertRefused | src/toolconnect/service.py:359-383 | 400, 422, 400 or 404, in this order |
| ServiceObject.ToolConnectService.Authorize | src/toolconnect/service.py:444-527 | answer and store are those of the specification, for malformed requests and failed appends too |
| ServiceObject.ToolConnectService.RedeemGrant | src/toolconnect/service.py:529-576 | answer and store are those of the specification, a denial's own record included |
| ServiceObject.ToolConnectService.RecordOutcome | src/toolconnect/service.py:717-743 | answer and store are those of the specification |
| ServiceObject.ToolConnectService.RedeemGovernanceGrant | src/toolconnect/service.py:580-688 | answer and store are those of the specification, over the step-by-step verifier |
| ServiceRuns.ServiceKeepsLedger | src/toolconnect/service.py:444-743 | whatever the service is asked, in any order and with any append failing, its store is one a run of ledger operations makes: the invariant holds and nothing recorded is lost |
| ServiceResults.AuthorizeLeaves | src/toolconnect/service.py:444-527 | refused as malformed exactly when it is, with nothing left; otherwise the decision comes first, and a grant is issued exactly on an allow of exact arguments, with both records or not at all |
| ServiceAnswers.RefusedAsMalformed | src/toolconnect/service.py:458-470 | status 400 exactly for a principal that does not parse, a context that is no object, a lifetime without arguments, arguments without a canonical text, or a lifetime that is not a whole number from 1 to 300 |
| ServiceAnswers.AllowedIff | src/toolconnect/service.py:474-493 | allowed exactly when the tool is asserted, its source verified or known, and the engine allows this principal this tool in this context |
| ServiceAnswers.GrantLives | src/toolconnect/service.py:496-526 | an issued grant, field by field: it lives the seconds asked for, from 1 to 300, or 60 when none were |
| ServiceAnswers.RedeemRefused | src/toolconnect/service.py:535-545 | status 400 exactly without a grant id, a principal or hashable arguments |
| ServiceAnswers.RedeemAnswers | src/toolconnect/service.py:529-576 | each of the eight answers exactly when, from the row, the presenter, the hash of what was presented, the instant and the catalog |
| ServiceAnswers.RedeemRecords | src/toolconnect/service.py:546-560 | what an answered redemption leaves on record; a denial's last record carries the text of its reason |
| ServiceAnswers.OutcomeAnswers | src/toolconnect/service.py:717-743 | 400, 404 or recorded, and which of them after the outcome is already on record |
| ServiceAnswers.CloseAnswers | src/toolconnect/service.py:690-700 | 404 for an unknown grant; any other close is recorded, and latches the first instant |
| ServiceResults.GrantBinds | src/toolconnect/service.py:458-492 | a grant that redeems, whatever happened since, redeems for the caller, tool and arguments it was authorized for (or a collision is exhibited), for a tool invocable both times, within its time to live |
| ServiceResults.OneUse | src/toolconnect/store.py:729-761 | once redeemed, every later attempt by anyone after any calls is refused as already redeemed |
| ServiceResults.KilledForGood | src/toolconnect/store.py:739-755 | a grant whose tool was not invocable is closed for good, even if the tool becomes invocable again |
| ServiceResults.OutcomePointsBack | src/toolconnect/service.py:725-743 | a recorded outcome names the sequence number of a real decision with its id, and the grant named with it belongs to that decision and ends closed |
| ServiceResults.GovRecordsOnce | src/toolconnect/service.py:607-688 | a call that completes leaves exactly one enforcement record saying what it answered; one that does not complete leaves the store unchanged |
| ServiceAnswers.GovRefused | src/toolconnect/service.py:596-602 | status 400 exactly without a principal or hashable arguments |
| ServiceAnswers.GovAnswers | src/toolconnect/service.py:607-688 | the word a governance call is answered by: the first objection to the grant, then to its scope, then an earlier use, and ok otherwise |
| ServiceAnswers.RedeemedIffBound | src/toolconnect/service.py:643-688 | redeemed only for a call bound to its grant by provider, caller, tool.invoke, tool, source if named and arguments; and for every such call if unused and recorded |
| ServiceAnswers.GovRecordSays | src/toolconnect/service.py:613-668 | the enforcement record of a completed call, field by field against the call and the payload |
| ServiceAnswers.RowsAreBound | src/toolconnect/service.py:648-668 | every row of every run was written for a call bound to that grant, and holds its fields |
| ServiceResults.GovernanceConserved | src/toolconnect/service.py:607-688 | over any run: one enforcement record per completed call, each grant redeemed at most once and exactly the ones with a row, every row earned by a call that verified and was in scope |
| ConcurrentAuthorize.StepKeeps | src/toolconnect/service.py:474-493 | every step of every thread, and of other store users, keeps the lock discipline and what each thread knows |
| ConcurrentAuthorize.GrantsAreBoundToTheirDecisions | src/toolconnect/service.py:474-493 | from any store a process starts over, for any threads and interleaving, every grant carries the id of an allowed decision for the same principal, source and tool, and no decision id has two grants |
| ConcurrentAuthorize.ACrashStartsAgain | src/toolconnect/service.py:68-84 | a process may die with threads anywhere in the block: what it leaves is again such a store |
| ConcurrentAuthorize.InterleavingsKeepTheLedger | src/toolconnect/service.py:68-84 | from any store with the ledger invariant, every interleaving keeps it and the chain verifies |
| ConcurrentAuthorize.UndisturbedIsAuthorize | src/toolconnect/service.py:444-527 | a thread nobody comes between leaves exactly the store of the authorize call, and the lock free |
| Framing.ChunkingIndependent | src/toolconnect/gateway.py:159-197 | two readings of one stream, however cut, agree as far as both go, on the newline-split frames |
| Framing.LinesAreFrames | src/toolconnect/gateway.py:159-197 | the lines returned are the first frames of the bytes seen; all of them once the stream is read out |
| Framing.Link.ReadLine | src/toolconnect/gateway.py:159-197 | one more line, or a fault that loses no bytes unless a frame broke the cap; the buffer stays bounded |
| Framing.FramesPassExactly | src/toolconnect/gateway.py:183-195 | an unfinished frame is refused exactly when it outgrew the cap; one that ends within the chunk is accepted, over the cap by less than a chunk |
| Framing.CapInBytes | src/toolconnect/gateway.py:183-195 | the same in bytes: frames end at byte 10, the cap is 8388608, a read brings at most 65536 |
| Framing.AnOverlongFrameCanPass | src/toolconnect/gateway.py:183-195 | a frame one byte over the cap that is accepted |
| Framing.FitsCapPrefix | src/toolconnect/gateway.py:183-195 | a stream within the cap was within it all along |
| Framing.Link.ReadMany | src/toolconnect/gateway.py:159-197 | any number of reads over any timeouts: on a stream within the cap none fails for size, and the lines are the first frames of all the bytes |
| Framing.Link.Call | src/toolconnect/gateway.py:212-251 | the answer is that of the message carrying this call's id; every reverse request before it got one refusal, unless the pipe broke |
| Framing.ReverseRefusedExactly | src/toolconnect/gateway.py:227-240 | unless the pipe broke, a reverse request gets exactly one refusal under its own id if and only if Python does not take that id for the one in flight; one it does take gets none, ends the call and is what it returns |
| Framing.IdsByPython | src/toolconnect/gateway.py:229-229 | which ids are taken for the one in flight |
| Framing.ARequestTakenForTheAnswer | src/toolconnect/gateway.py:229-249 | a reverse request under the id in flight that is not refused and ends the call as a protocol fault |
| Framing.EveryReplyIsItsOwn | src/toolconnect/gateway.py:212-251 | when the downstream answers each request only under its own id, possibly late, reordered or never, whatever a call returns, in any sequence of calls, is the answer to that very call |
| Framing.ResultKeptExactly | src/toolconnect/gateway.py:241-251 | an answer keeps the downstream's result exactly when no error key is present and the result is an object |
| Framing.ErrorKeptExactly | src/toolconnect/gateway.py:242-247 | an error is passed on as the downstream wrote it exactly for a nonzero integer code, a nonempty message and data that is not null |
| Framing.ErrorFallsBack | src/toolconnect/gateway.py:242-247 | what stands in for a code or message that is missing, null or empty |
| Framing.AStringResultIsLost | src/toolconnect/gateway.py:250-251 | a result that is a text, answered as an empty object |
| Framing.ANullErrorHidesTheResult | src/toolconnect/gateway.py:241-247 | a good result beside a null error, answered as an internal error |
| ClientLoop.Client.Run | src/toolconnect/gateway.py:330-360 | the bounded reads act line by line as the plain split, except that each line over the cap yields one refusal and nothing of it is dispatched |
| ClientLoop.LineByContent | src/toolconnect/gateway.py:330-360 | a line over 8388608 characters is refused; of any other what is left without the space at both ends is dispatched, if anything is |
| ToolListing.ListingIs | src/toolconnect/gateway.py:452-495 | a listing succeeds exactly on a complete run of pages within both bounds, and then has all their tools in order |
| ToolListing.ListingIsBounded | src/toolconnect/gateway.py:452-495 | however it ends: at most a hundred requests, each asking for the cursor just given, none twice, never holding more than ten thousand tools when it asks again |
| ToolListing.ListingByNumbers | src/toolconnect/gateway.py:452-495 | at most 100 requests and 10000 tools, the first request without a cursor |
| ToolListing.PageByName | src/toolconnect/gateway.py:461-483 | what counts as a page and how it leads on |
| ToolListing.VisibleExactly | src/toolconnect/gateway.py:505-510 | each listed tool is shown as often as listed if the catalog has it invocable, and not at all otherwise |
| ToolListing.VisibleInOrder | src/toolconnect/gateway.py:505-510 | the tools shown keep the order they were listed in |
| GatewaySafety.EverySessionIsSafe | src/toolconnect/gateway.py:512-578 | in every session the tools/call frames pair up in order with distinct redemption records for the same source, tool and principal, bound to the hash of the forwarded arguments, under an earlier allowed decision, for a tool invocable at redemption; no other frame is a tool call |
| GatewaySurface.OnlyTheSurfaceIsSent | src/toolconnect/gateway.py:253-295 | in every session each frame sent is an initialize, ping, tools/list or tools/call request, the initialized notification, or the refusal of a reverse request |
| GatewaySurface.RequestsByName | src/toolconnect/gateway.py:429-440 | initialize and ping send exactly that method with its params and answer with the reply; tools/list asks for pages; tools/call is governed under the name and arguments given; every other method leaves store, frames and forwards alone and is refused under -32004 |
| GatewaySurface.ForwardsAreEvident | src/toolconnect/gateway.py:512-578 | the evidence of each forwarded call field by field: frame, grant, redemption record, earlier allowed decision, and a tool that may run |
| GatewaySurface.NotificationsByName | src/toolconnect/gateway.py:419-427 | only the end of the handshake is passed on; nothing is answered |
| GatewaySurface.MalformedByName | src/toolconnect/gateway.py:380-411 | input that is no request, the code it is refused under and the id it is answered with |
| GatewaySurface.RefusalsByName | src/toolconnect/gateway.py:530-558 | what a denied, unredeemed or malformed call is told, with its reason, decision and grant |
| GatewaySurface.ListAnswers | src/toolconnect/gateway.py:496-510 | what tools/list is answered in each of its endings |
| GatewaySurface.ShownExactly | src/toolconnect/gateway.py:505-510 | a listed tool is shown, as often as listed, exactly when its name is a text and the tool may run |
| GatewaySafety.GovernedSafe | src/toolconnect/gateway.py:512-578 | one governed call, with others using the store between its steps, keeps the session safe |
| GatewaySafety.ObjectSafe | src/toolconnect/gateway.py:394-440 | no other message emits a tool call |
| GatewaySafety.AnsweredOnce | src/toolconnect/gateway.py:380-440 | every request gets one reply with its own id, unreadable input one with a null id, a notification none |
| GatewayForwarding.ForwardedExactly | src/toolconnect/gateway.py:512-578 | with nobody else at the store: a call is forwarded, and the link's reply reported to the client, exactly when the request is well-formed and allowed, its records can be written and the grant is presented in time for a tool still invocable; otherwise nothing is sent and the client is refused |
| GatewayForwarding.ForwardedOnlyOnPermit | src/toolconnect/policy.py:112-143 | over the Cedar engine, a call is forwarded only if the evaluation for this caller and an asserted tool was a permit; an engine that raises forwards nothing |
| GatewayForwarding.RelayedUnchangedIff | src/toolconnect/gateway.py:241-251 | a result reaches the client as the downstream put it exactly when it is an object and no error key came with it |
| GatewayForwarding.CodesTell | src/toolconnect/gateway.py:530-578 | what the client sees of a governed call: each of -32001 to -32004 exactly when the call ended at the gateway's own reason for it (denied, not redeemed, downstream failed; -32004 has none here), or was sent and the downstream answered under that very code |
| GatewayForwarding.CodesAreTheGatewaysOwnIff | src/toolconnect/gateway.py:69-75 | the four codes say where a governed call ended if and only if the call was not answered by a downstream error under one of them |
| GatewayForwarding.ADownstreamErrorLooksLikeADenial | src/toolconnect/gateway.py:564-569 | a call that is allowed, redeemed and sent, whose client is told -32001 |
| GatewayForwarding.NotPermittedExactly | src/toolconnect/gateway.py:429-450 | over all requests: -32004 exactly for a method outside the enumerated surface, which touches nothing, or when the downstream itself answered under that code |
| GatewayForwarding.APingLooksUnpermitted | src/toolconnect/gateway.py:442-448 | a permitted ping whose client is told -32004 |
| GatewayOutcomes.SentCallsAreSettled | src/toolconnect/gateway.py:557-593 | every call that is sent, whoever shares the store: one outcome record pointing back at its decision unless that append fails, then the grant closed with its record unless that one fails, nothing else added, and the client gets the reply either way |
| GatewayObject.Gateway.HandleList | src/toolconnect/gateway.py:452-510 | the loop sends the frames and gives the answer of the listing over what it received, in at most a hundred exchanges |
| GatewayObject.Gateway.HandleCall | src/toolconnect/gateway.py:512-578 | refusals, store, frames and reply are those of the session machine, whatever others do to the store between the steps |
| GatewayObject.Gateway.HandleLine | src/toolconnect/gateway.py:380-417 | a line does what the session machine says |
| GatewayObject.Gateway.RunSession | src/toolconnect/gateway.py:325-363 | a run over any client text, each line handled before the next is read, is a session of the machine over its lines, and safe |
| Flow.Analyze | src/toolconnect/flow.py:77-124 | the loops produce the findings, pairs and unlabelled names of the specification |
| Flow.PathsCounted | src/toolconnect/flow.py:43-46 | the pairwise paths number the sum of the findings' path counts |
| Flow.ReportedExactly | src/toolconnect/flow.py:97-119 | a class is reported exactly when some tool reads it, some tool is an external sink and the pair is not accepted, once, with all readers and sinks |
| Flow.ReportedByName | src/toolconnect/flow.py:66-119 | only secrets, credentials and personal data are reported, each exactly when some tool is asserted to read and not strip it, some tool to write to the outside, and the pair is not accepted; the finding names just these tools, sorted |
| Flow.FindingsInOrder | src/toolconnect/flow.py:86-119 | the classes come in the order secret, credential, pii, at most one finding each |
| Flow.ProductAt | src/toolconnect/flow.py:108-118 | the pairwise paths are every reader with every sink, readers outermost |
| Flow.AddingAToolGrows | src/toolconnect/flow.py:77-124 | adding any tool keeps every finding's class and only grows its readers and sinks |
| Flow.AcceptingRemovesExactly | src/toolconnect/flow.py:97-119 | accepting pairs removes exactly their findings and leaves the others as they were |

## Left out

- Strings with lone surrogates, negative zero, integers beyond Python's digit limit and recursion limits: JSON parsing and printing are total here.
- Floats other than as tokens: a float is the text of its `repr`, which always contains `.` or `e`.
- HTTP routing, bearer authentication, sockets and the rest of the server: plumbing around the service.
- The event bus: a best-effort projection sent after the store has committed.
- SQL text, migrations, WAL, backup and file access: tables are maps and sequences, a transaction is all or nothing.
- Cedar evaluation, Ed25519, SHA-256, PEM and timestamp parsing: function parameters, with nothing assumed of them; key loading fails with ValueError only.
- Subprocess handling and `select`: a read pass finds the deadline passed, nothing ready, or some bytes.
- Client SDK, bus publisher, command line and source adapters: thinner versions of what is here, or plain validation.
- Discovery over stdio (`ingest`): its effect on catalog and tables is that of `ingest_payload`; the fault records and the drift record are not modelled.
- Parsing of a principal, a descriptor and a tool claim from raw JSON: a malformed one is an absent option; hints are absent, true or false.
- Input schemas are carried as their canonical text, and whether one is valid is an argument.
- Bodies of the catalog notes (`source`, `ingest`, `assertion`, `drift`) are reduced to a source and names; the detail of an outcome is one text.
- Message texts of gateway refusals: the kind, code and data are modelled, not the wording.
- Invalid UTF-8 in downstream frames: a frame is JSON, an object, a message, or none of these.
- Framing.ErrorKeptExactly: an error code that is neither an integer, a bool nor falsy, and a message that is neither text nor falsy, are not modelled; Python's `int` and `str` would convert them or raise.
- The status text of a grant and the listing of grants (`get_grant`, `list_grants`): they read the row.
- Row iteration in hydration and in building the invocable set is a comprehension: its order is not modelled, and nothing depends on it.
- The location text in a rejected-arguments error, and meta rows other than the audit mark.
- Iterating a payload's dictionary in ScopeFailures assumes string keys, as JSON has.
- ServiceObject.ToolConnectService.Authorize: its lock is not taken in the object, which runs one call at a time; ConcurrentAuthorize models the threads on values.
- GatewayObject.Gateway.RunSession: the catalog in memory changes only through this process, which handles one line at a time; GatewaySession lets it change between authorize and redeem.
- ServiceObject.ToolConnectService.RegisterSource: the body of the note it records is reduced, as above.
- ServiceObject.ToolConnectService.IngestPayload: its claims arrive parsed, and the body of its note is reduced.
- ServiceObject.ToolConnectService.AssertTool: whether the declared schema is valid is an argument.
- ServiceObject.ToolConnectService.RecordOutcome: the detail of an outcome is one text, not a JSON object.
- PyEquality.EqualityIsExactIff: floats are finite, as in every accepted argument; a float's value is a parameter, injective on the texts that are some float's repr, the two zeros aside.
- RateLimiter.Limiter.Check: instants are reals given in nondecreasing order, because the program reads its monotonic clock before taking the lock.
