/** The JSON columns of the catalog tables (store.py): what is written reads back. */
module Serializers {
  import opened Wrappers
  import opened Text
  import opened JsonRecord
  import opened Descriptor

  function FlagOf(c: Cell, default: bool): bool { if c.Flag? then c.b else default }
  function HintOf(c: Cell): Option<bool> { if c.Flag? then Some(c.b) else None }
  function HintCell(h: Option<bool>): Cell { if h.None? then Null else Flag(h.value) }
  function WordIn(c: Cell): string { if c.Word? then c.s else "" }
  function WordsIn(c: Cell): seq<string> { if c.Words? then c.ss else [] }

  // ----- claimed metadata -----------------------------------------------------------

  function ClaimedColumns(c: Claimed): seq<Column> {
    [Column("description", Word(c.description)),
     Column("read_only_hint", HintCell(c.readOnly)),
     Column("destructive_hint", HintCell(c.destructive)),
     Column("idempotent_hint", HintCell(c.idempotent)),
     Column("open_world_hint", HintCell(c.openWorld))]
  }

  lemma ClaimedNamesDistinct(c: Claimed)
    ensures DistinctColumns(ClaimedColumns(c))
  {
  }

  function ClaimedToJson(c: Claimed): string {
    ClaimedNamesDistinct(c);
    RecordText(ClaimedColumns(c))
  }

  function ClaimedFromJson(text: string): Claimed {
    Claimed(WordIn(CellAt(text, "description")), HintOf(CellAt(text, "read_only_hint")),
            HintOf(CellAt(text, "destructive_hint")), HintOf(CellAt(text, "idempotent_hint")),
            HintOf(CellAt(text, "open_world_hint")))
  }

  lemma ClaimedCell(c: Claimed, k: nat)
    requires k < |ClaimedColumns(c)|
    ensures CellAt(ClaimedToJson(c), ClaimedColumns(c)[k].name) == ClaimedColumns(c)[k].cell
  {
    ClaimedNamesDistinct(c);
    CellReadsBack(ClaimedColumns(c), ClaimedColumns(c)[k]);
  }

  lemma ClaimedFromCells(text: string, c: Claimed)
    requires forall k :: 0 <= k < |ClaimedColumns(c)| ==>
        CellAt(text, ClaimedColumns(c)[k].name) == ClaimedColumns(c)[k].cell
    ensures ClaimedFromJson(text) == c
  {
    var cs := ClaimedColumns(c);
    assert CellAt(text, cs[0].name) == cs[0].cell && CellAt(text, cs[1].name) == cs[1].cell;
    assert CellAt(text, cs[2].name) == cs[2].cell && CellAt(text, cs[3].name) == cs[3].cell;
    assert CellAt(text, cs[4].name) == cs[4].cell;
  }

  lemma ClaimedRoundTrip(c: Claimed)
    ensures ClaimedFromJson(ClaimedToJson(c)) == c
  {
    forall k | 0 <= k < |ClaimedColumns(c)|
      ensures CellAt(ClaimedToJson(c), ClaimedColumns(c)[k].name) == ClaimedColumns(c)[k].cell
    {
      ClaimedCell(c, k);
    }
    ClaimedFromCells(ClaimedToJson(c), c);
  }

  // ----- enumerations ---------------------------------------------------------------

  function EffectName(e: Effect): string {
    match e
    case ReadEffect => "read"
    case WriteEffect => "write"
    case DestructiveEffect => "destructive"
    case ExternalEffect => "external"
  }

  function EffectNamed(s: string): Option<Effect> {
    if s == "read" then Some(ReadEffect)
    else if s == "write" then Some(WriteEffect)
    else if s == "destructive" then Some(DestructiveEffect)
    else if s == "external" then Some(ExternalEffect)
    else None
  }

  function TierName(t: Tier): string {
    match t
    case VerifiedTier => "verified"
    case KnownTier => "known"
    case UntrustedTier => "untrusted"
    case QuarantinedTier => "quarantined"
  }

  function TierNamed(s: string): Option<Tier> {
    if s == "verified" then Some(VerifiedTier)
    else if s == "known" then Some(KnownTier)
    else if s == "untrusted" then Some(UntrustedTier)
    else if s == "quarantined" then Some(QuarantinedTier)
    else None
  }

  function ClassName(c: DataClass): string {
    match c
    case Public => "public"
    case Internal => "internal"
    case Pii => "pii"
    case Secret => "secret"
    case Credential => "credential"
    case External => "external"
  }

  function ClassNamed(s: string): Option<DataClass> {
    if s == "public" then Some(Public)
    else if s == "internal" then Some(Internal)
    else if s == "pii" then Some(Pii)
    else if s == "secret" then Some(Secret)
    else if s == "credential" then Some(Credential)
    else if s == "external" then Some(External)
    else None
  }

  function ClassNames(s: set<DataClass>): seq<string> { SortNames(set c | c in s :: ClassName(c)) }

  function ClassSet(names: seq<string>): Option<set<DataClass>> {
    if names == [] then Some({})
    else
      var c, rest := ClassNamed(names[0]), ClassSet(names[1..]);
      if c.None? || rest.None? then None else Some({c.value} + rest.value)
  }

  lemma ClassNamedInverts(c: DataClass)
    ensures ClassNamed(ClassName(c)) == Some(c)
  {
  }

  lemma {:induction false} ClassSetOfNames(names: seq<string>, s: set<DataClass>)
    requires forall n <- names :: exists c :: c in s && ClassName(c) == n
    ensures ClassSet(names).Some? && ClassSet(names).value == set c | c in s && ClassName(c) in names
  {
    if names != [] {
      assert names[0] in names;
      var c :| c in s && ClassName(c) == names[0];
      assert forall n <- names[1..] :: n in names;
      ClassNamedInverts(c);
      ClassSetOfNames(names[1..], s);
      forall d | d in s ensures ClassName(d) in names <==> d == c || ClassName(d) in names[1..] {
        ClassNamedInverts(d);
      }
    }
  }

  lemma ClassRoundTrip(s: set<DataClass>)
    ensures ClassSet(ClassNames(s)) == Some(s)
  {
    var names := ClassNames(s);
    forall n <- names ensures exists c :: c in s && ClassName(c) == n {
      assert n in set c | c in s :: ClassName(c);
    }
    ClassSetOfNames(names, s);
    assert (set c | c in s && ClassName(c) in names) == s;
  }

  // ----- asserted descriptors -------------------------------------------------------

  function AssertedColumns(a: Asserted): seq<Column> {
    [Column("effect", Word(EffectName(a.effect))),
     Column("reads", Words(ClassNames(a.readsData))),
     Column("writes", Words(ClassNames(a.writesData))),
     Column("scopes", Words(SortNames(a.scopes))),
     Column("reversible", Flag(a.reversible)),
     Column("idempotent", Flag(a.idempotent)),
     Column("requires_approval", Flag(a.requiresApproval)),
     Column("declassifies", Flag(a.declassifies)),
     Column("asserted_by", Word(a.assertedBy))]
  }

  lemma AssertedNamesDistinct(a: Asserted)
    ensures DistinctColumns(AssertedColumns(a))
  {
  }

  function AssertedToJson(a: Asserted): string {
    AssertedNamesDistinct(a);
    RecordText(AssertedColumns(a))
  }

  /** None where the source raises: an effect or data class it does not know. */
  function AssertedOf(effect: Cell, rs: Cell, ws: Cell, scopes: Cell, reversible: Cell, idempotent: Cell,
                      approval: Cell, declassifies: Cell, voucher: Cell): Option<Asserted>
  {
    var e, r, w := EffectNamed(WordIn(effect)), ClassSet(WordsIn(rs)), ClassSet(WordsIn(ws));
    if e.None? || r.None? || w.None? then None
    else
      Some(Asserted(e.value, r.value, w.value, (set s | s in WordsIn(scopes)), FlagOf(reversible, true),
                    FlagOf(idempotent, false), FlagOf(approval, false), FlagOf(declassifies, false), WordIn(voucher)))
  }

  function AssertedFromJson(text: string): Option<Asserted> {
    AssertedOf(CellAt(text, "effect"), CellAt(text, "reads"), CellAt(text, "writes"), CellAt(text, "scopes"),
               CellAt(text, "reversible"), CellAt(text, "idempotent"), CellAt(text, "requires_approval"),
               CellAt(text, "declassifies"), CellAt(text, "asserted_by"))
  }

  lemma AssertedOfParts(a: Asserted, rs: seq<string>, ws: seq<string>, scopes: seq<string>)
    requires ClassSet(rs) == Some(a.readsData) && ClassSet(ws) == Some(a.writesData)
    requires forall s :: s in scopes <==> s in a.scopes
    ensures AssertedOf(Word(EffectName(a.effect)), Words(rs), Words(ws), Words(scopes), Flag(a.reversible),
                       Flag(a.idempotent), Flag(a.requiresApproval), Flag(a.declassifies), Word(a.assertedBy))
                           == Some(a)
  {
    hide ClassSet;
    assert (set s | s in scopes) == a.scopes;
  }

  lemma AssertedCell(a: Asserted, k: nat)
    requires k < |AssertedColumns(a)|
    ensures CellAt(AssertedToJson(a), AssertedColumns(a)[k].name) == AssertedColumns(a)[k].cell
  {
    AssertedNamesDistinct(a);
    CellReadsBack(AssertedColumns(a), AssertedColumns(a)[k]);
  }

  lemma AssertedFromCells(text: string, a: Asserted)
    requires forall k :: 0 <= k < |AssertedColumns(a)| ==>
        CellAt(text, AssertedColumns(a)[k].name) == AssertedColumns(a)[k].cell
    ensures AssertedFromJson(text) == Some(a)
  {
    var cs := AssertedColumns(a);
    assert CellAt(text, cs[0].name) == cs[0].cell && CellAt(text, cs[1].name) == cs[1].cell;
    assert CellAt(text, cs[2].name) == cs[2].cell && CellAt(text, cs[3].name) == cs[3].cell;
    assert CellAt(text, cs[4].name) == cs[4].cell && CellAt(text, cs[5].name) == cs[5].cell;
    assert CellAt(text, cs[6].name) == cs[6].cell && CellAt(text, cs[7].name) == cs[7].cell;
    assert CellAt(text, cs[8].name) == cs[8].cell;
    ClassRoundTrip(a.readsData);
    ClassRoundTrip(a.writesData);
    AssertedOfParts(a, ClassNames(a.readsData), ClassNames(a.writesData), SortNames(a.scopes));
  }

  lemma AssertedRoundTrip(a: Asserted)
    ensures AssertedFromJson(AssertedToJson(a)) == Some(a)
  {
    forall k | 0 <= k < |AssertedColumns(a)|
      ensures CellAt(AssertedToJson(a), AssertedColumns(a)[k].name) == AssertedColumns(a)[k].cell
    {
      AssertedCell(a, k);
    }
    AssertedFromCells(AssertedToJson(a), a);
  }

  // ----- the stored texts -----------------------------------------------------------

  /** A stored descriptor under its keys; effects and classes by their names. */
  lemma AssertedTexts(a: Asserted)
    ensures var text := AssertedToJson(a);
      && CellAt(text, "effect") == Word(match a.effect
                                        case ReadEffect => "read"
                                        case WriteEffect => "write"
                                        case DestructiveEffect => "destructive"
                                        case ExternalEffect => "external")
      && CellAt(text, "reads") == Words(ClassNames(a.readsData))
      && CellAt(text, "writes") == Words(ClassNames(a.writesData))
      && CellAt(text, "scopes") == Words(SortNames(a.scopes))
      && CellAt(text, "reversible") == Flag(a.reversible) && CellAt(text, "idempotent") == Flag(a.idempotent)
      && CellAt(text, "requires_approval") == Flag(a.requiresApproval)
      && CellAt(text, "declassifies") == Flag(a.declassifies) && CellAt(text, "asserted_by") == Word(a.assertedBy)
  {
    hide AssertedToJson, CellAt, ClassNames;
    forall k | 0 <= k < |AssertedColumns(a)|
        ensures CellAt(AssertedToJson(a), AssertedColumns(a)[k].name) == AssertedColumns(a)[k].cell {
      AssertedCell(a, k);
    }
    var cs := AssertedColumns(a);
    assert cs[0].name == "effect" && cs[1].name == "reads" && cs[2].name == "writes" && cs[3].name == "scopes";
    assert cs[4].name == "reversible" && cs[5].name == "idempotent" && cs[6].name == "requires_approval";
    assert cs[7].name == "declassifies" && cs[8].name == "asserted_by";
  }

  lemma ClassTexts(s: set<DataClass>)
    ensures "public" in ClassNames(s) <==> Public in s
    ensures "internal" in ClassNames(s) <==> Internal in s
    ensures "pii" in ClassNames(s) <==> Pii in s
    ensures "secret" in ClassNames(s) <==> Secret in s
    ensures "credential" in ClassNames(s) <==> Credential in s
    ensures "external" in ClassNames(s) <==> External in s
  {
    ClassListed(s, Public);
    ClassListed(s, Internal);
    ClassListed(s, Pii);
    ClassListed(s, Secret);
    ClassListed(s, Credential);
    ClassListed(s, External);
  }

  lemma ClassListed(s: set<DataClass>, c: DataClass)
    ensures ClassName(c) in ClassNames(s) <==> c in s
  {
    var names := set d | d in s :: ClassName(d);
    if ClassName(c) in names {
      var d :| d in s && ClassName(d) == ClassName(c);
      ClassNamedInverts(c);
      ClassNamedInverts(d);
    }
  }

  lemma TierTexts()
    ensures TierName(VerifiedTier) == "verified" && TierName(KnownTier) == "known"
    ensures TierName(UntrustedTier) == "untrusted" && TierName(QuarantinedTier) == "quarantined"
  {
  }

  /** What stands for keys a stored descriptor lacks: nothing read or written, reversible, and
      otherwise no. */
  lemma MissingKeys(effect: string)
    requires EffectNamed(effect).Some?
    ensures AssertedOf(Word(effect), Null, Null, Null, Null, Null, Null, Null, Null)
         == Some(Asserted(EffectNamed(effect).value, {}, {}, {}, true, false, false, false, ""))
  {
    assert (set s | s in WordsIn(Null)) == {};
  }
}
