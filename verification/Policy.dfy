/** The decision point (policy.py): principals and their delegation chains, verdicts, and
    the admission checks that come before the policy engine is asked. */
module Policy {
  import opened Wrappers
  import opened CanonicalJson
  import opened AuditBody
  import opened Descriptor
  import opened Serializers
  import opened ToolCatalog

  datatype Principal = Principal(id: string, tier: string, kind: string, onBehalfOf: Option<Principal>)

  /** How untrusted a privacy tier is; an unknown tier is worse than any known one. */
  function Rank(tier: string): nat {
    if tier == "local" then 0
    else if tier == "trusted-cloud" then 1
    else if tier == "rented" then 2
    else 99
  }

  /** The tiers along a delegation chain, from the caller to the last delegator. */
  function Chain(p: Principal): (ts: seq<string>)
    ensures ts != [] && ts[0] == p.tier
  {
    [p.tier] + Delegators(p.onBehalfOf)
  }

  function Delegators(node: Option<Principal>): seq<string> {
    if node.None? then [] else Chain(node.value)
  }

  /** `worst` is the first of `tiers` that none of them outranks. */
  ghost predicate FirstWorst(tiers: seq<string>, worst: string) {
    exists k :: 0 <= k < |tiers| && worst == tiers[k] && WorstAt(tiers, k)
  }

  ghost predicate WorstAt(tiers: seq<string>, k: nat)
    requires k < |tiers|
  {
    && (forall j :: 0 <= j < k ==> Rank(tiers[j]) < Rank(tiers[k]))
    && (forall j :: k < j < |tiers| ==> Rank(tiers[j]) <= Rank(tiers[k]))
  }

  lemma FirstWorstUnique(tiers: seq<string>, a: string, b: string)
    requires FirstWorst(tiers, a) && FirstWorst(tiers, b)
    ensures a == b
  {
    var i :| 0 <= i < |tiers| && a == tiers[i] && WorstAt(tiers, i);
    var j :| 0 <= j < |tiers| && b == tiers[j] && WorstAt(tiers, j);
  }

  lemma OneMoreTier(tiers: seq<string>, worst: string, next: string)
    requires FirstWorst(tiers, worst)
    ensures FirstWorst(tiers + [next], if Rank(next) > Rank(worst) then next else worst)
  {
    var k :| 0 <= k < |tiers| && worst == tiers[k] && WorstAt(tiers, k);
    var all := tiers + [next];
    if Rank(next) > Rank(worst) {
      assert all[|tiers|] == next && WorstAt(all, |tiers|);
    } else {
      assert all[k] == worst && WorstAt(all, k);
    }
  }

  lemma OwnTier(tier: string)
    ensures FirstWorst([tier], tier)
  {
    assert WorstAt([tier], 0) && [tier][0] == tier;
  }

  /** The chain is the caller's tier and then the chain of whoever it acts for. */
  lemma ChainIs(p: Principal)
    ensures p.onBehalfOf.None? ==> Chain(p) == [p.tier]
    ensures p.onBehalfOf.Some? ==> Chain(p) == [p.tier] + Chain(p.onBehalfOf.value)
  {
  }

  lemma NextDelegator(seen: seq<string>, p: Principal)
    ensures seen + Delegators(Some(p)) == seen + [p.tier] + Delegators(p.onBehalfOf)
  {
  }

  /** The worst tier of a chain, by name: local only if all are; rented as soon as one is,
      unless a name that is none of the three comes up; then the first such name. */
  ghost predicate WorstByName(tiers: seq<string>, worst: string) {
    && (worst == "local" <==> forall t <- tiers :: t == "local")
    && (worst == "trusted-cloud" <==>
          (forall t <- tiers :: t == "local" || t == "trusted-cloud") && "trusted-cloud" in tiers)
    && (worst == "rented" <==>
          (forall t <- tiers :: t == "local" || t == "trusted-cloud" || t == "rented") && "rented" in tiers)
    && (worst != "local" && worst != "trusted-cloud" && worst != "rented" <==> FirstUnknown(tiers, worst))
  }

  /** The first tier of the chain that is none of the three. */
  ghost predicate FirstUnknown(tiers: seq<string>, t: string) {
    && t != "local" && t != "trusted-cloud" && t != "rented"
    && exists k :: 0 <= k < |tiers| && tiers[k] == t
         && forall j :: 0 <= j < k ==> tiers[j] == "local" || tiers[j] == "trusted-cloud" || tiers[j] == "rented"
  }

  lemma FirstWorstByName(tiers: seq<string>, worst: string)
    requires FirstWorst(tiers, worst)
    ensures WorstByName(tiers, worst)
  {
    var k :| 0 <= k < |tiers| && worst == tiers[k] && WorstAt(tiers, k);
    assert worst in tiers;
    forall t <- tiers ensures Rank(t) <= Rank(worst) {
      var j :| 0 <= j < |tiers| && tiers[j] == t;
    }
  }

  /** `effective_tier`: authority is what the whole chain allows, so the worst tier decides. */
  method EffectiveTier(p: Principal) returns (worst: string)
    ensures forall w :: FirstWorst(Chain(p), w) <==> w == worst
    ensures WorstByName(Chain(p), worst)
  {
    hide FirstWorst, WorstAt, Rank, Delegators, WorstByName;
    worst := p.tier;
    var node := p.onBehalfOf;
    ghost var seen := [p.tier];
    OwnTier(p.tier);
    while node.Some?
      invariant FirstWorst(seen, worst)
      invariant Chain(p) == seen + Delegators(node)
      decreases node
    {
      OneMoreTier(seen, worst, node.value.tier);
      NextDelegator(seen, node.value);
      seen := seen + [node.value.tier];
      if Rank(node.value.tier) > Rank(worst) { worst := node.value.tier; }
      node := node.value.onBehalfOf;
    }
    NoDelegators(seen);
    forall w | FirstWorst(Chain(p), w) ensures w == worst { FirstWorstUnique(Chain(p), w, worst); }
    FirstWorstByName(Chain(p), worst);
  }

  lemma NoDelegators(seen: seq<string>)
    ensures seen + Delegators(None) == seen
  {
  }

  // ----- verdicts -------------------------------------------------------------------

  datatype Verdict = Verdict(allowed: bool, reason: string, determining: seq<string>, errors: seq<string>) {
    /** No policy matched at all: neither a forbid nor a failure. */
    predicate DefaultDeny() { !allowed && determining == [] && errors == [] }
  }

  /** What the Cedar library did with a request. */
  datatype Evaluation = Raised(message: string) | Evaluated(permit: bool, named: seq<string>, errors: seq<string>)

  function Joined(words: seq<string>, glue: string): string {
    if words == [] then ""
    else if |words| == 1 then words[0]
    else words[0] + glue + Joined(words[1..], glue)
  }

  /** `glue.join(words)`. */
  lemma JoinedIs(word: string, words: seq<string>, glue: string)
    ensures Joined([], glue) == "" && Joined([word], glue) == word
    ensures words != [] ==> Joined([word] + words, glue) == word + glue + Joined(words, glue)
  {
    assert ([word] + words)[1..] == words;
  }

  /** `CedarPolicyEngine.decide`: the library's answer as a verdict. */
  function Decide(tool: ToolVersion, res: Evaluation): Verdict {
    if tool.asserted.None? then
      Verdict(false, tool.name + " has no operator-asserted descriptor", ["<unasserted>"], [])
    else
      match res
      case Raised(message) => Verdict(false, "policy engine error: " + message, [], [message])
      case Evaluated(permit, named, errors) =>
        if permit then Verdict(true, "permitted by " + Joined(named, ", "), named, errors)
        else if named != [] then Verdict(false, "forbidden by " + Joined(named, ", "), named, errors)
        else if errors != [] then Verdict(false, "policy evaluation errored: " + Joined(errors, "; "), [], errors)
        else Verdict(false, "default deny: no policy matched", [], [])
  }

  /** Fail closed: only an explicit permit of a vouched-for tool allows, and a denial is
      called a default deny exactly when no policy matched and nothing went wrong. */
  lemma OnlyPermitAllows(tool: ToolVersion, res: Evaluation)
    ensures Decide(tool, res).allowed <==> tool.asserted.Some? && res.Evaluated? && res.permit
    ensures Decide(tool, res).DefaultDeny() <==>
              tool.asserted.Some? && res.Evaluated? && !res.permit && res.named == [] && res.errors == []
    ensures res.Raised? && tool.asserted.Some? ==> Decide(tool, res).errors == [res.message]
  {
  }

  /** What a caller is told of the engine's verdict: the policies that permitted or forbade, the
      errors, or that nothing matched. */
  lemma DecideSays(tool: ToolVersion, res: Evaluation)
    ensures var v := Decide(tool, res);
      if tool.asserted == None then
        v == Verdict(false, tool.name + " has no operator-asserted descriptor", ["<unasserted>"], [])
      else if res.Raised? then v == Verdict(false, "policy engine error: " + res.message, [], [res.message])
      else if res.permit then v == Verdict(true, "permitted by " + Joined(res.named, ", "), res.named, res.errors)
      else if res.named != [] then v == Verdict(false, "forbidden by " + Joined(res.named, ", "), res.named, res.errors)
      else if res.errors != [] then
        v == Verdict(false, "policy evaluation errored: " + Joined(res.errors, "; "), [], res.errors)
      else v == Verdict(false, "default deny: no policy matched", [], [])
  {
  }

  /** The Cedar engine, over any evaluation the library may make. */
  function Cedar(evaluate: (Principal, ToolVersion, PyVal) -> Evaluation): (Principal, ToolVersion, PyVal) -> Verdict {
    (p, tool, context) => Decide(tool, evaluate(p, tool, context))
  }

  // ----- the broker -----------------------------------------------------------------

  /** The engine, as any function of principal, tool and context; `quote` is Python's repr. */
  datatype Pdp = Pdp(decide: (Principal, ToolVersion, PyVal) -> Verdict, quote: string -> string)

  function Qualified(sid: string, name: string): string { sid + ":" + name }

  /** The tier text the refusal quotes; a coherent catalog knows the source of every tool. */
  function TierText(c: State, sid: string): string {
    if sid in c.sources then TierName(c.sources[sid].tier) else ""
  }

  /** `Broker.authorize`: identity first, then invocability, and only then the engine. */
  function BrokerVerdict(pdp: Pdp, c: State, p: Principal, sid: string, name: string, context: PyVal): Verdict {
    if (sid, name) !in c.tools then
      Verdict(false, "unknown tool " + pdp.quote(Qualified(sid, name)), ["<unregistered>"], [])
    else if !Invocable(c, sid, name) then
      Verdict(false, Qualified(sid, name) + " not invocable (source tier=" + TierText(c, sid) + ", asserted="
                     + (if c.tools[(sid, name)].asserted.Some? then "True" else "False") + ")",
              ["<not-invocable>"], [])
    else pdp.decide(p, c.tools[(sid, name)], context)
  }

  /** The audit record the broker appends for a verdict, allowed or not. */
  function DecisionBody(did: string, p: Principal, sid: string, name: string, v: Verdict): Body {
    Decision(did, p.id, sid, name, v.allowed, v.reason, v.determining, v.DefaultDeny())
  }

  /** The three answers of the broker, in its order: an unknown tool; one not asserted, or of a
      source neither verified nor known; and the engine's own verdict for every other. */
  lemma BrokerAnswers(pdp: Pdp, c: State, p: Principal, sid: string, name: string, context: PyVal)
    ensures var v := BrokerVerdict(pdp, c, p, sid, name, context);
            if (sid, name) !in c.tools then
              v == Verdict(false, "unknown tool " + pdp.quote(sid + ":" + name), ["<unregistered>"], [])
            else if c.tools[(sid, name)].asserted.None?
                    || !(sid in c.sources && c.sources[sid].tier in {VerifiedTier, KnownTier})
            then
              v == Verdict(false, sid + ":" + name + " not invocable (source tier=" + TierText(c, sid) + ", asserted="
                                  + (if c.tools[(sid, name)].asserted == None then "False" else "True") + ")",
                           ["<not-invocable>"], [])
            else v == pdp.decide(p, c.tools[(sid, name)], context)
  {
  }

  /** What the record of a decision says. */
  lemma DecisionRecordSays(did: string, p: Principal, sid: string, name: string, v: Verdict)
    ensures var b := DecisionBody(did, p, sid, name, v);
            && b.Decision? && b.decisionId == did && b.principal == p.id && b.source == sid && b.tool == name
            && b.allowed == v.allowed && b.reason == v.reason && b.determining == v.determining
            && (b.defaultDeny <==> !v.allowed && v.determining == [] && v.errors == [])
  {
  }

  /** An allow is the engine's allow of the very tool named, which is invocable. */
  lemma BrokerAllows(pdp: Pdp, c: State, p: Principal, sid: string, name: string, context: PyVal)
    ensures BrokerVerdict(pdp, c, p, sid, name, context).allowed <==>
              Invocable(c, sid, name) && pdp.decide(p, c.tools[(sid, name)], context).allowed
    ensures !Invocable(c, sid, name) ==> !BrokerVerdict(pdp, c, p, sid, name, context).DefaultDeny()
  {
  }
}
