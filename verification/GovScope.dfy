/** Binding a verified grant to the call it is presented for (govgrants.py `scope_failures`). */
module GovScope {
  import opened Wrappers
  import opened CanonicalJson
  import opened Documents
  import opened PyEquality
  import opened GovGrants

  datatype Request = Request(principalId: string, providerId: string, sourceId: string, name: string, args: PyVal)

  function Constraints(p: PyVal): seq<PyField> {
    var v := Field(p, "argument_constraints");
    if v.Some? && v.value.Dict? then v.value.fields else []
  }

  /** The constraint on the tool is there and names this tool; one on the source, if any,
      names this source. */
  predicate RightTool(p: PyVal, r: Request) {
    var tool, source := ValueIn(Constraints(p), StrKey("tool")), ValueIn(Constraints(p), StrKey("source"));
    tool == Some(Str(r.name)) && (source.Some? ==> source == Some(Str(r.sourceId)))
  }

  predicate Fulfilled(tr: Trust, c: PyField, args: PyVal) {
    c.key in {StrKey("tool"), StrKey("source")}
    || (args.Dict? && ValueIn(args.fields, c.key).Some? && PyEq(tr.floats, ValueIn(args.fields, c.key).value, c.value))
  }

  predicate RightArguments(tr: Trust, p: PyVal, r: Request) {
    forall i :: 0 <= i < |Constraints(p)| ==> Fulfilled(tr, Constraints(p)[i], r.args)
  }

  predicate Permits(p: PyVal, operation: string) { Str(operation) in ItemsAt(p, "permitted_operations") }

  function ScopeCodes(tr: Trust, p: PyVal, r: Request): seq<Code> {
    (if TextAt(p, "provider_id") != r.providerId then [ProviderMismatch] else [])
    + (if !Permits(p, INVOKE) then [OperationNotPermitted] else [])
    + (if TextAt(p, "requesting_principal_id") != r.principalId then [PrincipalMismatch] else [])
    + (if !RightTool(p, r) then [ScopeMismatch]
       else if !RightArguments(tr, p, r) then [ArgsMismatch]
       else [])
  }

  /** `scope_failures`: the argument scan stops at the first constraint not met, and is not
      made at all when the tool or source is wrong. */
  method ScopeFailures(tr: Trust, p: PyVal, r: Request) returns (codes: seq<Code>)
    ensures codes == ScopeCodes(tr, p, r)
  {
    hide Permits, TextAt, ValueIn, Field, RightTool, Fulfilled, RightArguments, ItemsAt;
    codes := [];
    if TextAt(p, "provider_id") != r.providerId { codes := codes + [ProviderMismatch]; }
    if !Permits(p, INVOKE) { codes := codes + [OperationNotPermitted]; }
    if TextAt(p, "requesting_principal_id") != r.principalId { codes := codes + [PrincipalMismatch]; }
    var last := ToolFailures(tr, p, r);
    codes := codes + last;
  }

  method ToolFailures(tr: Trust, p: PyVal, r: Request) returns (codes: seq<Code>)
    ensures codes == if !RightTool(p, r) then [ScopeMismatch]
                     else if !RightArguments(tr, p, r) then [ArgsMismatch]
                     else []
  {
    hide ValueIn, Field, Fulfilled;
    var cs := Constraints(p);
    var tool, source := ValueIn(cs, StrKey("tool")), ValueIn(cs, StrKey("source"));
    if tool != Some(Str(r.name)) || (source.Some? && source != Some(Str(r.sourceId))) {
      return [ScopeMismatch];
    }
    for i := 0 to |cs|
      invariant forall j :: 0 <= j < i ==> Fulfilled(tr, cs[j], r.args)
    {
      if !Fulfilled(tr, cs[i], r.args) { return [ArgsMismatch]; }
    }
    return [];
  }

  /** No failure means every binding holds; the grant is for this provider, operation,
      caller, tool, source and these arguments. */
  lemma InScope(tr: Trust, p: PyVal, r: Request)
    ensures ScopeCodes(tr, p, r) == [] <==>
              && TextAt(p, "provider_id") == r.providerId
              && Permits(p, INVOKE)
              && TextAt(p, "requesting_principal_id") == r.principalId
              && RightTool(p, r)
              && RightArguments(tr, p, r)
  {
    hide Permits, TextAt, RightTool, RightArguments;
  }

  // ----- the bindings by name -------------------------------------------------------

  /** The value an issuer wrote under a constraint key, if any. */
  function ConstraintOn(p: PyVal, key: string): Option<PyVal> {
    var cs := Field(p, "argument_constraints");
    if cs.None? then None else Field(cs.value, key)
  }

  /** Every constraint besides `tool` and `source` is met by an argument of that name. */
  ghost predicate ArgumentsMet(tr: Trust, p: PyVal, args: PyVal) {
    var v := Field(p, "argument_constraints");
    v.Some? && v.value.Dict? ==> forall i :: 0 <= i < |v.value.fields| ==>
      var c := v.value.fields[i];
      c.key == StrKey("tool") || c.key == StrKey("source")
      || (args.Dict? && ValueIn(args.fields, c.key).Some?
          && PyEq(tr.floats, ValueIn(args.fields, c.key).value, c.value))
  }

  /** All bindings hold: provider, operation, caller, tool, source and arguments. */
  ghost predicate Bound(tr: Trust, p: PyVal, r: Request) {
    && TextAt(p, "provider_id") == r.providerId
    && Str("tool.invoke") in ItemsAt(p, "permitted_operations")
    && TextAt(p, "requesting_principal_id") == r.principalId
    && ConstraintOn(p, "tool") == Some(Str(r.name))
    && (ConstraintOn(p, "source") == None || ConstraintOn(p, "source") == Some(Str(r.sourceId)))
    && ArgumentsMet(tr, p, r.args)
  }

  lemma ToolByName(p: PyVal, r: Request)
    ensures RightTool(p, r) <==>
              && ConstraintOn(p, "tool") == Some(Str(r.name))
              && (ConstraintOn(p, "source") == None || ConstraintOn(p, "source") == Some(Str(r.sourceId)))
  {
    hide ValueIn;
    NothingIn(StrKey("tool"));
    NothingIn(StrKey("source"));
  }

  lemma NothingIn(key: PyKey)
    ensures ValueIn([], key) == None
  {
  }

  lemma ArgumentsByName(tr: Trust, p: PyVal, r: Request)
    ensures RightArguments(tr, p, r) <==> ArgumentsMet(tr, p, r.args)
  {
    hide PyEq, ValueIn;
    var v := Field(p, "argument_constraints");
    if v.Some? && v.value.Dict? && ArgumentsMet(tr, p, r.args) {
      forall i | 0 <= i < |Constraints(p)| ensures Fulfilled(tr, Constraints(p)[i], r.args) {
        assert v.value.fields[i] == Constraints(p)[i];
      }
    }
    if v.Some? && v.value.Dict? && RightArguments(tr, p, r) {
      forall i | 0 <= i < |v.value.fields| ensures Fulfilled(tr, v.value.fields[i], r.args) {
        assert v.value.fields[i] == Constraints(p)[i];
      }
    }
  }

  /** In scope exactly when every binding holds. */
  lemma InScopeByName(tr: Trust, p: PyVal, r: Request)
    ensures ScopeCodes(tr, p, r) == [] <==> Bound(tr, p, r)
  {
    hide RightTool, RightArguments, TextAt, ItemsAt, ConstraintOn, ArgumentsMet;
    ToolByName(p, r);
    ArgumentsByName(tr, p, r);
  }

  /** Which code each binding that fails yields. */
  lemma ScopeCodesByName(tr: Trust, p: PyVal, r: Request)
    ensures var codes := ScopeCodes(tr, p, r);
            var placed := ConstraintOn(p, "tool") == Some(Str(r.name))
              && (ConstraintOn(p, "source") == None || ConstraintOn(p, "source") == Some(Str(r.sourceId)));
            && (ProviderMismatch in codes <==> TextAt(p, "provider_id") != r.providerId)
            && (OperationNotPermitted in codes <==> Str("tool.invoke") !in ItemsAt(p, "permitted_operations"))
            && (PrincipalMismatch in codes <==> TextAt(p, "requesting_principal_id") != r.principalId)
            && (ScopeMismatch in codes <==> !placed)
            && (ArgsMismatch in codes <==> placed && !ArgumentsMet(tr, p, r.args))
  {
    hide RightTool, RightArguments, TextAt, ItemsAt, ConstraintOn, ArgumentsMet;
    ToolByName(p, r);
    ArgumentsByName(tr, p, r);
  }

  /** The text of the first binding that fails; empty when none does. */
  ghost function ScopeReason(tr: Trust, p: PyVal, r: Request): string {
    if TextAt(p, "provider_id") != r.providerId then "provider_mismatch"
    else if Str("tool.invoke") !in ItemsAt(p, "permitted_operations") then "operation_not_permitted"
    else if TextAt(p, "requesting_principal_id") != r.principalId then "principal_mismatch"
    else if ConstraintOn(p, "tool") != Some(Str(r.name))
            || (ConstraintOn(p, "source") != None && ConstraintOn(p, "source") != Some(Str(r.sourceId)))
    then "scope_mismatch"
    else if !ArgumentsMet(tr, p, r.args) then "args_mismatch"
    else ""
  }

  /** A call out of scope is refused for the first of its bindings that fails. */
  lemma FirstScopeCode(tr: Trust, p: PyVal, r: Request)
    ensures ScopeCodes(tr, p, r) == [] <==> ScopeReason(tr, p, r) == ""
    ensures ScopeCodes(tr, p, r) != [] ==> CodeText(ScopeCodes(tr, p, r)[0]) == ScopeReason(tr, p, r)
  {
    hide RightTool, RightArguments, TextAt, ItemsAt, ConstraintOn, ArgumentsMet;
    ToolByName(p, r);
    ArgumentsByName(tr, p, r);
  }
}
