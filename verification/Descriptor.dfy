/** Tool descriptors (descriptor.py): what a server claims, what an operator asserts. */
module Descriptor {
  import opened Wrappers

  datatype DataClass = Public | Internal | Pii | Secret | Credential | External
  datatype Effect = ReadEffect | WriteEffect | DestructiveEffect | ExternalEffect
  datatype Tier = VerifiedTier | KnownTier | UntrustedTier | QuarantinedTier {
    predicate Invocable() { VerifiedTier? || KnownTier? }
  }

  datatype Source = Source(sourceId: string, tier: Tier, transport: string)

  datatype Claimed = Claimed(description: string, readOnly: Option<bool>, destructive: Option<bool>,
                             idempotent: Option<bool>, openWorld: Option<bool>)
  {
    /** The effect the hints imply under MCP's own defaults; None when nothing was said. */
    function ImpliedEffect(): Option<Effect> {
      if readOnly.None? && destructive.None? && openWorld.None? then None
      else if readOnly == Some(true) then Some(ReadEffect)
      else if destructive != Some(false) then Some(DestructiveEffect)
      else if openWorld != Some(false) then Some(ExternalEffect)
      else Some(WriteEffect)
    }
  }

  datatype Asserted = Asserted(effect: Effect, readsData: set<DataClass>, writesData: set<DataClass>,
                               scopes: set<string>,
                               reversible: bool, idempotent: bool, requiresApproval: bool, declassifies: bool,
                               assertedBy: string)
  {
    predicate ExternalSink() { External in writesData }
  }

  datatype Conflict = EffectDiffers | ReadOnlyButNotRead | IdempotentButNot | ClosedWorldButExternal

  /** A registry entry. The input schema is carried as its canonical JSON text. */
  datatype ToolVersion = ToolVersion(name: string, version: string, sourceId: string, claimed: Claimed,
                                     asserted: Option<Asserted>, schema: string)
  {
    /** Where the server's self-description contradicts the operator, in reporting order. */
    function Conflicts(): seq<Conflict> {
      if asserted.None? then []
      else
        var a := asserted.value;
        var implied := claimed.ImpliedEffect();
        (if implied.Some? && implied.value != a.effect then [EffectDiffers] else [])
        + (if claimed.readOnly == Some(true) && !a.effect.ReadEffect? then [ReadOnlyButNotRead] else [])
        + (if claimed.idempotent == Some(true) && !a.idempotent then [IdempotentButNot] else [])
        + (if claimed.openWorld == Some(false) && a.ExternalSink() then [ClosedWorldButExternal] else [])
    }
  }

  type ToolId = (string, string)
}
