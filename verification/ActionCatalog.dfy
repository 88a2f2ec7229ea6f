/** The predefined-action vocabulary: which scopes Table 4 of VDA5050 3.0.0 allows
    an action type in, and which types a robot must declare as a capability. */
module ActionCatalog {
  import opened Vda5050

  /** The catalog's scopes; None for a manufacturer's own action type. */
  function ScopesFor(kind: ActionKind): Option<set<Scope>> {
    match kind
    case Custom(_) => None
    case StartCharging | StopCharging | InitializePosition | EnableMap | EnableZoneSet
       | ClearInstantActions | ClearZoneActions => Some({InstantScope, NodeScope})
    case Pick | Drop => Some({NodeScope, EdgeScope})
    case DetectObject | FinePositioning => Some({NodeScope, EdgeScope, ZoneScope})
    case WaitForTrigger => Some({NodeScope, ZoneScope})
    case _ => Some({InstantScope})
  }

  /** The catalog actions a robot must declare: the payload, sensing and waiting ones. */
  predicate RequiresCapability(kind: ActionKind) {
    kind.Pick? || kind.Drop? || kind.DetectObject? || kind.FinePositioning? || kind.WaitForTrigger?
  }

  /** Whether Table 4 leaves `kind` usable in `scope`. */
  predicate ScopeAllowed(kind: ActionKind, scope: Scope) {
    match ScopesFor(kind)
    case None => true
    case Some(scopes) => scope in scopes
  }

  /** Whether the declared capabilities cover `kind`. */
  predicate CapabilityDeclared(kind: ActionKind, supported: set<ActionKind>) {
    (ScopesFor(kind).Some? && !RequiresCapability(kind)) || kind in supported
  }

  /** What registration in `scope` must respect. */
  predicate Accepted(kind: ActionKind, scope: Scope, supported: set<ActionKind>) {
    ScopeAllowed(kind, scope) && CapabilityDeclared(kind, supported)
  }

  /** The lowest protocol version in which an instant action type exists, when
      there is one to enforce. */
  function MinimumVersion(kind: ActionKind): Option<(nat, nat)> {
    match kind
    case DownloadZoneSet | EnableZoneSet | DeleteZoneSet | UpdateCertificate | Trigger => Some((3, 0))
    case DownloadMap | EnableMap | DeleteMap => Some((2, 1))
    case _ => None
  }

  predicate VersionBelow(v: (nat, nat), w: (nat, nat)) {
    v.0 < w.0 || (v.0 == w.0 && v.1 < w.1)
  }

  /** The catalog read by scope: what each allows. A manufacturer's own types are allowed in all. */
  lemma ScopeByScope(kind: ActionKind)
    ensures kind.Custom? ==> forall scope :: ScopeAllowed(kind, scope)
    ensures !kind.Custom? ==>
              && (ScopeAllowed(kind, EdgeScope) <==> kind in {Pick, Drop, DetectObject, FinePositioning})
              && (ScopeAllowed(kind, ZoneScope) <==> kind in {DetectObject, FinePositioning, WaitForTrigger})
              && (ScopeAllowed(kind, InstantScope) <==>
                    kind !in {Pick, Drop, DetectObject, FinePositioning, WaitForTrigger})
              && (ScopeAllowed(kind, NodeScope) <==>
                    kind in {Pick, Drop, DetectObject, FinePositioning, WaitForTrigger, StartCharging, StopCharging,
                             InitializePosition, EnableMap, EnableZoneSet, ClearInstantActions, ClearZoneActions})
  {
  }

  /** A capability must be declared exactly for what is not usable as an instant action, and for a
      manufacturer's own types. */
  lemma CapabilitiesAreForWork(kind: ActionKind, supported: set<ActionKind>)
    ensures CapabilityDeclared(kind, supported)
       <==> kind in supported || (!kind.Custom? && ScopeAllowed(kind, InstantScope))
  {
  }

  /** Which action types each protocol version lacks: before 2.1 the map actions, before 3.0 the zone sets, the
      trigger and the certificates. */
  lemma VersionsLack(kind: ActionKind, v: (nat, nat))
    ensures (MinimumVersion(kind).Some? && VersionBelow(v, MinimumVersion(kind).value))
       <==> || (v.0 < 3 && kind in {DownloadZoneSet, EnableZoneSet, DeleteZoneSet, UpdateCertificate, Trigger})
            || ((v.0 < 2 || (v.0 == 2 && v.1 < 1)) && kind in {DownloadMap, EnableMap, DeleteMap})
  {
  }
}
