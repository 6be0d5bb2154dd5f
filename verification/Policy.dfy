/** The topology policy: which providers receive replicas, and in which order. */
module Policy {
  import opened Results

  datatype ProviderId = Stub | Unicom | Telecom | Mobile | Onedrive

  function Name(p: ProviderId): string {
    match p
    case Stub => "stub"
    case Unicom => "unicom"
    case Telecom => "telecom"
    case Mobile => "mobile"
    case Onedrive => "onedrive"
  }

  predicate CanBePrimary(p: ProviderId) {
    p != Onedrive
  }

  predicate CanBeSyncTarget(p: ProviderId) {
    p != Stub
  }

  /** The replication mode has one value, so it is not a field here. */
  datatype Topology = Topology(
    primary: ProviderId, syncTargets: seq<ProviderId>, fallbackReadOrder: seq<ProviderId>, onedriveEnabled: bool)

  datatype PolicyError =
    | InvalidPrimaryProvider(p: ProviderId)
    | InvalidSyncTarget(p: ProviderId)
    | PrimaryProviderCannotBeSyncTarget(p: ProviderId)
    | OnedriveDisabledButConfigured
    | PrimaryProviderCannotBeFallback(p: ProviderId)
    | FallbackProviderMustBeSyncTarget(p: ProviderId)

  /** The first occurrence of each provider. */
  function Dedup(ps: seq<ProviderId>): seq<ProviderId> {
    if ps == [] then []
    else
      var init, last := Dedup(ps[..|ps| - 1]), ps[|ps| - 1];
      if last in init then init else init + [last]
  }

  function IndexOf(ps: seq<ProviderId>, p: ProviderId): nat
    requires p in ps
  {
    if ps[0] == p then 0 else 1 + IndexOf(ps[1..], p)
  }

  lemma {:induction false} IndexInPrefix(ps: seq<ProviderId>, qs: seq<ProviderId>, p: ProviderId)
    requires p in ps
    ensures p in ps + qs && IndexOf(ps + qs, p) == IndexOf(ps, p) < |ps|
  {
    if ps[0] != p {
      assert (ps + qs)[1..] == ps[1..] + qs;
      IndexInPrefix(ps[1..], qs, p);
    }
  }

  lemma {:induction false} IndexOfNew(ps: seq<ProviderId>, p: ProviderId)
    requires p !in ps
    ensures p in ps + [p] && IndexOf(ps + [p], p) == |ps|
  {
    if ps != [] {
      assert (ps + [p])[1..] == ps[1..] + [p];
      IndexOfNew(ps[1..], p);
    }
  }

  /** `Dedup` has no repeats, loses and invents nothing, and orders providers by first occurrence. */
  lemma {:induction false} DedupKeepsFirstOccurrences(ps: seq<ProviderId>)
    ensures var d := Dedup(ps);
            && Distinct(d) && (forall p :: p in d <==> p in ps)
            && forall i, j :: 0 <= i < j < |d| ==> IndexOf(ps, d[i]) < IndexOf(ps, d[j])
  {
    if ps != [] {
      var init, last := ps[..|ps| - 1], ps[|ps| - 1];
      DedupKeepsFirstOccurrences(init);
      assert ps == init + [last];
      forall p | p in init
        ensures IndexOf(ps, p) == IndexOf(init, p) < |init|
      {
        IndexInPrefix(init, [last], p);
      }
      if last !in init {
        IndexOfNew(init, last);
      }
    }
  }

  lemma {:induction false} DedupOfDistinct(ps: seq<ProviderId>)
    requires Distinct(ps)
    ensures Dedup(ps) == ps
  {
    if ps != [] {
      DedupOfDistinct(ps[..|ps| - 1]);
    }
  }

  method DedupPreserveOrder(ps: seq<ProviderId>) returns (unique: seq<ProviderId>)
    ensures unique == Dedup(ps)
  {
    unique := [];
    for i := 0 to |ps|
      invariant unique == Dedup(ps[..i])
    {
      assert ps[..i + 1][..i] == ps[..i];
      if ps[i] !in unique {
        unique := unique + [ps[i]];
      }
    }
    assert ps[..|ps|] == ps;
  }

  /** The sync targets in force: OneDrive stands in when none is configured and it is enabled. */
  function EffectiveTargets(input: Topology): seq<ProviderId> {
    if input.syncTargets == [] && input.onedriveEnabled then [Onedrive] else Dedup(input.syncTargets)
  }

  /** The rules a topology must obey. */
  ghost predicate ObeysRules(input: Topology) {
    && CanBePrimary(input.primary)
    && (forall p :: p in input.syncTargets ==>
          CanBeSyncTarget(p) && p != input.primary && (p == Onedrive ==> input.onedriveEnabled))
    && (forall p :: p in input.fallbackReadOrder ==> p != input.primary && p in EffectiveTargets(input))
  }

  function Normalised(input: Topology): Topology {
    input.(syncTargets := EffectiveTargets(input), fallbackReadOrder := Dedup(input.fallbackReadOrder))
  }

  /** The error names a rule the input really breaks. */
  ghost predicate Breaks(input: Topology, e: PolicyError) {
    match e
    case InvalidPrimaryProvider(p) => p == input.primary && !CanBePrimary(p)
    case InvalidSyncTarget(p) => p in input.syncTargets && !CanBeSyncTarget(p)
    case PrimaryProviderCannotBeSyncTarget(p) => p in input.syncTargets && p == input.primary
    case OnedriveDisabledButConfigured => Onedrive in input.syncTargets && !input.onedriveEnabled
    case PrimaryProviderCannotBeFallback(p) => p in input.fallbackReadOrder && p == input.primary
    case FallbackProviderMustBeSyncTarget(p) => p in input.fallbackReadOrder && p !in EffectiveTargets(input)
  }

  method FromInput(input: Topology) returns (r: Result<Topology, PolicyError>)
    ensures r.Ok? <==> ObeysRules(input)
    ensures r.Ok? ==> r.value == Normalised(input)
    ensures r.Err? ==> Breaks(input, r.error)
  {
    hide Dedup, Distinct;
    if !CanBePrimary(input.primary) {
      return Err(InvalidPrimaryProvider(input.primary));
    }
    var syncTargets := DedupPreserveOrder(input.syncTargets);
    var fallbackReadOrder := DedupPreserveOrder(input.fallbackReadOrder);
    DedupKeepsFirstOccurrences(input.syncTargets);
    DedupKeepsFirstOccurrences(input.fallbackReadOrder);
    for i := 0 to |syncTargets|
      invariant forall j :: 0 <= j < i ==>
        && CanBeSyncTarget(syncTargets[j]) && syncTargets[j] != input.primary
        && (syncTargets[j] == Onedrive ==> input.onedriveEnabled)
    {
      var p := syncTargets[i];
      assert p in syncTargets && p in input.syncTargets;
      if !CanBeSyncTarget(p) {
        return Err(InvalidSyncTarget(p));
      }
      if p == input.primary {
        return Err(PrimaryProviderCannotBeSyncTarget(p));
      }
      if p == Onedrive && !input.onedriveEnabled {
        return Err(OnedriveDisabledButConfigured);
      }
    }
    assert forall p :: p in input.syncTargets ==> p in syncTargets;
    if input.syncTargets != [] {
      assert input.syncTargets[0] in syncTargets;
    }
    if syncTargets != [] {
      assert syncTargets[0] in input.syncTargets;
    }
    if syncTargets == [] && input.onedriveEnabled {
      syncTargets := [Onedrive];
    }
    assert syncTargets == EffectiveTargets(input);
    for i := 0 to |fallbackReadOrder|
      invariant forall j :: 0 <= j < i ==> fallbackReadOrder[j] != input.primary && fallbackReadOrder[j] in syncTargets
    {
      var p := fallbackReadOrder[i];
      assert p in fallbackReadOrder && p in input.fallbackReadOrder;
      if p == input.primary {
        return Err(PrimaryProviderCannotBeFallback(p));
      }
      if p !in syncTargets {
        return Err(FallbackProviderMustBeSyncTarget(p));
      }
    }
    return Ok(Topology(input.primary, syncTargets, fallbackReadOrder, input.onedriveEnabled));
  }

  /** An accepted topology is accepted again, unchanged, and its targets are distinct and not the primary. */
  lemma NormalisedIsStable(input: Topology)
    requires ObeysRules(input)
    ensures var t := Normalised(input);
            && ObeysRules(t) && Normalised(t) == t
            && Distinct(t.syncTargets) && Distinct(t.fallbackReadOrder) && t.primary !in t.syncTargets
  {
    hide Dedup, IndexOf;
    DedupKeepsFirstOccurrences(input.syncTargets);
    DedupKeepsFirstOccurrences(input.fallbackReadOrder);
    DedupOfDistinct(EffectiveTargets(input));
    DedupOfDistinct(Dedup(input.fallbackReadOrder));
    if input.syncTargets != [] {
      assert input.syncTargets[0] in Dedup(input.syncTargets);
    }
  }

  /**
   * The rules, provider by provider: OneDrive is never the primary, the stub never a target, OneDrive a
   * target only when it is enabled, and no provider both the primary and a target or a fallback. Fallbacks
   * are targets, where OneDrive alone stands in for an empty list of targets when it is enabled.
   */
  lemma RulesByProvider(input: Topology)
    ensures ObeysRules(input) <==>
            && input.primary in {Stub, Unicom, Telecom, Mobile}
            && Stub !in input.syncTargets && input.primary !in input.syncTargets
            && (Onedrive in input.syncTargets ==> input.onedriveEnabled)
            && input.primary !in input.fallbackReadOrder
            && forall p :: p in input.fallbackReadOrder ==>
                 p in input.syncTargets || (p == Onedrive && input.syncTargets == [] && input.onedriveEnabled)
  {
    hide Dedup;
    DedupKeepsFirstOccurrences(input.syncTargets);
    if input.syncTargets == [] {
      assert forall p :: p !in Dedup(input.syncTargets);
    }
  }
}
