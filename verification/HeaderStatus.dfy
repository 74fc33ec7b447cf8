/** The validators of extension/src/header-status.js that decide when header evidence is authoritative. */
module HeaderStatus {
  import opened Basics

  const MAX_HEIGHT := 0xFFFF_FFFF
  const REQUIRED_FRESHNESS_THRESHOLD_BLOCKS := 2
  const REQUIRED_TARGET_PEER_GROUPS := 3

  /** A property of a decoded message: undefined, null, of another type, or a value. */
  datatype Field<+T> = Undefined | Null | Other | Present(value: T) {
    predicate Absent() { Undefined? || Null? }
  }

  datatype Freshness = Current | Stale | Unknown

  datatype TargetSource = CorroboratedPeers | UnknownSource

  datatype HeaderSync = HeaderSync(
    network: string, statusKnown: bool,
    bestHeight: Field<int>, bestPeerHeight: Field<int>, estimatedTipHeight: Field<int>,
    effectiveTargetHeight: Field<int>, lagBlocks: Field<int>, freshness: Field<Freshness>,
    freshnessThresholdBlocks: Field<int>, targetSource: Field<TargetSource>,
    targetPeerGroups: Field<int>, targetEvidenceExpired: Field<bool>, validUntil: Field<int>,
    treeIntervalBlocks: Field<int>, authoritativeTreeRootHeight: Field<int>, localTreeRootHeight: Field<int>,
    blocksUntilTreeRoot: Field<int>, treeRootReady: Field<bool>)

  predicate IsHeight(f: Field<int>) {
    f.Present? && 0 <= f.value <= MAX_HEIGHT
  }

  predicate OptionalHeight(f: Field<int>) {
    f.Absent() || IsHeight(f)
  }

  predicate IsUnixSeconds(f: Field<int>) {
    f.Present? && 0 <= f.value <= MAX_SAFE_INTEGER
  }

  function TreeInterval(network: string): Option<int> {
    if network == "mainnet" || network == "testnet" then Some(36)
    else if network == "regtest" then Some(5)
    else None
  }

  predicate ValidFreshness(h: HeaderSync) {
    OptionalHeight(h.effectiveTargetHeight) && OptionalHeight(h.lagBlocks) && IsHeight(h.freshnessThresholdBlocks) &&
    h.freshness.Present? && h.targetSource.Present? &&
    if h.freshness.value == Unknown then
      h.effectiveTargetHeight.Absent() && h.lagBlocks.Absent() && h.targetSource.value == UnknownSource &&
        h.validUntil.Absent()
    else
      h.bestHeight.Present? && h.bestHeight.value >= 1 && h.effectiveTargetHeight.Present? && h.lagBlocks.Present? &&
      h.targetSource.value == CorroboratedPeers && (h.validUntil.Undefined? || IsUnixSeconds(h.validUntil)) &&
      h.targetEvidenceExpired != Present(true) &&
      var lag := if h.effectiveTargetHeight.value < h.bestHeight.value then 0
                 else h.effectiveTargetHeight.value - h.bestHeight.value;
      h.lagBlocks.value == lag &&
      (if h.freshness.value == Stale then lag > h.freshnessThresholdBlocks.value
       else lag <= h.freshnessThresholdBlocks.value)
  }

  function CurrentHeaderSync(candidate: Option<HeaderSync>): Option<HeaderSync> {
    if candidate.None? then
      None
    else
      var h := candidate.value;
      var fields := [h.effectiveTargetHeight.Undefined?, h.lagBlocks.Undefined?, h.freshness.Undefined?,
                     h.freshnessThresholdBlocks.Undefined?, h.targetSource.Undefined?];
      if TreeInterval(h.network).None? || !h.statusKnown || !OptionalHeight(h.bestHeight) ||
         !OptionalHeight(h.bestPeerHeight) || !OptionalHeight(h.estimatedTipHeight) ||
         (!h.targetPeerGroups.Undefined? && !OptionalHeight(h.targetPeerGroups)) ||
         !(h.targetEvidenceExpired.Undefined? || h.targetEvidenceExpired.Present?) ||
         !(h.validUntil.Absent() || IsUnixSeconds(h.validUntil))
      then
        None
      else if false !in fields then candidate
      else if true in fields || !ValidFreshness(h) then None
      else candidate
  }

  predicate ValidNameTreeCurrentness(h: HeaderSync) {
    TreeInterval(h.network).Some? && h.treeIntervalBlocks == Present(TreeInterval(h.network).value) &&
    OptionalHeight(h.authoritativeTreeRootHeight) && OptionalHeight(h.localTreeRootHeight) &&
    OptionalHeight(h.blocksUntilTreeRoot) && !h.treeRootReady.Other? &&
    if h.freshness == Present(Unknown) then
      h.authoritativeTreeRootHeight.Absent() && h.treeRootReady.Absent() && h.blocksUntilTreeRoot.Absent()
    else
      h.bestHeight.Present? && h.bestHeight.value >= 1 && h.localTreeRootHeight.Present? &&
      1 <= h.localTreeRootHeight.value <= h.bestHeight.value &&
      h.authoritativeTreeRootHeight.Present? && h.authoritativeTreeRootHeight.value >= 1 &&
      h.blocksUntilTreeRoot.Present? &&
      if h.treeRootReady == Present(true) then
        h.blocksUntilTreeRoot.value == 0 && h.localTreeRootHeight == h.authoritativeTreeRootHeight &&
        h.bestHeight.value >= h.authoritativeTreeRootHeight.value
      else
        h.treeRootReady == Present(false) && h.blocksUntilTreeRoot.value > 0
  }

  function AuthoritativeHeaderSync(candidate: Option<HeaderSync>): Option<HeaderSync> {
    var sync := CurrentHeaderSync(candidate);
    if sync.None? then
      None
    else
      var h := sync.value;
      if !h.freshness.Present? || h.freshnessThresholdBlocks != Present(REQUIRED_FRESHNESS_THRESHOLD_BLOCKS) ||
         !IsHeight(h.targetPeerGroups) || !h.targetEvidenceExpired.Present? ||
         (if h.freshness.value == Unknown then !h.validUntil.Null? else !IsUnixSeconds(h.validUntil)) ||
         (h.freshness.value != Unknown && h.targetPeerGroups.value < REQUIRED_TARGET_PEER_GROUPS) ||
         !ValidNameTreeCurrentness(h)
      then
        None
      else
        sync
  }

  predicate ReadyForProxyActivation(candidate: Option<HeaderSync>, nowSeconds: int) {
    0 <= nowSeconds <= MAX_SAFE_INTEGER &&
    var sync := AuthoritativeHeaderSync(candidate);
    sync.Some? && sync.value.treeRootReady == Present(true) && sync.value.blocksUntilTreeRoot == Present(0) &&
    sync.value.targetEvidenceExpired == Present(false) && IsUnixSeconds(sync.value.validUntil) &&
    sync.value.validUntil.value > nowSeconds
  }

  /** Readiness is never claimed on less than this: unexpired evidence of three peer groups, whose tree root
      is the local one, on a chain whose reported lag is the true one. */
  lemma ReadinessIsCorroborated(h: HeaderSync, nowSeconds: int)
    requires ReadyForProxyActivation(Some(h), nowSeconds)
    ensures h.freshness == Present(Current) || h.freshness == Present(Stale)
    ensures h.targetSource == Present(CorroboratedPeers) && h.targetPeerGroups.Present? && h.targetPeerGroups.value >= 3
    ensures h.localTreeRootHeight == h.authoritativeTreeRootHeight && h.localTreeRootHeight.Present?
    ensures h.bestHeight.Present? && h.localTreeRootHeight.value <= h.bestHeight.value
    ensures h.validUntil.Present? && nowSeconds < h.validUntil.value
    ensures h.effectiveTargetHeight.Present? &&
            (h.freshness == Present(Current) <==> h.effectiveTargetHeight.value - h.bestHeight.value <= 2)
  {
    var fields := [h.effectiveTargetHeight.Undefined?, h.lagBlocks.Undefined?, h.freshness.Undefined?,
                   h.freshnessThresholdBlocks.Undefined?, h.targetSource.Undefined?];
    assert fields[2] == false;
  }

  ghost predicate Height(f: Field<int>) {
    f.Present? && 0 <= f.value <= 0xFFFF_FFFF
  }

  ghost predicate HeightIfAny(f: Field<int>) {
    f == Undefined || f == Null || Height(f)
  }

  /** And it is claimed on exactly this: known status of a known network, well-formed heights, current or stale
      freshness as the lag says, evidence of three groups that has not expired,
        and the authoritative tree root in place. */
  lemma ReadyExactly(h: HeaderSync, nowSeconds: int)
    ensures ReadyForProxyActivation(Some(h), nowSeconds) <==>
              0 <= nowSeconds <= 0x1F_FFFF_FFFF_FFFF && h.statusKnown &&
              ((h.network == "mainnet" && h.treeIntervalBlocks == Present(36)) ||
               (h.network == "testnet" && h.treeIntervalBlocks == Present(36)) ||
               (h.network == "regtest" && h.treeIntervalBlocks == Present(5))) &&
              Height(h.bestHeight) && h.bestHeight.value >= 1 && HeightIfAny(h.bestPeerHeight) &&
              HeightIfAny(h.estimatedTipHeight) && Height(h.effectiveTargetHeight) && Height(h.lagBlocks) &&
              h.lagBlocks.value == (if h.effectiveTargetHeight.value <= h.bestHeight.value then 0
                                    else h.effectiveTargetHeight.value - h.bestHeight.value) &&
              h.freshnessThresholdBlocks == Present(2) &&
              h.freshness == Present(if h.lagBlocks.value <= 2 then Current else Stale) &&
              h.targetSource == Present(CorroboratedPeers) && Height(h.targetPeerGroups) &&
              h.targetPeerGroups.value >= 3 && h.targetEvidenceExpired == Present(false) && h.validUntil.Present? &&
              nowSeconds < h.validUntil.value <= 0x1F_FFFF_FFFF_FFFF && Height(h.authoritativeTreeRootHeight) &&
              1 <= h.authoritativeTreeRootHeight.value <= h.bestHeight.value &&
              h.localTreeRootHeight == h.authoritativeTreeRootHeight && h.blocksUntilTreeRoot == Present(0) &&
              h.treeRootReady == Present(true)
  {
    var fields := [h.effectiveTargetHeight.Undefined?, h.lagBlocks.Undefined?, h.freshness.Undefined?,
                   h.freshnessThresholdBlocks.Undefined?, h.targetSource.Undefined?];
    assert fields[0] == h.effectiveTargetHeight.Undefined? && fields[1] == h.lagBlocks.Undefined? &&
           fields[2] == h.freshness.Undefined? && fields[3] == h.freshnessThresholdBlocks.Undefined? &&
           fields[4] == h.targetSource.Undefined?;
    assert true in fields <==> fields[0] || fields[1] || fields[2] || fields[3] || fields[4];
  }
}
