/** internal/controller/phases.go: the single decision point of the sandbox state machine.
    Everything here is a pure function of the sandbox, the merged lifecycle and one observation. */
module Lifecycle {
  import opened Api

  datatype PodPhase = PodPending | PodRunning | PodSucceeded | PodFailed | PodUnknown

  datatype Observation = Observation(
    now: int,
    podExists: bool,
    podPhase: PodPhase,
    podReady: bool,
    podCreatedAt: Option<int>,
    nodeName: string,
    nodeReady: bool,
    leaseHealthy: bool,
    lastLeaseRenewAt: Option<int>,
    networkActivity: bool,
    cpuIncrementMilli: int,
    activeConnections: int,
    frozen: bool,
    resumed: bool,
    manualWake: bool,
    manualHibernate: bool)

  datatype Reason =
    | PodCreating
    | WaitingPodReady
    | PodMissing
    | PodTerminated
    | ProvisionTimeout
    | StockReady
    | ColdPathClaimed
    | Claimed
    | ClientReleased
    | StockRotation
    | ReuseLimitReached
    | HardDeadline
    | NodeLost
    | TTLExpired
    | IdleDetectionConflict
    | HeartbeatLost
    | IdleHibernate
    | IdleTimeout
    | ReasonHibernated
    | ReasonResuming
    | Resumed
    | Terminal
    | Deleting
    | UnexpectedPhase
    | NoReason

  /** next is None when the phase stays and is only re-evaluated after requeueAfter seconds. */
  datatype Decision = Decision(
    next: Option<Phase>,
    recycleReason: RecycleReason,
    reason: Reason,
    requeueAfter: int,
    reclaim: bool)

  datatype Lifecycle = Lifecycle(
    ttl: int,
    idleTimeout: int,
    heartbeatGrace: int,
    hibernateAfterIdle: int,
    provisionTimeout: int,
    terminationGrace: int,
    maxStockAge: int,
    onHeartbeatLoss: OnHeartbeatLoss,
    reclaimPolicy: ReclaimPolicy,
    treatNetworkAsActive: bool,
    treatCpuAboveMilli: int,
    maxClaimCount: int,
    allowSameTenantReuse: bool)

  const DEFAULT_TTL := 7200
  const DEFAULT_IDLE_TIMEOUT := 300
  const DEFAULT_HEARTBEAT_GRACE := 60
  const DEFAULT_HIBERNATE_AFTER_IDLE := 120
  const DEFAULT_PROVISION_TIMEOUT := 120
  const DEFAULT_TERMINATION_GRACE := 30
  const DEFAULT_MAX_STOCK_AGE := 3600
  const DEFAULT_CPU_ABOVE_MILLI := 50

  function Transition(next: Phase, reason: Reason): Decision {
    Decision(Some(next), NoRecycle, reason, 0, false)
  }

  function Stay(reason: Reason, after: int): Decision {
    Decision(None, NoRecycle, reason, after, false)
  }

  function Reclaim(phase: Phase, reason: Reason, why: RecycleReason): Decision {
    Decision(Some(phase), why, reason, 0, true)
  }

  // ---- The merged lifecycle ----

  function OrDefault(v: int, default: int): int {
    if v > 0 then v else default
  }

  function EffectiveLifecycle(sbx: Sandbox): Lifecycle {
    var base := Lifecycle(
      DEFAULT_TTL, DEFAULT_IDLE_TIMEOUT, DEFAULT_HEARTBEAT_GRACE, DEFAULT_HIBERNATE_AFTER_IDLE,
      DEFAULT_PROVISION_TIMEOUT, DEFAULT_TERMINATION_GRACE, DEFAULT_MAX_STOCK_AGE,
      LossGrace, ReturnToPool, true, DEFAULT_CPU_ABOVE_MILLI, 0, false);
    match sbx.spec.lifecycle
    case None => base
    case Some(s) =>
      base.(ttl := OrDefault(s.ttl, base.ttl),
            idleTimeout := s.idleTimeout,
            heartbeatGrace := OrDefault(s.heartbeatGrace, base.heartbeatGrace),
            hibernateAfterIdle := s.hibernateAfterIdle,
            provisionTimeout := OrDefault(s.provisionTimeout, base.provisionTimeout),
            terminationGrace := OrDefault(s.terminationGrace, base.terminationGrace),
            onHeartbeatLoss := if s.onHeartbeatLoss.LossUnset? then base.onHeartbeatLoss else s.onHeartbeatLoss,
            reclaimPolicy := if s.reclaimPolicy.PolicyUnset? then base.reclaimPolicy else s.reclaimPolicy)
  }

  function ApplyTemplateDefaults(sbx: Sandbox, template: Option<TemplateDefaults>): Lifecycle {
    var lc := EffectiveLifecycle(sbx);
    match template
    case None => lc
    case Some(d) =>
      var spec := sbx.spec.lifecycle;
      lc.(ttl := if (spec.None? || spec.value.ttl == 0) && d.ttl > 0 then d.ttl else lc.ttl,
          idleTimeout := if spec.None? && d.idleTimeout > 0 then d.idleTimeout else lc.idleTimeout,
          heartbeatGrace :=
            if (spec.None? || spec.value.heartbeatGrace == 0) && d.heartbeatGrace > 0
            then d.heartbeatGrace else lc.heartbeatGrace,
          reclaimPolicy :=
            if (spec.None? || spec.value.reclaimPolicy.PolicyUnset?) && !d.reclaimPolicy.PolicyUnset?
            then d.reclaimPolicy else lc.reclaimPolicy,
          maxClaimCount := d.maxClaimCount,
          allowSameTenantReuse := d.allowSameTenantReuse)
  }

  // ---- Time predicates ----

  function Latest(t: int, other: Option<int>): int {
    if other.Some? && other.value > t then other.value else t
  }

  /** The last instant at which the sandbox showed any sign of use. */
  function LastUse(sbx: Sandbox, o: Observation): int {
    var claimedAt := if sbx.status.claimRef.Some? then sbx.status.claimRef.value.claimedAt else None;
    Latest(Latest(Latest(sbx.createdAt, claimedAt), sbx.status.lastActiveAt), o.lastLeaseRenewAt)
  }

  function IdleFor(sbx: Sandbox, o: Observation): int {
    var last := LastUse(sbx, o);
    if o.now < last then 0 else o.now - last
  }

  predicate TtlExpired(lc: Lifecycle, sbx: Sandbox, now: int) {
    lc.ttl > 0 && now - sbx.createdAt >= lc.ttl
  }

  predicate HardDeadlinePassed(sbx: Sandbox, now: int) {
    if sbx.status.claimRef.Some? && sbx.status.claimRef.value.hardDeadline.Some? then
      now >= sbx.status.claimRef.value.hardDeadline.value
    else
      sbx.spec.claim.Some? && sbx.spec.claim.value.hardDeadline.Some?
      && now >= sbx.spec.claim.value.hardDeadline.value
  }

  predicate StockTooOld(lc: Lifecycle, sbx: Sandbox, o: Observation) {
    lc.maxStockAge > 0 && o.now - sbx.createdAt >= lc.maxStockAge
  }

  predicate ReuseLimitHit(lc: Lifecycle, sbx: Sandbox) {
    lc.maxClaimCount > 0 && sbx.status.claimedCount >= lc.maxClaimCount
  }

  predicate ProvisionTimedOut(lc: Lifecycle, sbx: Sandbox, o: Observation) {
    var ref := if o.podCreatedAt.Some? then o.podCreatedAt.value else sbx.createdAt;
    lc.provisionTimeout > 0 && o.now - ref >= lc.provisionTimeout
  }

  function NextIdleCheck(lc: Lifecycle, sbx: Sandbox, o: Observation): int {
    if lc.idleTimeout <= 0 then 300
    else
      var remaining := lc.idleTimeout - IdleFor(sbx, o);
      if remaining <= 0 then 0
      else if remaining < 30 then remaining
      else 30
  }

  predicate ActivityObserved(lc: Lifecycle, o: Observation) {
    if !lc.treatNetworkAsActive && o.cpuIncrementMilli == 0 && o.activeConnections == 0 then false
    else if lc.treatNetworkAsActive && o.networkActivity then true
    else if o.activeConnections > 0 then true
    else lc.treatCpuAboveMilli > 0 && o.cpuIncrementMilli > lc.treatCpuAboveMilli
  }

  // ---- Decisions, one per phase ----

  function DecideProvisioning(sbx: Sandbox, lc: Lifecycle, o: Observation): Decision {
    if !o.nodeReady then Reclaim(Failed, NodeLost, RecycleNodeLost)
    else if ProvisionTimedOut(lc, sbx, o) then Reclaim(Failed, ProvisionTimeout, RecycleRuntimeError)
    else if !o.podExists then Stay(PodMissing, 10)
    else match o.podPhase
      case PodRunning =>
        if !o.podReady then Stay(WaitingPodReady, 2)
        else if sbx.spec.claim.None? then Transition(Ready, StockReady)
        else Transition(Running, ColdPathClaimed)
      case PodFailed => Reclaim(Failed, PodTerminated, RecycleRuntimeError)
      case PodSucceeded => Reclaim(Failed, PodTerminated, RecycleRuntimeError)
      case _ => Stay(WaitingPodReady, 2)
  }

  function DecideStock(sbx: Sandbox, lc: Lifecycle, o: Observation): Decision {
    if sbx.spec.claim.Some? then Transition(Running, Claimed)
    else if !o.nodeReady || !o.podExists then Reclaim(Failed, NodeLost, RecycleNodeLost)
    else if StockTooOld(lc, sbx, o) then Reclaim(Terminating, StockRotation, RecycleStockRotation)
    else if ReuseLimitHit(lc, sbx) then Reclaim(Terminating, ReuseLimitReached, RecycleReuseLimitReached)
    else Stay(StockReady, 30)
  }

  predicate HibernateDue(lc: Lifecycle, sbx: Sandbox, idle: int) {
    && lc.hibernateAfterIdle > 0
    && sbx.spec.hibernationEnabled
    && !sbx.status.hibernation.Frozen?
    && !(lc.idleTimeout > 0 && lc.hibernateAfterIdle >= lc.idleTimeout)
    && idle >= lc.hibernateAfterIdle
  }

  /** The heartbeat is lost and nothing is going on: None means the loss is to be ignored. */
  function DecideHeartbeatLoss(sbx: Sandbox, lc: Lifecycle): Option<Decision> {
    match lc.onHeartbeatLoss
    case LossReclaim => Some(Reclaim(Terminating, HeartbeatLost, RecycleHeartbeatLost))
    case LossIgnore => None
    case _ =>
      if sbx.status.phase.Running? then Some(Transition(Idle, HeartbeatLost))
      else Some(Reclaim(Terminating, HeartbeatLost, RecycleHeartbeatLost))
  }

  function DecideIdle(sbx: Sandbox, lc: Lifecycle, o: Observation): Decision {
    if lc.idleTimeout > 0 && (HibernateDue(lc, sbx, IdleFor(sbx, o)) || o.manualHibernate) then
      Transition(Hibernating, IdleHibernate)
    else if lc.idleTimeout > 0 && IdleFor(sbx, o) >= lc.idleTimeout then
      Reclaim(Terminating, IdleTimeout, RecycleIdleTimeout)
    else if sbx.status.phase.Idle? && ActivityObserved(lc, o) then Transition(Running, Claimed)
    else Stay(Claimed, NextIdleCheck(lc, sbx, o))
  }

  function DecideClaimed(sbx: Sandbox, lc: Lifecycle, o: Observation): Decision {
    if sbx.spec.claim.None? then Reclaim(Terminating, ClientReleased, RecycleClientReleased)
    else if HardDeadlinePassed(sbx, o.now) then Reclaim(Terminating, HardDeadline, RecycleHardDeadline)
    else if !o.nodeReady || !o.podExists then Reclaim(Terminating, NodeLost, RecycleNodeLost)
    else if TtlExpired(lc, sbx, o.now) then Reclaim(Terminating, TTLExpired, RecycleTTLExpired)
    else if !o.leaseHealthy && ActivityObserved(lc, o) then Stay(IdleDetectionConflict, 30)
    else if !o.leaseHealthy && DecideHeartbeatLoss(sbx, lc).Some? then DecideHeartbeatLoss(sbx, lc).value
    else DecideIdle(sbx, lc, o)
  }

  function ReclaimTrigger(sbx: Sandbox, lc: Lifecycle, o: Observation): Decision {
    if HardDeadlinePassed(sbx, o.now) then Reclaim(Terminating, HardDeadline, RecycleHardDeadline)
    else if !o.nodeReady || !o.podExists then Reclaim(Terminating, NodeLost, RecycleNodeLost)
    else if TtlExpired(lc, sbx, o.now) then Reclaim(Terminating, TTLExpired, RecycleTTLExpired)
    else Stay(NoReason, 60)
  }

  function DecideHibernated(sbx: Sandbox, lc: Lifecycle, o: Observation): Decision {
    var d := ReclaimTrigger(sbx, lc, o);
    if d.reclaim then d.(next := Some(Terminating))
    else if ActivityObserved(lc, o) || o.manualWake then Transition(Resuming, ReasonResuming)
    else if lc.idleTimeout > 0 && IdleFor(sbx, o) >= lc.idleTimeout then
      Reclaim(Terminating, IdleTimeout, RecycleIdleTimeout)
    else Stay(ReasonHibernated, 60)
  }

  function NextPhase(sbx: Sandbox, lc: Lifecycle, o: Observation): Decision {
    if sbx.deleting then Stay(Deleting, 0)
    else if IsTerminal(sbx.status.phase) then Stay(Terminal, 0)
    else match sbx.status.phase
      case NoPhase => Transition(Provisioning, PodCreating)
      case Pending => Transition(Provisioning, PodCreating)
      case Provisioning => DecideProvisioning(sbx, lc, o)
      case Ready => DecideStock(sbx, lc, o)
      case Running => DecideClaimed(sbx, lc, o)
      case Idle => DecideClaimed(sbx, lc, o)
      case Hibernating =>
        if o.frozen then Transition(Hibernated, ReasonHibernated)
        else if !o.podExists || !o.nodeReady then Reclaim(Terminating, NodeLost, RecycleNodeLost)
        else Stay(IdleHibernate, 15)
      case Hibernated => DecideHibernated(sbx, lc, o)
      case Resuming =>
        if o.resumed then Transition(Running, Resumed)
        else if !o.podExists || !o.nodeReady then Reclaim(Terminating, NodeLost, RecycleNodeLost)
        else Stay(ReasonResuming, 5)
      case _ => Stay(UnexpectedPhase, 30)
  }

  /** The phase a sandbox is in once a decision has been applied to it. */
  function PhaseAfter(sbx: Sandbox, d: Decision): Phase {
    if d.next.Some? then d.next.value else sbx.status.phase
  }

  // ---- What one decision can do ----

  /** The edges of the phase graph. Every phase outside the graph's ends may also stay put. */
  predicate PhaseEdge(p: Phase, q: Phase) {
    match p
    case NoPhase => q.Provisioning?
    case Pending => q.Provisioning?
    case Provisioning => q.Ready? || q.Running? || q.Failed?
    case Ready => q.Running? || q.Failed? || q.Terminating?
    case Running => q.Idle? || q.Hibernating? || q.Terminating?
    case Idle => q.Running? || q.Hibernating? || q.Terminating?
    case Hibernating => q.Hibernated? || q.Terminating?
    case Hibernated => q.Resuming? || q.Terminating?
    case Resuming => q.Running? || q.Terminating?
    case _ => false
  }

  /** A decision moves along one edge of the graph or not at all; it reclaims exactly when it
      enters an ending phase; a session phase is entered only under a claim; and the two
      handshake edges are taken only on the agent's word. */
  lemma DecisionFollowsGraph(sbx: Sandbox, lc: Lifecycle, o: Observation)
    ensures
      var d := NextPhase(sbx, lc, o);
      && (d.next.Some? ==> PhaseEdge(sbx.status.phase, d.next.value))
      && (d.reclaim <==> d.next.Some? && IsEnding(d.next.value))
      && (d.reclaim <==> !d.recycleReason.NoRecycle?)
      && (d.next == Some(Hibernated) ==> o.frozen)
      && (d.next == Some(Running) && sbx.status.phase.Resuming? ==> o.resumed)
      && (d.next.Some? && IsClaimedPhase(d.next.value) && !IsClaimedPhase(sbx.status.phase) ==> sbx.spec.claim.Some?)
      && (sbx.deleting || IsEnding(sbx.status.phase) ==> d.next.None?)
  {
  }
}
