/** The AgentSandbox API objects, reduced to the fields the control plane decides on.
    Times are whole seconds; an optional time is an Option. A label that is absent
    reads as the empty string, as it does through a Go map lookup. */
module Api {

  datatype Option<+T> = None | Some(value: T)

  datatype Phase =
    | NoPhase // the empty string of a freshly created object
    | Pending
    | Provisioning
    | Ready
    | Running
    | Idle
    | Hibernating
    | Hibernated
    | Resuming
    | Terminating
    | Succeeded
    | Failed

  predicate IsTerminal(p: Phase) {
    p.Succeeded? || p.Failed?
  }

  /** Phases from which the life of a sandbox only ever leads to its deletion. */
  predicate IsEnding(p: Phase) {
    p.Terminating? || IsTerminal(p)
  }

  predicate IsClaimedPhase(p: Phase) {
    p.Running? || p.Idle? || p.Hibernating? || p.Hibernated? || p.Resuming?
  }

  datatype RuntimeState = NoState | Active | Freezing | Frozen | Restoring

  datatype RecycleReason =
    | NoRecycle
    | RecycleIdleTimeout
    | RecycleTTLExpired
    | RecycleClientReleased
    | RecycleHardDeadline
    | RecycleHeartbeatLost
    | RecycleNodeLost
    | RecycleStockRotation
    | RecycleRuntimeError
    | RecycleReuseLimitReached

  datatype OnHeartbeatLoss = LossUnset | LossReclaim | LossGrace | LossIgnore

  datatype ReclaimPolicy = PolicyUnset | ReturnToPool | Destroy

  datatype Finalizer = LeaseCleanup | NetworkCleanup | StateFlush | VolumeCleanup | MetricsFinalize

  /** spec.claim: whom the sandbox belongs to. */
  datatype Claim = Claim(
    tenant: string,
    sessionId: string,
    principal: string,
    requestId: string,
    priorityClass: string,
    hardDeadline: Option<int>)

  /** status.claimRef: the snapshot the controller took of a claim. */
  datatype ClaimRef = ClaimRef(
    tenant: string,
    sessionId: string,
    requestId: string,
    claimedAt: Option<int>,
    hardDeadline: Option<int>)

  datatype LifecycleSpec = LifecycleSpec(
    ttl: int,
    idleTimeout: int,
    heartbeatGrace: int,
    hibernateAfterIdle: int,
    provisionTimeout: int,
    terminationGrace: int,
    reclaimPolicy: ReclaimPolicy,
    onHeartbeatLoss: OnHeartbeatLoss)

  /** The defaults a SandboxTemplate supplies. */
  datatype TemplateDefaults = TemplateDefaults(
    ttl: int,
    idleTimeout: int,
    heartbeatGrace: int,
    reclaimPolicy: ReclaimPolicy,
    maxClaimCount: int,
    allowSameTenantReuse: bool)

  datatype Labels = Labels(
    pool: string,
    role: string,
    claimed: bool, // the label LabelClaimed, always written as "true" or "false"
    tenant: string,
    requestId: string,
    draining: bool)

  datatype Spec = Spec(
    claim: Option<Claim>,
    lifecycle: Option<LifecycleSpec>,
    hibernationEnabled: bool)

  datatype Status = Status(
    phase: Phase,
    sandboxId: string,
    podName: string,
    nodeName: string,
    claimRef: Option<ClaimRef>,
    lastActiveAt: Option<int>,
    activeConnections: int,
    cpuIncrementMilli: int,
    hibernation: RuntimeState,
    provisionedAt: Option<int>,
    claimedCount: int,
    coldPath: bool,
    recycleReason: RecycleReason)

  datatype Sandbox = Sandbox(
    name: string,
    uid: string,
    createdAt: int,
    deleting: bool,
    finalizers: seq<Finalizer>,
    labels: Labels,
    wakeRequested: bool,
    hibernateRequested: bool,
    spec: Spec,
    status: Status)
}
