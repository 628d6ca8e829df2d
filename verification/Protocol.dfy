/** The shared-store protocol, one sandbox object at a time. An Object is every version the API
    server ever committed, plus the little state outside it that the invariants speak about:
    the pod's cgroup, the node agent's progress and the log of finalizer attempts.

    Each Step is one atomic effect of one actor. It names the version its actor read, which may
    be any version ever committed: informer caches lag. An update or a patch with an optimistic
    lock commits only if that version is still the current one; a plain merge patch changes the
    fields it touched, whatever the current version is (RFC 7396, section 2). */
module Protocol {
  import opened Api
  import opened Lifecycle
  import opened ClaimBinding

  /** finalizerOrder: the order of clean-up is the order of this list. */
  const CHAIN: seq<Finalizer> := [LeaseCleanup, NetworkCleanup, StateFlush, VolumeCleanup, MetricsFinalize]

  /** The node agent's work in progress: it listed version `at` and must (un)freeze the cgroup,
      or has done so and must still record it in the status. */
  datatype AgentTask =
    | NoTask
    | ToCgroup(freeze: bool, at: nat)
    | ToStatus(freeze: bool, at: nat)

  datatype Object = Object(
    versions: seq<Sandbox>,
    gone: bool,
    cgroupFrozen: bool,
    attempted: seq<Finalizer>,
    forced: bool,
    agentSeen: nat,
    task: AgentTask)
  {
    predicate Exists() {
      versions != []
    }

    function Latest(): nat
      requires Exists()
    {
      |versions| - 1
    }

    function Current(): Sandbox
      requires Exists()
    {
      versions[|versions| - 1]
    }
  }

  datatype Step =
    // gateway
    | Bind(read: nat, claim: Claim)
    | Release(read: nat, tenant: string)
    | SetHibernation(read: nat, tenant: string, hibernate: bool)
    // pool reconciler
    | MarkDraining(read: nat)
    | PoolDelete(read: nat)
    // sandbox reconciler
    | InstallFinalizers(read: nat)
    | WriteStatus(read: nat, facts: Observation, template: Option<TemplateDefaults>, pod: string)
    | ReconcilerDelete(read: nat)
    | Attempt(read: nat)
    | DropFinalizer(read: nat)
    // node agent
    | AgentList(read: nat)
    | AgentCgroup(written: bool, confirmed: bool)
    | AgentStatus(read: nat)
    | AgentGiveUp
    // sweeper
    | MarkFailed(read: nat, why: RecycleReason)
    | ForceFinalize(read: nat)

  // ---- Committing ----

  /** The server drops a write that changes nothing, and an object that is being deleted is gone
      with its last finalizer. */
  function Commit(x: Object, s: Sandbox): Object
    requires x.Exists()
  {
    if x.gone || s == x.Current() then x
    else x.(versions := x.versions + [s], gone := s.deleting && s.finalizers == [])
  }

  predicate Won(x: Object, read: nat)
    requires x.Exists()
  {
    !x.gone && read == x.Latest()
  }

  function CommitIfCurrent(x: Object, read: nat, s: Sandbox): Object
    requires x.Exists()
  {
    if Won(x, read) then Commit(x, s) else x
  }

  function Delete(x: Object): Object
    requires x.Exists()
  {
    Commit(x, x.Current().(deleting := true))
  }

  // ---- Gateway ----

  /** claimable in internal/claim/claim.go. */
  predicate Claimable(s: Sandbox) {
    !s.deleting && s.spec.claim.None? && s.status.phase.Ready?
  }

  /** What the label selector of the candidate list lets through. */
  predicate Listed(s: Sandbox) {
    !s.labels.claimed
  }

  function Bound(s: Sandbox, c: Claim): Sandbox {
    s.(spec := s.spec.(claim := Some(c)),
       labels := s.labels.(
         claimed := true,
         tenant := c.tenant,
         requestId := if c.requestId != "" then c.requestId else s.labels.requestId))
  }

  /** goneReason in internal/gateway/store.go is non-empty. */
  predicate ReportedGone(s: Sandbox) {
    || s.deleting
    || s.status.phase.Failed?
    || ((s.status.phase.Terminating? || s.status.phase.Succeeded?) && !s.status.recycleReason.NoRecycle?)
  }

  predicate OwnedBy(s: Sandbox, tenant: string) {
    !ReportedGone(s) && s.labels.tenant == tenant && s.spec.claim.Some?
  }

  /** The merge patch of SetHibernation: an annotation is set unless the copy already had it and
      removed only if the copy had it. */
  function HibernationPatched(current: Sandbox, copy: Sandbox, hibernate: bool): Sandbox {
    if hibernate then
      current.(hibernateRequested := current.hibernateRequested || !copy.hibernateRequested,
               wakeRequested := current.wakeRequested && !copy.wakeRequested)
    else
      current.(wakeRequested := current.wakeRequested || !copy.wakeRequested,
               hibernateRequested := current.hibernateRequested && !copy.hibernateRequested)
  }

  // ---- Pool reconciler ----

  predicate DrainCandidate(s: Sandbox) {
    !s.labels.claimed && !s.deleting && !s.labels.draining
    && s.status.phase.Ready? && s.spec.claim.None?
  }

  // ---- Sandbox reconciler ----

  function Missing(have: seq<Finalizer>, wanted: seq<Finalizer>): seq<Finalizer> {
    if wanted == [] then []
    else (if wanted[0] in have then [] else [wanted[0]]) + Missing(have, wanted[1..])
  }

  function WithFinalizers(s: Sandbox): Sandbox {
    s.(finalizers := s.finalizers + Missing(s.finalizers, CHAIN))
  }

  /** observe: the facts that come from the sandbox itself are read off the copy. */
  function Observed(s: Sandbox, facts: Observation): Observation {
    facts.(
      nodeReady := facts.nodeReady || facts.nodeName == "",
      activeConnections := s.status.activeConnections,
      networkActivity := s.status.activeConnections > 0,
      cpuIncrementMilli := s.status.cpuIncrementMilli,
      frozen := s.status.hibernation.Frozen?,
      resumed := s.status.hibernation.Active?,
      manualWake := s.wakeRequested,
      manualHibernate := s.hibernateRequested && !s.wakeRequested)
  }

  /** The copy with the claim recorded and the node written down, before the decision. */
  function Annotated(s: Sandbox, facts: Observation): Sandbox {
    var b := Recorded(s, facts.now);
    if facts.nodeName != "" then b.(status := b.status.(nodeName := facts.nodeName)) else b
  }

  function DecisionOn(s: Sandbox, facts: Observation, template: Option<TemplateDefaults>): Decision {
    var b := Annotated(s, facts);
    NextPhase(b, ApplyTemplateDefaults(b, template), Observed(s, facts))
  }

  /** applyTransition: the status the decision is written as. */
  function Transitioned(b: Sandbox, d: Decision, pod: string, now: int): Sandbox
    requires d.next.Some?
  {
    var next := d.next.value;
    if d.reclaim then b.(status := b.status.(phase := next, recycleReason := d.recycleReason))
    else
      b.(status := b.status.(
           phase := next,
           podName := if next.Provisioning? && b.status.podName == "" then pod else b.status.podName,
           provisionedAt :=
             if (next.Ready? || next.Running?) && b.status.provisionedAt.None? then Some(now)
             else b.status.provisionedAt))
  }

  /** What one pass of Reconcile writes for the copy it read. */
  function Reconciled(s: Sandbox, facts: Observation, template: Option<TemplateDefaults>, pod: string): Sandbox {
    var b := Annotated(s, facts);
    var d := DecisionOn(s, facts, template);
    if d.next.Some? && d.next.value != b.status.phase then Transitioned(b, d, pod, facts.now) else b
  }

  /** The finalizer reconcileDelete comes to first, walking the chain. */
  function NextFinalizer(have: seq<Finalizer>): Option<Finalizer> {
    if LeaseCleanup in have then Some(LeaseCleanup)
    else if NetworkCleanup in have then Some(NetworkCleanup)
    else if StateFlush in have then Some(StateFlush)
    else if VolumeCleanup in have then Some(VolumeCleanup)
    else if MetricsFinalize in have then Some(MetricsFinalize)
    else None
  }

  function Without(have: seq<Finalizer>, f: Finalizer): seq<Finalizer> {
    if have == [] then []
    else (if have[0] == f then [] else [have[0]]) + Without(have[1..], f)
  }

  // ---- Node agent ----

  predicate WantsFreeze(s: Sandbox) {
    s.status.phase.Hibernating? && !s.status.hibernation.Frozen?
  }

  predicate WantsThaw(s: Sandbox) {
    s.status.phase.Resuming? && !s.status.hibernation.Active?
  }

  function TaskFor(s: Sandbox, at: nat): AgentTask {
    if WantsFreeze(s) then ToCgroup(true, at)
    else if WantsThaw(s) then ToCgroup(false, at)
    else NoTask
  }

  function WithRuntimeState(s: Sandbox, freeze: bool): Sandbox {
    s.(status := s.status.(hibernation := if freeze then Frozen else Active))
  }

  // ---- Sweeper ----

  /** The merge patch of markFailed. */
  function FailedPatch(current: Sandbox, copy: Sandbox, why: RecycleReason): Sandbox {
    current.(status := current.status.(
               phase := Failed,
               recycleReason := if copy.status.recycleReason == why then current.status.recycleReason else why))
  }

  // ---- The transition relation ----

  predicate Reads(x: Object, read: nat) {
    read < |x.versions|
  }

  /** The actor, looking at the version it read, takes this step. */
  predicate Enabled(x: Object, step: Step) {
    && x.Exists()
    && match step
       case Bind(r, c) => Reads(x, r) && Listed(x.versions[r]) && Claimable(x.versions[r])
       case Release(r, t) => Reads(x, r) && OwnedBy(x.versions[r], t)
       case SetHibernation(r, t, _) => Reads(x, r) && OwnedBy(x.versions[r], t)
       case MarkDraining(r) => Reads(x, r) && DrainCandidate(x.versions[r])
       case PoolDelete(r) => Reads(x, r) && x.versions[r].labels.draining
       case InstallFinalizers(r) =>
         Reads(x, r) && !x.versions[r].deleting && LeaseCleanup !in x.versions[r].finalizers
       case WriteStatus(r, _, _, _) =>
         && Reads(x, r) && !x.versions[r].deleting && LeaseCleanup in x.versions[r].finalizers
         && !IsEnding(x.versions[r].status.phase)
       case ReconcilerDelete(r) =>
         && Reads(x, r) && !x.versions[r].deleting && LeaseCleanup in x.versions[r].finalizers
         && IsEnding(x.versions[r].status.phase)
       case Attempt(r) =>
         Reads(x, r) && x.versions[r].deleting && NextFinalizer(x.versions[r].finalizers).Some?
       case DropFinalizer(r) =>
         && Reads(x, r) && x.versions[r].deleting
         && var f := NextFinalizer(x.versions[r].finalizers);
            f.Some? && f.value in x.attempted
       case AgentList(r) => Reads(x, r) && x.task.NoTask?
       case AgentCgroup(written, confirmed) => x.task.ToCgroup? && (confirmed ==> written)
       case AgentStatus(r) => Reads(x, r) && x.task.ToStatus?
       case AgentGiveUp => true
       case MarkFailed(r, why) => Reads(x, r) && !IsTerminal(x.versions[r].status.phase)
       case ForceFinalize(r) => Reads(x, r) && x.versions[r].deleting
  }

  function Apply(x: Object, step: Step): Object
    requires Enabled(x, step)
  {
    var cur := x.Current();
    match step
    case Bind(r, c) => CommitIfCurrent(x, r, Bound(x.versions[r], c))
    case Release(r, _) =>
      CommitIfCurrent(x, r, x.versions[r].(spec := x.versions[r].spec.(claim := None)))
    case SetHibernation(r, _, h) => Commit(x, HibernationPatched(cur, x.versions[r], h))
    case MarkDraining(r) => Commit(x, cur.(labels := cur.labels.(draining := true)))
    case PoolDelete(_) => Delete(x)
    case InstallFinalizers(r) => CommitIfCurrent(x, r, WithFinalizers(x.versions[r]))
    case WriteStatus(r, facts, template, pod) =>
      CommitIfCurrent(x, r, Reconciled(x.versions[r], facts, template, pod))
    case ReconcilerDelete(_) => Delete(x)
    case Attempt(r) => x.(attempted := x.attempted + [NextFinalizer(x.versions[r].finalizers).value])
    case DropFinalizer(r) =>
      var s := x.versions[r];
      CommitIfCurrent(x, r, s.(finalizers := Without(s.finalizers, NextFinalizer(s.finalizers).value)))
    case AgentList(r) => x.(agentSeen := r, task := TaskFor(x.versions[r], r))
    case AgentCgroup(written, confirmed) =>
      x.(cgroupFrozen := if written then x.task.freeze else x.cgroupFrozen,
         task := if confirmed then ToStatus(x.task.freeze, x.task.at) else NoTask)
    case AgentStatus(r) =>
      var y := CommitIfCurrent(x, r, WithRuntimeState(x.versions[r], x.task.freeze));
      y.(agentSeen := r, task := if Won(x, r) then NoTask else x.task)
    case AgentGiveUp => x.(task := NoTask)
    case MarkFailed(r, why) => Commit(x, FailedPatch(cur, x.versions[r], why))
    case ForceFinalize(_) => Commit(x.(forced := true), cur.(finalizers := []))
  }

  // ---- Runs ----

  function EmptyStatus(): Status {
    Status(NoPhase, "", "", "", None, None, 0, 0, NoState, None, 0, false, NoRecycle)
  }

  /** Stock as newStockSandbox builds it, or a sandbox created for one request by CreateCold. */
  predicate Created(s: Sandbox) {
    && !s.deleting && s.finalizers == [] && s.status == EmptyStatus()
    && !s.labels.draining
    && if s.spec.claim.None? then
         !s.labels.claimed && s.labels.tenant == "" && s.labels.requestId == ""
       else
         && s.labels.claimed
         && s.labels.tenant == s.spec.claim.value.tenant
         && s.labels.requestId == s.spec.claim.value.requestId
  }

  function NewObject(s: Sandbox): Object {
    Object([s], false, false, [], false, 0, NoTask)
  }

  /** The steps of the run can be taken one after the other. */
  predicate Legal(x: Object, run: seq<Step>)
    decreases |run|
  {
    run == [] || (Enabled(x, run[0]) && Legal(Apply(x, run[0]), run[1..]))
  }

  function After(x: Object, run: seq<Step>): Object
    requires Legal(x, run)
    decreases |run|
  {
    if run == [] then x else After(Apply(x, run[0]), run[1..])
  }
}
