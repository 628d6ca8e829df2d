/** The freeze handshake between the sandbox reconciler and the node agent. The reconciler reads
    as stale as it likes; the agent may crash between any two of its effects and its clean-up may
    half succeed, but its own reads never go back in time: its client reads the API server
    directly (cmd/node-agent/main.go:46). */
module Freeze {
  import opened Api
  import opened Lifecycle
  import opened Protocol
  import opened Safety

  predicate ReadsForward(x: Object, step: Step) {
    step.AgentList? || step.AgentStatus? ==> step.read >= x.agentSeen
  }

  predicate LegalForward(x: Object, run: seq<Step>)
    decreases |run|
  {
    run == [] || (Enabled(x, run[0]) && ReadsForward(x, run[0]) && LegalForward(Apply(x, run[0]), run[1..]))
  }

  /** Phases in which the sandbox must be able to run. */
  predicate Awake(p: Phase) {
    p.NoPhase? || p.Pending? || p.Provisioning? || p.Ready? || p.Running? || p.Idle?
  }

  predicate StateFitsPhase(s: Sandbox) {
    var state := s.status.hibernation;
    match s.status.phase
    case Hibernating => state.NoState? || state.Active? || state.Frozen?
    case Hibernated => state.Frozen?
    case Resuming => state.Frozen? || state.Active?
    case _ => Awake(s.status.phase) ==> state.NoState? || state.Active?
  }

  /** The agent may still act on version j: it is working on it, or its next read may return it. */
  predicate Visible(x: Object, j: nat) {
    j < |x.versions| && (j >= x.agentSeen || (!x.task.NoTask? && j == x.task.at))
  }

  predicate VisibleFreeze(x: Object, j: nat) {
    Visible(x, j) && WantsFreeze(x.versions[j])
  }

  predicate VisibleThaw(x: Object, j: nat) {
    Visible(x, j) && WantsThaw(x.versions[j])
  }

  // While the agent may still freeze, the reconciler has not woken the sandbox; while it may
  // still thaw, the sandbox has not been frozen again.

  predicate NotYetAwake(s: Sandbox) {
    var st := s.status;
    st.phase.Hibernating? || st.phase.Hibernated? || IsEnding(st.phase)
    || (st.phase.Resuming? && st.hibernation.Frozen?)
  }

  predicate NotYetRefrozen(s: Sandbox) {
    var st := s.status;
    st.phase.Resuming? || IsEnding(st.phase)
    || (st.hibernation.Active? && (Awake(st.phase) || st.phase.Hibernating?))
  }

  predicate MidThaw(s: Sandbox) {
    IsEnding(s.status.phase) || (s.status.phase.Resuming? && s.status.hibernation.Frozen?)
  }

  predicate MidFreeze(s: Sandbox) {
    IsEnding(s.status.phase) || (s.status.phase.Hibernating? && s.status.hibernation.Active?)
  }

  ghost predicate WindowInv(x: Object)
    requires x.Exists()
  {
    var cur := x.Current();
    && (forall f: nat :: VisibleFreeze(x, f) ==> NotYetAwake(cur))
    && (forall t: nat :: VisibleThaw(x, t) ==> NotYetRefrozen(cur))
    && (forall f: nat, t: nat :: VisibleFreeze(x, f) && VisibleThaw(x, t) && f < t ==> MidThaw(cur))
    && (forall f: nat, t: nat :: VisibleFreeze(x, f) && VisibleThaw(x, t) && t < f ==> MidFreeze(cur))
  }

  predicate TaskInv(x: Object) {
    match x.task
    case NoTask => x.agentSeen < |x.versions|
    case ToCgroup(freeze, at) =>
      && at <= x.agentSeen < |x.versions|
      && (if freeze then WantsFreeze(x.versions[at]) else WantsThaw(x.versions[at]))
    case ToStatus(freeze, at) =>
      && at <= x.agentSeen < |x.versions|
      && (if freeze then WantsFreeze(x.versions[at]) else WantsThaw(x.versions[at]))
      && x.cgroupFrozen == freeze
  }

  /** Where the cgroup stands is known from the phase and the recorded state. */
  predicate CgroupInv(x: Object)
    requires x.Exists()
  {
    var st := x.Current().status;
    && (Awake(st.phase) ==> !x.cgroupFrozen)
    && (st.phase.Resuming? && st.hibernation.Active? ==> !x.cgroupFrozen)
    && (st.phase.Hibernated? ==> x.cgroupFrozen)
    && (st.phase.Hibernating? && st.hibernation.Frozen? ==> x.cgroupFrozen)
  }

  ghost predicate FreezeInv(x: Object) {
    && Inv(x)
    && (forall i | 0 <= i < |x.versions| :: StateFitsPhase(x.versions[i]))
    && TaskInv(x) && CgroupInv(x) && WindowInv(x)
  }

  /** The agent sees less than before: nothing it could not already act on. */
  lemma NarrowerView(x: Object, y: Object)
    requires FreezeInv(x) && y.versions == x.versions && y.gone == x.gone
    requires forall j: nat :: Visible(y, j) ==> Visible(x, j)
    requires TaskInv(y) && CgroupInv(y)
    ensures FreezeInv(y)
  {
    assert forall j: nat :: VisibleFreeze(y, j) ==> VisibleFreeze(x, j);
    assert forall j: nat :: VisibleThaw(y, j) ==> VisibleThaw(x, j);
  }

  // ---- Writers other than the agent ----

  lemma OthersKeepFit(a: Sandbox, b: Sandbox)
    requires StateFitsPhase(a) && Follows(a, b) && b.status.hibernation == a.status.hibernation
    ensures StateFitsPhase(b)
    ensures NotYetAwake(a) ==> NotYetAwake(b)
    ensures NotYetRefrozen(a) ==> NotYetRefrozen(b)
    ensures MidThaw(a) ==> MidThaw(b)
    ensures MidFreeze(a) ==> MidFreeze(b)
    ensures WantsFreeze(b) ==> NotYetAwake(b)
    ensures WantsThaw(b) ==> NotYetRefrozen(b)
    ensures WantsThaw(b) ==> b.status.hibernation.Frozen?
  {
  }

  /** One more version, written by somebody else, seen by an agent that is where it was. */
  predicate Appended(x: Object, y: Object, s: Sandbox) {
    y.versions == x.versions + [s] && y.agentSeen == x.agentSeen && y.task == x.task && y.cgroupFrozen == x.cgroupFrozen
  }

  lemma OthersKeepWindow(x: Object, y: Object, s: Sandbox)
    requires x.Exists() && TaskInv(x) && WindowInv(x)
    requires StateFitsPhase(x.Current()) && Follows(x.Current(), s)
    requires s.status.hibernation == x.Current().status.hibernation
    requires Appended(x, y, s)
    ensures TaskInv(y) && WindowInv(y)
  {
    OthersKeepFit(x.Current(), s);
    var n := |x.versions|;
    assert forall j: nat | j < n :: y.versions[j] == x.versions[j];
    assert forall f: nat | f < n :: VisibleFreeze(y, f) == VisibleFreeze(x, f);
    assert forall t: nat | t < n :: VisibleThaw(y, t) == VisibleThaw(x, t);
    assert y.versions[n] == s;
  }

  lemma OthersKeepCgroup(x: Object, y: Object, s: Sandbox)
    requires x.Exists() && CgroupInv(x)
    requires StateFitsPhase(x.Current()) && Follows(x.Current(), s)
    requires s.status.hibernation == x.Current().status.hibernation
    requires Appended(x, y, s)
    ensures CgroupInv(y)
  {
    assert y.Current() == s;
  }

  lemma OthersKeepFreezeInv(x: Object, s: Sandbox)
    requires FreezeInv(x) && Allowed(x.Current(), s)
    requires s.status.hibernation == x.Current().status.hibernation
    ensures FreezeInv(Commit(x, s))
  {
    CommitKeepsInv(x, s);
    var y := Commit(x, s);
    if y != x {
      assert StateFitsPhase(x.Current());
      OthersKeepFit(x.Current(), s);
      OthersKeepWindow(x, y, s);
      OthersKeepCgroup(x, y, s);
    }
  }

  /** No actor but the agent touches the recorded runtime state. */
  lemma OthersWriteNoState(s: Sandbox, facts: Observation, template: Option<TemplateDefaults>, pod: string)
    requires WellFormed(s)
    ensures Reconciled(s, facts, template, pod).status.hibernation == s.status.hibernation
  {
    AnnotatedAllowed(s, facts);
  }

  lemma CasOfOthers(x: Object, read: nat, s: Sandbox)
    requires FreezeInv(x) && Reads(x, read) && Allowed(x.versions[read], s)
    requires s.status.hibernation == x.versions[read].status.hibernation
    ensures FreezeInv(CommitIfCurrent(x, read, s))
  {
    if Won(x, read) {
      OthersKeepFreezeInv(x, s);
    }
  }

  lemma CasStepKeepsFreeze(x: Object, step: Step)
    requires FreezeInv(x) && Enabled(x, step)
    requires step.Bind? || step.Release? || step.InstallFinalizers? || step.WriteStatus?
    ensures FreezeInv(Apply(x, step))
  {
    var s := x.versions[step.read];
    match step {
      case Bind(r, c) =>
        BindAllowed(s, c);
        CasOfOthers(x, r, Bound(s, c));
      case Release(r, _) =>
        ReleaseAllowed(s);
        CasOfOthers(x, r, s.(spec := s.spec.(claim := None)));
      case InstallFinalizers(r) =>
        InstallAllowed(s);
        CasOfOthers(x, r, WithFinalizers(s));
      case WriteStatus(r, facts, template, pod) =>
        WriteStatusAllowed(s, facts, template, pod);
        OthersWriteNoState(s, facts, template, pod);
        CasOfOthers(x, r, Reconciled(s, facts, template, pod));
    }
  }

  lemma PatchStepKeepsFreeze(x: Object, step: Step)
    requires FreezeInv(x) && Enabled(x, step)
    requires step.SetHibernation? || step.MarkDraining? || step.MarkFailed?
    ensures FreezeInv(Apply(x, step))
  {
    var cur, s := x.Current(), x.versions[step.read];
    match step {
      case SetHibernation(_, _, h) =>
        HibernationPatchAllowed(cur, s, h);
        OthersKeepFreezeInv(x, HibernationPatched(cur, s, h));
      case MarkDraining(_) =>
        DrainingAllowed(cur, s);
        OthersKeepFreezeInv(x, cur.(labels := cur.labels.(draining := true)));
      case MarkFailed(_, why) =>
        FailedPatchAllowed(cur, s, why);
        OthersKeepFreezeInv(x, FailedPatch(cur, s, why));
    }
  }

  lemma DropKeepsFreeze(x: Object, read: nat, left: seq<Finalizer>)
    requires FreezeInv(x) && Reads(x, read) && x.versions[read].deleting
    ensures FreezeInv(CommitIfCurrent(x, read, x.versions[read].(finalizers := left)))
  {
    DeletionAllowed(x.versions[read], left);
    CasOfOthers(x, read, x.versions[read].(finalizers := left));
  }

  lemma DeleteKeepsFreeze(x: Object)
    requires FreezeInv(x)
    ensures FreezeInv(Delete(x))
  {
    DeletionAllowed(x.Current(), []);
    OthersKeepFreezeInv(x, x.Current().(deleting := true));
  }

  lemma ForceKeepsFreeze(x: Object, read: nat)
    requires FreezeInv(x) && Reads(x, read) && x.versions[read].deleting
    ensures FreezeInv(Commit(x.(forced := true), x.Current().(finalizers := [])))
  {
    var cur := x.Current();
    assert Keeps(x.versions[read], x.versions[|x.versions| - 1]);
    DeletionAllowed(cur, []);
    NarrowerView(x, x.(forced := true));
    OthersKeepFreezeInv(x.(forced := true), cur.(finalizers := []));
  }

  lemma DeletionStepKeepsFreeze(x: Object, step: Step)
    requires FreezeInv(x) && Enabled(x, step)
    requires step.PoolDelete? || step.ReconcilerDelete? || step.ForceFinalize?
    ensures FreezeInv(Apply(x, step))
  {
    match step {
      case PoolDelete(_) => DeleteKeepsFreeze(x);
      case ReconcilerDelete(_) => DeleteKeepsFreeze(x);
      case ForceFinalize(r) => ForceKeepsFreeze(x, r);
    }
  }

  lemma ChainStepKeepsFreeze(x: Object, step: Step)
    requires FreezeInv(x) && Enabled(x, step)
    requires step.Attempt? || step.DropFinalizer?
    ensures FreezeInv(Apply(x, step))
  {
    if step.DropFinalizer? {
      var s := x.versions[step.read];
      DropKeepsFreeze(x, step.read, Without(s.finalizers, NextFinalizer(s.finalizers).value));
    } else {
      NarrowerView(x, Apply(x, step));
    }
  }

  // ---- The agent ----

  lemma AgentListKeepsFreeze(x: Object, read: nat)
    requires FreezeInv(x) && Enabled(x, AgentList(read)) && read >= x.agentSeen
    ensures FreezeInv(Apply(x, AgentList(read)))
  {
    NarrowerView(x, Apply(x, AgentList(read)));
  }

  /** The cgroup is set while the window is still open, and the agent sees no more than before. */
  lemma CgroupIsSet(x: Object, written: bool, confirmed: bool)
    requires x.Exists() && TaskInv(x) && CgroupInv(x) && WindowInv(x) && Enabled(x, AgentCgroup(written, confirmed))
    ensures
      var y := Apply(x, AgentCgroup(written, confirmed));
      && y.versions == x.versions && y.gone == x.gone && TaskInv(y) && CgroupInv(y)
      && forall j: nat :: Visible(y, j) ==> Visible(x, j)
  {
    AgentWindowNow(x);
  }

  lemma AgentCgroupKeepsFreeze(x: Object, written: bool, confirmed: bool)
    requires FreezeInv(x) && Enabled(x, AgentCgroup(written, confirmed))
    ensures FreezeInv(Apply(x, AgentCgroup(written, confirmed)))
  {
    CgroupIsSet(x, written, confirmed);
    NarrowerView(x, Apply(x, AgentCgroup(written, confirmed)));
  }

  /** Writing Frozen happens only on the way to sleep, writing Active only on the way out. */
  lemma AgentWriteFits(cur: Sandbox, freeze: bool)
    requires StateFitsPhase(cur)
    requires if freeze then NotYetAwake(cur) else NotYetRefrozen(cur)
    ensures
      var s := WithRuntimeState(cur, freeze);
      && StateFitsPhase(s)
      && (if freeze then NotYetAwake(s) else NotYetRefrozen(s))
      && !(freeze && WantsFreeze(s)) && !(!freeze && WantsThaw(s))
      && (freeze && WantsThaw(s) ==> MidThaw(s))
      && (!freeze && WantsFreeze(s) ==> MidFreeze(s))
      && (!freeze && WantsThaw(cur) && NotYetAwake(s) ==> IsEnding(s.status.phase))
  {
  }

  /** The agent may still be acting on what it listed, so the window holds for that. */
  lemma AgentWindowNow(x: Object)
    requires x.Exists() && TaskInv(x) && WindowInv(x) && !x.task.NoTask?
    ensures if x.task.freeze then NotYetAwake(x.Current()) else NotYetRefrozen(x.Current())
    ensures x.task.at < x.Latest() && x.task.freeze && WantsThaw(x.Current()) ==> MidThaw(x.Current())
    ensures x.task.at < x.Latest() && !x.task.freeze && WantsFreeze(x.Current()) ==> MidFreeze(x.Current())
  {
    assert Visible(x, x.task.at) && Visible(x, x.Latest());
    assert if x.task.freeze then VisibleFreeze(x, x.task.at) else VisibleThaw(x, x.task.at);
    assert WantsThaw(x.Current()) ==> VisibleThaw(x, x.Latest());
    assert WantsFreeze(x.Current()) ==> VisibleFreeze(x, x.Latest());
  }

  /** After the write only the version read and the version written are still visible. */
  lemma AgentWindowAfter(x: Object, y: Object)
    requires x.Exists() && TaskInv(x) && WindowInv(x) && x.task.ToStatus? && StateFitsPhase(x.Current())
    requires y.versions == x.versions + [WithRuntimeState(x.Current(), x.task.freeze)]
    requires y.agentSeen == x.Latest() && y.task.NoTask?
    ensures WindowInv(y)
  {
    AgentWindowNow(x);
    AgentWriteFits(x.Current(), x.task.freeze);
    var n := x.Latest();
    assert forall j: nat :: Visible(y, j) ==> j == n || j == n + 1;
    assert y.versions[n] == x.Current() && y.Current() == y.versions[n + 1];
  }

  lemma AgentCgroupAfter(x: Object, y: Object)
    requires x.Exists() && TaskInv(x) && CgroupInv(x) && WindowInv(x) && x.task.ToStatus?
    requires y.versions == x.versions + [WithRuntimeState(x.Current(), x.task.freeze)]
    requires y.cgroupFrozen == x.cgroupFrozen
    ensures CgroupInv(y)
  {
    AgentWindowNow(x);
    assert y.Current() == WithRuntimeState(x.Current(), x.task.freeze);
  }

  lemma AgentRecords(x: Object)
    requires FreezeInv(x) && x.task.ToStatus? && !x.gone
    ensures FreezeInv(Commit(x, WithRuntimeState(x.Current(), x.task.freeze)).(agentSeen := x.Latest(), task := NoTask))
  {
    var cur := x.Current();
    var s := WithRuntimeState(cur, x.task.freeze);
    var y := Commit(x, s).(agentSeen := x.Latest(), task := NoTask);
    if s == cur {
      NarrowerView(x, y);
    } else {
      assert StateFitsPhase(cur);
      RuntimeStateAllowed(cur, x.task.freeze);
      CommitKeepsInv(x, s);
      AgentWindowNow(x);
      AgentWriteFits(cur, x.task.freeze);
      AgentWindowAfter(x, y);
      AgentCgroupAfter(x, y);
    }
  }

  lemma WonStatus(x: Object, read: nat)
    requires Enabled(x, AgentStatus(read)) && Won(x, read)
    ensures
      Apply(x, AgentStatus(read))
      == Commit(x, WithRuntimeState(x.Current(), x.task.freeze)).(agentSeen := x.Latest(), task := NoTask)
  {
  }

  lemma AgentStatusKeepsFreeze(x: Object, read: nat)
    requires FreezeInv(x) && Enabled(x, AgentStatus(read)) && read >= x.agentSeen
    ensures FreezeInv(Apply(x, AgentStatus(read)))
  {
    if Won(x, read) {
      AgentRecords(x);
      WonStatus(x, read);
    } else {
      NarrowerView(x, Apply(x, AgentStatus(read)));
    }
  }

  lemma StepKeepsFreezeInv(x: Object, step: Step)
    requires FreezeInv(x) && Enabled(x, step) && ReadsForward(x, step)
    ensures FreezeInv(Apply(x, step))
  {
    match step {
      case Bind(_, _) => CasStepKeepsFreeze(x, step);
      case Release(_, _) => CasStepKeepsFreeze(x, step);
      case InstallFinalizers(_) => CasStepKeepsFreeze(x, step);
      case WriteStatus(_, _, _, _) => CasStepKeepsFreeze(x, step);
      case SetHibernation(_, _, _) => PatchStepKeepsFreeze(x, step);
      case MarkDraining(_) => PatchStepKeepsFreeze(x, step);
      case MarkFailed(_, _) => PatchStepKeepsFreeze(x, step);
      case PoolDelete(_) => DeletionStepKeepsFreeze(x, step);
      case ReconcilerDelete(_) => DeletionStepKeepsFreeze(x, step);
      case ForceFinalize(_) => DeletionStepKeepsFreeze(x, step);
      case Attempt(_) => ChainStepKeepsFreeze(x, step);
      case DropFinalizer(_) => ChainStepKeepsFreeze(x, step);
      case AgentList(r) => AgentListKeepsFreeze(x, r);
      case AgentCgroup(w, c) => AgentCgroupKeepsFreeze(x, w, c);
      case AgentStatus(r) => AgentStatusKeepsFreeze(x, r);
      case AgentGiveUp => NarrowerView(x, Apply(x, step));
    }
  }

  lemma {:induction false} RunKeepsFreezeInv(x: Object, run: seq<Step>)
    requires FreezeInv(x) && LegalForward(x, run)
    ensures Legal(x, run) && FreezeInv(After(x, run))
    decreases |run|
  {
    if run != [] {
      StepKeepsFreezeInv(x, run[0]);
      RunKeepsFreezeInv(Apply(x, run[0]), run[1..]);
    }
  }

  // ---- What the handshake guarantees ----

  /** A sandbox that is running, idle or in stock is not frozen, neither in fact nor on record;
      one that is hibernated is frozen in both. */
  predicate HandshakeHolds(x: Object)
    requires x.Exists()
  {
    var st := x.Current().status;
    && (Awake(st.phase) ==> !x.cgroupFrozen && !st.hibernation.Frozen?)
    && (st.phase.Hibernated? ==> x.cgroupFrozen && st.hibernation.Frozen?)
  }

  lemma InvGivesHandshake(x: Object)
    requires x.Exists() && StateFitsPhase(x.Current()) && CgroupInv(x)
    ensures HandshakeHolds(x)
  {
  }

  lemma {:induction false} EveryRunKeepsHandshake(s: Sandbox, run: seq<Step>)
    requires Created(s) && LegalForward(NewObject(s), run)
    ensures Legal(NewObject(s), run)
    ensures FreezeInv(After(NewObject(s), run)) && HandshakeHolds(After(NewObject(s), run))
  {
    NewObjectInv(s);
    RunKeepsFreezeInv(NewObject(s), run);
  }

  predicate GrowsByOne(x: Object, y: Object) {
    y.versions == x.versions || (|y.versions| == |x.versions| + 1 && y.versions[..|x.versions|] == x.versions)
  }

  lemma CommitGrows(x: Object, s: Sandbox)
    requires x.Exists()
    ensures GrowsByOne(x, Commit(x, s))
    ensures forall read: nat :: GrowsByOne(x, CommitIfCurrent(x, read, s))
  {
  }

  /** Every step appends at most one version. */
  lemma StepGrows(x: Object, step: Step)
    requires Enabled(x, step)
    ensures GrowsByOne(x, Apply(x, step))
  {
    match step {
      case Bind(r, c) => CommitGrows(x, Bound(x.versions[r], c));
      case Release(r, _) => CommitGrows(x, x.versions[r].(spec := x.versions[r].spec.(claim := None)));
      case SetHibernation(r, _, h) => CommitGrows(x, HibernationPatched(x.Current(), x.versions[r], h));
      case MarkDraining(_) => CommitGrows(x, x.Current().(labels := x.Current().labels.(draining := true)));
      case PoolDelete(_) => CommitGrows(x, x.Current().(deleting := true));
      case InstallFinalizers(r) => CommitGrows(x, WithFinalizers(x.versions[r]));
      case WriteStatus(r, facts, template, pod) => CommitGrows(x, Reconciled(x.versions[r], facts, template, pod));
      case ReconcilerDelete(_) => CommitGrows(x, x.Current().(deleting := true));
      case DropFinalizer(r) =>
        var s := x.versions[r];
        CommitGrows(x, s.(finalizers := Without(s.finalizers, NextFinalizer(s.finalizers).value)));
      case AgentStatus(r) => CommitGrows(x, WithRuntimeState(x.versions[r], x.task.freeze));
      case MarkFailed(r, why) => CommitGrows(x, FailedPatch(x.Current(), x.versions[r], why));
      case ForceFinalize(_) => CommitGrows(x.(forced := true), x.Current().(finalizers := []));
      case _ =>
    }
  }

  /** Running is re-entered from Resuming only after the thaw: the step that does it finds the
      cgroup running and the state recorded as active. */
  lemma ThawComesFirst(x: Object, step: Step)
    requires FreezeInv(x) && Enabled(x, step)
    requires x.Current().status.phase.Resuming? && Apply(x, step).Exists()
        && Apply(x, step).Current().status.phase.Running?
    ensures !x.cgroupFrozen && x.Current().status.hibernation.Active?
  {
    StepKeepsInv(x, step);
    StepGrows(x, step);
    var y := Apply(x, step);
    var n := |x.versions|;
    assert |y.versions| == n + 1 && y.versions[..n][n - 1] == x.Current();
    assert Follows(y.versions[n - 1], y.versions[n - 1 + 1]);
  }
}
