/** What every interleaving of the actors of Protocol keeps, however stale their reads: a sandbox
    is bound at most once in its life, its labels tell its claim, its booking and its identity
    never change again, and an ending phase is never left. */
module Safety {
  import opened Api
  import opened Lifecycle
  import opened ClaimBinding
  import opened Protocol

  // ---- One version ----

  predicate Installed(s: Sandbox) {
    s.deleting || s.finalizers == CHAIN
  }

  /** The claimed, tenant and request-id labels agree with the claim and with its snapshot. */
  predicate LabelsTellClaim(s: Sandbox) {
    && (!s.labels.claimed ==>
          s.spec.claim.None? && s.status.claimRef.None? && s.labels.tenant == "" && s.labels.requestId == "")
    && (s.spec.claim.Some? ==>
          && s.labels.tenant == s.spec.claim.value.tenant
          && s.labels.requestId == s.spec.claim.value.requestId)
    && (s.status.claimRef.Some? ==>
          && s.status.claimRef.value.claimedAt.Some?
          && s.labels.tenant == s.status.claimRef.value.tenant
          && s.labels.requestId == s.status.claimRef.value.requestId)
    && s.status.claimedCount == (if s.status.claimRef.Some? then 1 else 0)
  }

  predicate WellFormed(s: Sandbox) {
    && LabelsTellClaim(s)
    && (!s.deleting ==> s.finalizers == [] || s.finalizers == CHAIN)
    && (!s.status.phase.NoPhase? && !s.status.phase.Failed? ==> Installed(s))
    && (s.labels.draining ==> Installed(s))
    && (IsClaimedPhase(s.status.phase) ==> s.labels.claimed)
  }

  // ---- Two versions, the second committed later ----

  /** What no later version ever loses. */
  predicate Keeps(a: Sandbox, b: Sandbox) {
    && (a.labels.claimed ==> b.labels.(draining := a.labels.draining) == a.labels)
    && (a.labels.draining ==> b.labels.draining)
    && (IsEnding(a.status.phase) ==> IsEnding(b.status.phase))
    && (a.deleting ==> b.deleting)
    && (Installed(a) ==> Installed(b))
    && (a.status.sandboxId != "" ==> b.status.sandboxId == a.status.sandboxId)
    && (a.status.claimRef.Some? ==> b.status.claimRef == a.status.claimRef)
    && (a.status.podName != "" ==> b.status.podName == a.status.podName)
    && (a.status.provisionedAt.Some? ==> b.status.provisionedAt == a.status.provisionedAt)
    && a.name == b.name && a.uid == b.uid && a.createdAt == b.createdAt
  }

  /** What one commit may do. */
  predicate Follows(a: Sandbox, b: Sandbox) {
    && (a.spec.claim.None? && b.spec.claim.Some? ==>
          Listed(a) && Claimable(a) && b.labels.draining == a.labels.draining && b.deleting == a.deleting)
    && (!a.labels.draining && b.labels.draining ==> b.spec.claim == a.spec.claim && b.deleting == a.deleting)
    && (!a.labels.claimed && b.labels.claimed ==> b.spec.claim.Some?)
    && (a.spec.claim.Some? && b.spec.claim.Some? ==> b.spec.claim == a.spec.claim)
    && (b.status.phase == a.status.phase || PhaseEdge(a.status.phase, b.status.phase) || b.status.phase.Failed?)
    && (a.status.phase.Hibernating? && b.status.phase.Hibernated? ==> a.status.hibernation.Frozen?)
    && (a.status.phase.Resuming? && b.status.phase.Running? ==> a.status.hibernation.Active?)
    && (b.status.phase != a.status.phase ==> b.status.hibernation == a.status.hibernation)
  }

  predicate Allowed(a: Sandbox, b: Sandbox) {
    WellFormed(b) && Keeps(a, b) && Follows(a, b)
  }

  // ---- A history ----

  ghost predicate Inv(x: Object) {
    && x.Exists()
    && Created(x.versions[0])
    && (forall i | 0 <= i < |x.versions| :: WellFormed(x.versions[i]))
    && (forall i, j | 0 <= i <= j < |x.versions| :: Keeps(x.versions[i], x.versions[j]))
    && (forall i | 0 <= i < |x.versions| - 1 :: Follows(x.versions[i], x.versions[i + 1]))
    && (x.gone <==> x.Current().deleting && x.Current().finalizers == [])
  }

  lemma NewObjectInv(s: Sandbox)
    requires Created(s)
    ensures Inv(NewObject(s))
  {
  }

  lemma CommitKeepsInv(x: Object, s: Sandbox)
    requires Inv(x) && Allowed(x.Current(), s)
    ensures Inv(Commit(x, s))
  {
    var y := Commit(x, s);
    if y != x {
      var n := |x.versions|;
      forall i, j | 0 <= i <= j < |y.versions|
        ensures Keeps(y.versions[i], y.versions[j])
      {
        if j == n {
          assert i < n ==> Keeps(x.versions[i], x.Current());
        }
      }
      forall i | 0 <= i < |y.versions| - 1
        ensures Follows(y.versions[i], y.versions[i + 1])
      {
        if i < n - 1 {
          assert Follows(x.versions[i], x.versions[i + 1]);
        }
      }
    }
  }

  // ---- The writes, actor by actor ----

  lemma BindAllowed(s: Sandbox, c: Claim)
    requires WellFormed(s) && Listed(s) && Claimable(s)
    ensures Allowed(s, Bound(s, c))
  {
  }

  lemma MissingAll(chain: seq<Finalizer>)
    ensures Missing([], chain) == chain
  {
  }

  lemma InstallAllowed(s: Sandbox)
    requires WellFormed(s) && !s.deleting && LeaseCleanup !in s.finalizers
    ensures Allowed(s, WithFinalizers(s))
  {
    assert LeaseCleanup in CHAIN by {
      assert CHAIN[0] == LeaseCleanup;
    }
    MissingAll(CHAIN);
    assert [] + CHAIN == CHAIN;
  }

  /** Recording a claim keeps the labels truthful, and counts a sandbox's one claim once. */
  lemma RecordedAllowed(s: Sandbox, now: int)
    requires WellFormed(s)
    ensures WellFormed(Recorded(s, now)) && Keeps(s, Recorded(s, now))
    ensures Recorded(s, now).spec == s.spec
    ensures Recorded(s, now).status.phase == s.status.phase
    ensures Recorded(s, now).status.hibernation == s.status.hibernation
  {
    var t := WithSandboxId(s);
    assert WellFormed(t) && Keeps(s, t);
    if s.spec.claim.Some? && s.status.claimRef.Some? {
      assert AlreadyRecorded(t.status.claimRef, t.spec.claim.value);
    }
  }

  lemma AnnotatedAllowed(s: Sandbox, facts: Observation)
    requires WellFormed(s)
    ensures Allowed(s, Annotated(s, facts))
    ensures Annotated(s, facts).status.phase == s.status.phase
    ensures Annotated(s, facts).status.hibernation == s.status.hibernation
  {
    RecordedAllowed(s, facts.now);
  }

  lemma WriteStatusAllowed(s: Sandbox, facts: Observation, template: Option<TemplateDefaults>, pod: string)
    requires WellFormed(s) && !s.deleting && LeaseCleanup in s.finalizers && !IsEnding(s.status.phase)
    ensures Allowed(s, Reconciled(s, facts, template, pod))
    ensures Reconciled(s, facts, template, pod).status.hibernation == s.status.hibernation
  {
    AnnotatedAllowed(s, facts);
    var b := Annotated(s, facts);
    DecisionFollowsGraph(b, ApplyTemplateDefaults(b, template), Observed(s, facts));
  }

  lemma HibernationPatchAllowed(cur: Sandbox, copy: Sandbox, h: bool)
    requires WellFormed(cur)
    ensures Allowed(cur, HibernationPatched(cur, copy, h))
  {
  }

  lemma FailedPatchAllowed(cur: Sandbox, copy: Sandbox, why: RecycleReason)
    requires WellFormed(cur)
    ensures Allowed(cur, FailedPatch(cur, copy, why))
  {
  }

  lemma RuntimeStateAllowed(s: Sandbox, freeze: bool)
    requires WellFormed(s)
    ensures Allowed(s, WithRuntimeState(s, freeze))
  {
  }

  lemma ReleaseAllowed(s: Sandbox)
    requires WellFormed(s)
    ensures Allowed(s, s.(spec := s.spec.(claim := None)))
  {
  }

  /** A deletion, and the loss of finalizers of an object that is being deleted. */
  lemma DeletionAllowed(s: Sandbox, left: seq<Finalizer>)
    requires WellFormed(s)
    ensures Allowed(s, s.(deleting := true))
    ensures s.deleting ==> Allowed(s, s.(finalizers := left))
  {
  }

  /** The label is set on a copy that was stock, so the finalizers were installed by then. */
  lemma DrainingAllowed(cur: Sandbox, copy: Sandbox)
    requires WellFormed(cur) && WellFormed(copy) && Keeps(copy, cur) && DrainCandidate(copy)
    ensures Allowed(cur, cur.(labels := cur.labels.(draining := true)))
  {
  }

  lemma CasKeepsInv(x: Object, read: nat, s: Sandbox)
    requires Inv(x) && Reads(x, read) && Allowed(x.versions[read], s)
    ensures Inv(CommitIfCurrent(x, read, s))
  {
    if Won(x, read) {
      CommitKeepsInv(x, s);
    }
  }

  lemma CasStepKeepsInv(x: Object, step: Step)
    requires Inv(x) && Enabled(x, step)
    requires step.Bind? || step.Release? || step.InstallFinalizers? || step.WriteStatus?
    ensures Inv(Apply(x, step))
  {
    match step {
      case Bind(r, c) =>
        BindAllowed(x.versions[r], c);
        CasKeepsInv(x, r, Bound(x.versions[r], c));
      case Release(r, _) =>
        ReleaseAllowed(x.versions[r]);
        CasKeepsInv(x, r, x.versions[r].(spec := x.versions[r].spec.(claim := None)));
      case InstallFinalizers(r) =>
        InstallAllowed(x.versions[r]);
        CasKeepsInv(x, r, WithFinalizers(x.versions[r]));
      case WriteStatus(r, facts, template, pod) =>
        WriteStatusAllowed(x.versions[r], facts, template, pod);
        CasKeepsInv(x, r, Reconciled(x.versions[r], facts, template, pod));
    }
  }

  lemma PatchStepKeepsInv(x: Object, step: Step)
    requires Inv(x) && Enabled(x, step)
    requires step.SetHibernation? || step.MarkDraining? || step.MarkFailed?
    ensures Inv(Apply(x, step))
  {
    var cur := x.Current();
    match step {
      case SetHibernation(r, _, h) =>
        HibernationPatchAllowed(cur, x.versions[r], h);
        CommitKeepsInv(x, HibernationPatched(cur, x.versions[r], h));
      case MarkDraining(r) =>
        DrainingAllowed(cur, x.versions[r]);
        CommitKeepsInv(x, cur.(labels := cur.labels.(draining := true)));
      case MarkFailed(r, why) =>
        FailedPatchAllowed(cur, x.versions[r], why);
        CommitKeepsInv(x, FailedPatch(cur, x.versions[r], why));
    }
  }

  lemma DeletionStepKeepsInv(x: Object, step: Step)
    requires Inv(x) && Enabled(x, step)
    requires step.PoolDelete? || step.ReconcilerDelete? || step.ForceFinalize?
    ensures Inv(Apply(x, step))
  {
    var cur := x.Current();
    match step {
      case PoolDelete(_) =>
        DeletionAllowed(cur, []);
        CommitKeepsInv(x, cur.(deleting := true));
      case ReconcilerDelete(_) =>
        DeletionAllowed(cur, []);
        CommitKeepsInv(x, cur.(deleting := true));
      case ForceFinalize(r) =>
        assert Keeps(x.versions[r], cur);
        DeletionAllowed(cur, []);
        CommitKeepsInv(x.(forced := true), cur.(finalizers := []));
    }
  }

  lemma DropKeepsInv(x: Object, read: nat, left: seq<Finalizer>)
    requires Inv(x) && Reads(x, read) && x.versions[read].deleting
    ensures Inv(CommitIfCurrent(x, read, x.versions[read].(finalizers := left)))
  {
    DeletionAllowed(x.versions[read], left);
    CasKeepsInv(x, read, x.versions[read].(finalizers := left));
  }

  lemma ChainStepKeepsInv(x: Object, step: Step)
    requires Inv(x) && Enabled(x, step)
    requires step.Attempt? || step.DropFinalizer?
    ensures Inv(Apply(x, step))
  {
    if step.DropFinalizer? {
      var s := x.versions[step.read];
      DropKeepsInv(x, step.read, Without(s.finalizers, NextFinalizer(s.finalizers).value));
    }
  }

  lemma OnlyHistoryMatters(x: Object, y: Object)
    requires Inv(x) && y.versions == x.versions && y.gone == x.gone
    ensures Inv(y)
  {
  }

  lemma AgentStepKeepsInv(x: Object, step: Step)
    requires Inv(x) && Enabled(x, step)
    requires step.AgentList? || step.AgentCgroup? || step.AgentStatus? || step.AgentGiveUp?
    ensures Inv(Apply(x, step))
  {
    if step.AgentStatus? {
      var s := WithRuntimeState(x.versions[step.read], x.task.freeze);
      RuntimeStateAllowed(x.versions[step.read], x.task.freeze);
      CasKeepsInv(x, step.read, s);
      OnlyHistoryMatters(CommitIfCurrent(x, step.read, s), Apply(x, step));
    } else {
      OnlyHistoryMatters(x, Apply(x, step));
    }
  }

  lemma StepKeepsInv(x: Object, step: Step)
    requires Inv(x) && Enabled(x, step)
    ensures Inv(Apply(x, step))
  {
    match step {
      case Bind(_, _) => CasStepKeepsInv(x, step);
      case Release(_, _) => CasStepKeepsInv(x, step);
      case InstallFinalizers(_) => CasStepKeepsInv(x, step);
      case WriteStatus(_, _, _, _) => CasStepKeepsInv(x, step);
      case SetHibernation(_, _, _) => PatchStepKeepsInv(x, step);
      case MarkDraining(_) => PatchStepKeepsInv(x, step);
      case MarkFailed(_, _) => PatchStepKeepsInv(x, step);
      case PoolDelete(_) => DeletionStepKeepsInv(x, step);
      case ReconcilerDelete(_) => DeletionStepKeepsInv(x, step);
      case Attempt(_) => ChainStepKeepsInv(x, step);
      case DropFinalizer(_) => ChainStepKeepsInv(x, step);
      case ForceFinalize(_) => DeletionStepKeepsInv(x, step);
      case _ => AgentStepKeepsInv(x, step);
    }
  }

  lemma {:induction false} RunKeepsInv(x: Object, run: seq<Step>)
    requires Inv(x) && Legal(x, run)
    ensures Inv(After(x, run))
    decreases |run|
  {
    if run != [] {
      StepKeepsInv(x, run[0]);
      RunKeepsInv(Apply(x, run[0]), run[1..]);
    }
  }

  // ---- What this means for a history ----

  /** Version i was unclaimed and the next commit claimed it. */
  predicate BindsAt(x: Object, i: nat) {
    i + 1 < |x.versions| && x.versions[i].spec.claim.None? && x.versions[i + 1].spec.claim.Some?
  }

  /** In its whole life a sandbox is bound at most once, and not at all if it was created for a
      request; at the commit it was ready, unclaimed, listed as stock and not being deleted. */
  ghost predicate BoundOnce(x: Object) {
    && (forall i: nat, j: nat | BindsAt(x, i) && BindsAt(x, j) :: i == j)
    && (forall i: nat | BindsAt(x, i) ::
          Claimable(x.versions[i]) && Listed(x.versions[i]) && x.versions[0].spec.claim.None?)
  }

  /** Whoever the sandbox ever belonged to, it was the same claim, and labels, snapshot and
      reuse count tell it: the count never exceeds one. */
  ghost predicate OneBooking(x: Object) {
    && (forall i, j | 0 <= i < |x.versions| && 0 <= j < |x.versions| ::
          x.versions[i].spec.claim.Some? && x.versions[j].spec.claim.Some?
          ==> x.versions[i].spec.claim == x.versions[j].spec.claim)
    && (forall i | 0 <= i < |x.versions| ::
          LabelsTellClaim(x.versions[i]) && 0 <= x.versions[i].status.claimedCount <= 1)
    && (forall i | 0 <= i < |x.versions| ::
          IsClaimedPhase(x.versions[i].status.phase) ==> x.versions[i].labels.claimed)
  }

  /** An ending phase, a started deletion, the public handle, the claim snapshot, the one Pod and
      the time it was first ready are final. */
  ghost predicate NothingReturns(x: Object) {
    forall i, j | 0 <= i <= j < |x.versions| ::
      var a, b := x.versions[i], x.versions[j];
      && (IsEnding(a.status.phase) ==> IsEnding(b.status.phase))
      && (a.deleting ==> b.deleting)
      && (a.status.sandboxId != "" ==> b.status.sandboxId == a.status.sandboxId)
      && (a.status.claimRef.Some? ==> b.status.claimRef == a.status.claimRef)
      && (a.status.podName != "" ==> b.status.podName == a.status.podName)
      && (a.status.provisionedAt.Some? ==> b.status.provisionedAt == a.status.provisionedAt)
  }

  /** Phases move along the graph only, but for the sweeper's shortcut into Failed. */
  ghost predicate PhasesFollowGraph(x: Object) {
    forall i | 0 <= i < |x.versions| - 1 ::
      var p, q := x.versions[i].status.phase, x.versions[i + 1].status.phase;
      p == q || PhaseEdge(p, q) || q.Failed?
  }

  lemma {:induction false} InvGivesBoundOnce(x: Object)
    requires Inv(x)
    ensures BoundOnce(x)
  {
    forall i: nat, j: nat | BindsAt(x, i) && BindsAt(x, j)
      ensures i == j
    {
      NoSecondBind(x, i, j);
      NoSecondBind(x, j, i);
    }
    forall i: nat | BindsAt(x, i)
      ensures Claimable(x.versions[i]) && Listed(x.versions[i]) && x.versions[0].spec.claim.None?
    {
      assert Follows(x.versions[i], x.versions[i + 1]);
      assert Keeps(x.versions[0], x.versions[i]);
    }
  }

  lemma {:induction false} NoSecondBind(x: Object, i: nat, j: nat)
    requires Inv(x) && BindsAt(x, i) && BindsAt(x, j)
    ensures j <= i
  {
    assert i < j ==> Keeps(x.versions[i + 1], x.versions[j]);
    assert Follows(x.versions[j], x.versions[j + 1]);
  }

  /** A claim present at two versions is the same claim: it can only have been released between. */
  lemma {:induction false} SameClaim(x: Object, i: nat, j: nat)
    requires Inv(x) && i <= j < |x.versions|
    requires x.versions[i].spec.claim.Some? && x.versions[j].spec.claim.Some?
    ensures x.versions[i].spec.claim == x.versions[j].spec.claim
    decreases j
  {
    if i < j {
      assert Follows(x.versions[j - 1], x.versions[j - 1 + 1]);
      assert Keeps(x.versions[i], x.versions[j - 1]);
      SameClaim(x, i, j - 1);
    }
  }

  lemma InvGivesOneBooking(x: Object)
    requires Inv(x)
    ensures OneBooking(x)
  {
    forall i, j | 0 <= i < |x.versions| && 0 <= j < |x.versions|
      && x.versions[i].spec.claim.Some? && x.versions[j].spec.claim.Some?
      ensures x.versions[i].spec.claim == x.versions[j].spec.claim
    {
      if i <= j {
        SameClaim(x, i, j);
      } else {
        SameClaim(x, j, i);
      }
    }
  }

  /** Every interleaving of every actor, from any new object, with reads as stale as may be. */
  lemma EveryRunIsSafe(s: Sandbox, run: seq<Step>)
    requires Created(s) && Legal(NewObject(s), run)
    ensures
      var x := After(NewObject(s), run);
      BoundOnce(x) && OneBooking(x) && NothingReturns(x) && PhasesFollowGraph(x)
  {
    NewObjectInv(s);
    RunKeepsInv(NewObject(s), run);
    var x := After(NewObject(s), run);
    InvGivesBoundOnce(x);
    InvGivesOneBooking(x);
    forall i, j | 0 <= i <= j < |x.versions|
      ensures Keeps(x.versions[i], x.versions[j])
    {
    }
    forall i | 0 <= i < |x.versions| - 1
      ensures Follows(x.versions[i], x.versions[i + 1])
    {
    }
  }
}
