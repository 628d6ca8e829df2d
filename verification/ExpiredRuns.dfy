/** What the TTL bounds in the life of a sandbox that any number of actors work on: how often its phase
    can still change once every decision about it finds the TTL expired. */
module ExpiredRuns {
  import opened Api
  import opened Lifecycle
  import opened LifecycleRuns
  import opened Protocol
  import opened Freeze
  import Safety

  /** The turn that a status write of the sandbox reconciler is about. */
  function TurnOf(s: Sandbox, facts: Observation, template: Option<TemplateDefaults>): Turn {
    var b := Annotated(s, facts);
    Turn(b, ApplyTemplateDefaults(b, template), Observed(s, facts))
  }

  /** If the step is a decision, it finds the TTL expired. */
  predicate FindsExpired(x: Object, step: Step)
    requires Enabled(x, step)
  {
    step.WriteStatus? ==> TurnOf(x.versions[step.read], step.facts, step.template).Expired()
  }

  /** A run in which every decision, on however old a copy, finds the TTL expired. */
  predicate LegalExpired(x: Object, run: seq<Step>)
    decreases |run|
  {
    run == [] || (Enabled(x, run[0]) && FindsExpired(x, run[0]) && LegalExpired(Apply(x, run[0]), run[1..]))
  }

  lemma {:induction false} ExpiredIsLegal(x: Object, run: seq<Step>)
    requires LegalExpired(x, run)
    ensures Legal(x, run)
    decreases |run|
  {
    if run != [] {
      ExpiredIsLegal(Apply(x, run[0]), run[1..]);
    }
  }

  /** How often the phase changes from one version to the next, other than into Failed. */
  function Changes(v: seq<Sandbox>): nat {
    if |v| < 2 then 0
    else
      var p, q := v[|v| - 2].status.phase, v[|v| - 1].status.phase;
      Changes(v[..|v| - 1]) + if p != q && !q.Failed? then 1 else 0
  }

  /** How many more phase changes an expired sandbox can make. */
  function ExpiredRank(p: Phase): nat {
    match p
    case NoPhase => 4
    case Pending => 4
    case Provisioning => 3
    case Ready => 2
    case Hibernating => 2
    case Resuming => 2
    case Running => 1
    case Idle => 1
    case Hibernated => 1
    case _ => 0
  }

  /** An expired decision leaves the phase or lowers its rank, and starts no freeze and no thaw. */
  predicate ExpiredMove(p: Phase, q: Phase) {
    p == q || (ExpiredRank(q) < ExpiredRank(p) && !q.Hibernating? && !q.Resuming?)
  }

  lemma ExpiredDecisionDescends(t: Turn)
    requires t.Expired() && !t.sbx.deleting
    ensures ExpiredMove(t.Phase(), PhaseAfter(t.sbx, t.Decide()))
  {
    if IsClaimedPhase(t.Phase()) {
      ExpiredDecision(t);
    }
  }

  lemma WritePhase(s: Sandbox, facts: Observation, template: Option<TemplateDefaults>, pod: string)
    ensures
      var t := TurnOf(s, facts, template);
      && t.Phase() == s.status.phase && t.sbx.deleting == s.deleting
      && Reconciled(s, facts, template, pod).status.phase == PhaseAfter(t.sbx, t.Decide())
  {
  }

  lemma WriteDescends(s: Sandbox, facts: Observation, template: Option<TemplateDefaults>, pod: string)
    requires !s.deleting && TurnOf(s, facts, template).Expired()
    ensures ExpiredMove(s.status.phase, Reconciled(s, facts, template, pod).status.phase)
  {
    WritePhase(s, facts, template, pod);
    ExpiredDecisionDescends(TurnOf(s, facts, template));
  }

  lemma WriteCommits(x: Object, read: nat, s: Sandbox)
    requires x.Exists() && Reads(x, read)
    ensures CommitIfCurrent(x, read, s).Exists()
    ensures
      var y := CommitIfCurrent(x, read, s);
      y.Current() == x.Current() || (y.Current() == s && x.Current() == x.versions[read])
  {
  }

  /** What one step of such a run may do to the phase. */
  lemma StepDescends(x: Object, step: Step)
    requires Enabled(x, step) && FindsExpired(x, step)
    ensures Apply(x, step).Exists()
    ensures
      var p, q := x.Current().status.phase, Apply(x, step).Current().status.phase;
      ExpiredMove(p, q) || q.Failed?
  {
    if step.WriteStatus? {
      var s := x.versions[step.read];
      WriteDescends(s, step.facts, step.template, step.pod);
      WriteCommits(x, step.read, Reconciled(s, step.facts, step.template, step.pod));
    } else {
      OtherStepsKeepPhase(x, step);
    }
  }

  lemma OtherStepsKeepPhase(x: Object, step: Step)
    requires Enabled(x, step) && !step.WriteStatus?
    ensures Apply(x, step).Exists()
    ensures
      var q := Apply(x, step).Current().status.phase;
      q == x.Current().status.phase || q.Failed?
  {
  }

  lemma OneMoreVersion(v: seq<Sandbox>, s: Sandbox)
    requires v != []
    ensures
      var p, q := v[|v| - 1].status.phase, s.status.phase;
      Changes(v + [s]) == Changes(v) + if p != q && !q.Failed? then 1 else 0
  {
    assert (v + [s])[..|v|] == v;
  }

  /** No version from n on starts a freeze or a thaw. */
  predicate StartsNothing(v: seq<Sandbox>, n: nat) {
    forall i: nat | n <= i < |v| && i > 0 :: NoStart(v[i - 1].status.phase, v[i].status.phase)
  }

  predicate NoStart(p: Phase, q: Phase) {
    (q.Hibernating? ==> p.Hibernating?) && (q.Resuming? ==> p.Resuming?)
  }

  lemma VersionCosts(v: seq<Sandbox>, s: Sandbox, n: nat)
    requires v != [] && StartsNothing(v, n)
    requires ExpiredMove(v[|v| - 1].status.phase, s.status.phase) || s.status.phase.Failed?
    ensures StartsNothing(v + [s], n)
    ensures Changes(v + [s]) + ExpiredRank(s.status.phase) <= Changes(v) + ExpiredRank(v[|v| - 1].status.phase)
  {
    OneMoreVersion(v, s);
    var u := v + [s];
    forall i: nat | n <= i < |u| && i > 0
      ensures NoStart(u[i - 1].status.phase, u[i].status.phase)
    {
      if i < |v| {
        assert NoStart(v[i - 1].status.phase, v[i].status.phase);
      }
    }
  }

  lemma StepCosts(x: Object, step: Step, n: nat)
    requires Enabled(x, step) && FindsExpired(x, step) && StartsNothing(x.versions, n)
    ensures Apply(x, step).Exists() && StartsNothing(Apply(x, step).versions, n)
    ensures
      Changes(Apply(x, step).versions) + ExpiredRank(Apply(x, step).Current().status.phase)
      <= Changes(x.versions) + ExpiredRank(x.Current().status.phase)
  {
    StepDescends(x, step);
    StepAppends(x, step);
    if Apply(x, step).versions != x.versions {
      VersionCosts(x.versions, Apply(x, step).Current(), n);
    }
  }

  lemma StepAppends(x: Object, step: Step)
    requires Enabled(x, step)
    ensures
      var y := Apply(x, step);
      y.versions == x.versions || (y.Exists() && y.versions == x.versions + [y.Current()])
  {
    StepGrows(x, step);
  }

  lemma {:induction false} ExpiredRunCosts(x: Object, run: seq<Step>, n: nat)
    requires x.Exists() && LegalExpired(x, run) && Legal(x, run) && StartsNothing(x.versions, n)
    ensures StartsNothing(After(x, run).versions, n)
    ensures Changes(After(x, run).versions) <= Changes(x.versions) + ExpiredRank(x.Current().status.phase)
    decreases |run|
  {
    if run != [] {
      StepCosts(x, run[0], n);
      ExpiredRunCosts(Apply(x, run[0]), run[1..], n);
    }
  }

  lemma RankOfSession(p: Phase)
    ensures ExpiredRank(p) <= 4 && (IsClaimedPhase(p) ==> ExpiredRank(p) <= 2) && (IsEnding(p) ==> ExpiredRank(p) == 0)
  {
  }

  /** Into Failed the phase changes only once: it is never left. */
  lemma {:induction false} FailedIsFinal(x: Object, i: nat, j: nat)
    requires Safety.Inv(x) && i <= j < |x.versions| && x.versions[i].status.phase.Failed?
    ensures x.versions[j].status.phase.Failed?
    decreases j
  {
    if i < j {
      FailedIsFinal(x, i, j - 1);
      assert Safety.Follows(x.versions[j - 1], x.versions[j - 1 + 1]);
    }
  }

  /** Whoever else acts in between and however old the copies: once every decision finds the TTL expired,
      the phase changes at most four times more, at most twice for a sandbox in use or asleep, not counting
      the one change into Failed that the sweeper may add; and no freeze and no thaw is started. */
  lemma ExpiredRunIsShort(x: Object, run: seq<Step>)
    requires Safety.Inv(x) && LegalExpired(x, run)
    ensures Legal(x, run) && StartsNothing(After(x, run).versions, |x.versions|)
    ensures
      var changes := Changes(After(x, run).versions) - Changes(x.versions);
      changes <= 4 && (IsClaimedPhase(x.Current().status.phase) ==> changes <= 2)
      && (IsEnding(x.Current().status.phase) ==> changes <= 0)
    ensures
      var v := After(x, run).versions;
      forall i: nat, j: nat | i <= j < |v| && v[i].status.phase.Failed? :: v[j].status.phase.Failed?
  {
    ExpiredIsLegal(x, run);
    ExpiredRunCosts(x, run, |x.versions|);
    RankOfSession(x.Current().status.phase);
    Safety.RunKeepsInv(x, run);
    var v := After(x, run).versions;
    forall i: nat, j: nat | i <= j < |v| && v[i].status.phase.Failed?
      ensures v[j].status.phase.Failed?
    {
      FailedIsFinal(After(x, run), i, j);
    }
  }
}
