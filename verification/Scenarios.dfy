/** One session step by step, from its creation as stock to being in use, asleep and awake again: the
    runs in which guarantees end whose premises do not hold. */
module Scenarios {
  import opened Api
  import opened Lifecycle
  import opened ClaimBinding
  import opened Protocol
  import opened Safety
  import opened Freeze

  /** Some run leads from one object to the other. */
  ghost predicate Reaches(x: Object, y: Object) {
    exists run :: Legal(x, run) && After(x, run) == y
  }

  lemma {:induction false} OneMoreStep(x: Object, run: seq<Step>, step: Step)
    requires Legal(x, run) && Enabled(After(x, run), step)
    ensures Legal(x, run + [step]) && After(x, run + [step]) == Apply(After(x, run), step)
    decreases |run|
  {
    var longer := run + [step];
    if run == [] {
      assert longer == [step] && longer[1..] == [];
    } else {
      OneMoreStep(Apply(x, run[0]), run[1..], step);
      assert longer[1..] == run[1..] + [step];
    }
  }

  lemma StepReaches(x: Object, y: Object, step: Step)
    requires Reaches(x, y) && Enabled(y, step)
    ensures Reaches(x, Apply(y, step))
  {
    var run :| Legal(x, run) && After(x, run) == y;
    OneMoreStep(x, run, step);
  }

  // ---- One step at a time ----

  /** Some run from the new object has led to x, which is at rest: its current version, its cgroup. */
  ghost predicate Stands(s: Sandbox, x: Object, cur: Sandbox, frozen: bool) {
    && Reaches(NewObject(s), x) && x.Exists() && x.Current() == cur
    && !x.gone && x.task.NoTask? && x.cgroupFrozen == frozen
  }

  /** The object has a new current version and is otherwise as it was. */
  predicate Appended(x: Object, y: Object, s: Sandbox) {
    x.Exists() && y == x.(versions := x.versions + [s])
  }

  lemma AppendedStands(s: Sandbox, x: Object, cur: Sandbox, frozen: bool, step: Step, next: Sandbox)
    requires Stands(s, x, cur, frozen) && Enabled(x, step) && Appended(x, Apply(x, step), next)
    ensures Stands(s, Apply(x, step), next, frozen)
  {
    StepReaches(NewObject(s), x, step);
  }

  lemma CommitAppends(x: Object, next: Sandbox)
    requires x.Exists() && !x.gone && next != x.Current() && !next.deleting
    ensures Appended(x, Commit(x, next), next)
    ensures Appended(x, CommitIfCurrent(x, x.Latest(), next), next)
  {
  }

  /** A pod that runs on a healthy node, with a heartbeat and no load. */
  function AllWell(now: int): Observation {
    Observation(now, true, PodRunning, true, Some(now), "", true, true, None, false, 0, 0, false, false, false, false)
  }

  predicate Writes(cur: Sandbox, next: Sandbox) {
    && !cur.deleting && LeaseCleanup in cur.finalizers && !IsEnding(cur.status.phase)
    && next == Reconciled(cur, AllWell(cur.createdAt), None, "pod") && next != cur && !next.deleting
  }

  lemma WriteOn(s: Sandbox, x: Object, cur: Sandbox, frozen: bool, next: Sandbox) returns (y: Object)
    requires Stands(s, x, cur, frozen) && Writes(cur, next)
    ensures Stands(s, y, next, frozen) && x.versions <= y.versions
  {
    var step := WriteStatus(x.Latest(), AllWell(cur.createdAt), None, "pod");
    CommitAppends(x, next);
    AppendedStands(s, x, cur, frozen, step, next);
    y := Apply(x, step);
  }

  /** The agent lists version `at` and sets the cgroup as that version wants it. */
  lemma ListAndSet(s: Sandbox, x: Object, at: nat, freeze: bool) returns (y: Object)
    requires Reaches(NewObject(s), x) && at < |x.versions| && x.task.NoTask?
    requires if freeze then WantsFreeze(x.versions[at]) else WantsThaw(x.versions[at])
    ensures Reaches(NewObject(s), y) && y == x.(agentSeen := at, cgroupFrozen := freeze, task := ToStatus(freeze, at))
  {
    StepReaches(NewObject(s), x, AgentList(at));
    var x1 := Apply(x, AgentList(at));
    StepReaches(NewObject(s), x1, AgentCgroup(true, true));
    y := Apply(x1, AgentCgroup(true, true));
  }

  /** The agent lists the current version, sets the cgroup and records it. */
  lemma AgentOn(s: Sandbox, x: Object, cur: Sandbox, frozen: bool, freeze: bool) returns (y: Object)
    requires Stands(s, x, cur, frozen) && !cur.deleting
    requires if freeze then WantsFreeze(cur) else WantsThaw(cur)
    ensures Stands(s, y, WithRuntimeState(cur, freeze), freeze) && x.versions <= y.versions
  {
    var done := ListAndSet(s, x, x.Latest(), freeze);
    StepReaches(NewObject(s), done, AgentStatus(x.Latest()));
    y := Apply(done, AgentStatus(x.Latest()));
    CommitAppends(done, WithRuntimeState(cur, freeze));
  }

  // ---- From stock to a session ----

  /** Stock that asks for nothing special. */
  predicate PlainStock(s: Sandbox) {
    && Created(s) && s.spec.claim.None? && s.spec.lifecycle.None?
    && !s.wakeRequested && !s.hibernateRequested
  }

  function StockAt(s: Sandbox, phase: Phase): Sandbox {
    var t := WithSandboxId(s);
    t.(finalizers := CHAIN,
       status := t.status.(phase := phase, podName := "pod",
         provisionedAt := if phase.Ready? then Some(s.createdAt) else None))
  }

  lemma InChain()
    ensures LeaseCleanup in CHAIN && CHAIN != []
  {
    assert CHAIN[0] == LeaseCleanup;
  }

  lemma InstallOn(s: Sandbox) returns (y: Object)
    requires PlainStock(s)
    ensures Stands(s, y, s.(finalizers := CHAIN), false)
  {
    InChain();
    var x := NewObject(s);
    assert Legal(x, []) && After(x, []) == x;
    MissingAll(CHAIN);
    assert [] + CHAIN == CHAIN;
    CommitAppends(x, s.(finalizers := CHAIN));
    AppendedStands(s, x, s, false, InstallFinalizers(0), s.(finalizers := CHAIN));
    y := Apply(x, InstallFinalizers(0));
  }

  lemma ToProvisioning(s: Sandbox)
    requires PlainStock(s)
    ensures Writes(s.(finalizers := CHAIN), StockAt(s, Provisioning))
  {
    InChain();
  }

  lemma ToReady(s: Sandbox)
    requires PlainStock(s)
    ensures Writes(StockAt(s, Provisioning), StockAt(s, Ready))
  {
    InChain();
  }

  /** Plain stock becomes ready. */
  lemma ReadyStock(s: Sandbox) returns (x: Object)
    requires PlainStock(s)
    ensures Stands(s, x, StockAt(s, Ready), false)
  {
    x := InstallOn(s);
    ToProvisioning(s);
    x := WriteOn(s, x, s.(finalizers := CHAIN), false, StockAt(s, Provisioning));
    ToReady(s);
    x := WriteOn(s, x, StockAt(s, Provisioning), false, StockAt(s, Ready));
  }

  // ---- A session, asleep and awake ----

  /** The sandbox while c is using it; the marks are those of a wish to wake and to hibernate. */
  function Session(s: Sandbox, c: Claim, phase: Phase, state: RuntimeState, wake: bool, sleep: bool): Sandbox {
    var b := Bound(StockAt(s, Ready), c);
    b.(wakeRequested := wake, hibernateRequested := sleep,
       status := b.status.(phase := phase, hibernation := state, claimedCount := 1,
         claimRef := Some(RefFor(c, s.createdAt))))
  }

  lemma BindOn(s: Sandbox, c: Claim, x: Object) returns (y: Object)
    requires PlainStock(s) && Stands(s, x, StockAt(s, Ready), false)
    ensures Stands(s, y, Bound(StockAt(s, Ready), c), false) && x.versions <= y.versions
  {
    var cur := StockAt(s, Ready);
    CommitAppends(x, Bound(cur, c));
    AppendedStands(s, x, cur, false, Bind(x.Latest(), c), Bound(cur, c));
    y := Apply(x, Bind(x.Latest(), c));
  }

  lemma ToUse(s: Sandbox, c: Claim)
    requires PlainStock(s)
    ensures Writes(Bound(StockAt(s, Ready), c), Session(s, c, Running, NoState, false, false))
  {
    InChain();
  }

  lemma InUse(s: Sandbox, c: Claim) returns (x: Object)
    requires PlainStock(s)
    ensures Stands(s, x, Session(s, c, Running, NoState, false, false), false)
  {
    x := ReadyStock(s);
    x := BindOn(s, c, x);
    ToUse(s, c);
    x := WriteOn(s, x, Bound(StockAt(s, Ready), c), false, Session(s, c, Running, NoState, false, false));
  }

  /** The owner asks for sleep, or to be woken. */
  lemma AskOn(s: Sandbox, c: Claim, x: Object, frozen: bool, cur: Sandbox, next: Sandbox, sleep: bool)
      returns (y: Object)
    requires Stands(s, x, cur, frozen) && OwnedBy(cur, c.tenant) && !next.deleting
    requires next == HibernationPatched(cur, cur, sleep) && next != cur
    ensures Stands(s, y, next, frozen) && Appended(x, y, next)
  {
    CommitAppends(x, next);
    AppendedStands(s, x, cur, frozen, SetHibernation(x.Latest(), c.tenant, sleep), next);
    y := Apply(x, SetHibernation(x.Latest(), c.tenant, sleep));
  }

  // The decisions of one sleep and one waking up: on the owner's word, and on the agent's.

  lemma ToSleep(s: Sandbox, c: Claim, state: RuntimeState)
    requires PlainStock(s) && c.hardDeadline.None? && !state.Frozen?
    ensures Writes(Session(s, c, Running, state, false, true), Session(s, c, Hibernating, state, false, true))
  {
    InChain();
  }

  lemma Asleep(s: Sandbox, c: Claim)
    requires PlainStock(s) && c.hardDeadline.None?
    ensures Writes(Session(s, c, Hibernating, Frozen, false, true), Session(s, c, Hibernated, Frozen, false, true))
  {
    InChain();
  }

  lemma ToWake(s: Sandbox, c: Claim)
    requires PlainStock(s) && c.hardDeadline.None?
    ensures Writes(Session(s, c, Hibernated, Frozen, true, false), Session(s, c, Resuming, Frozen, true, false))
  {
    InChain();
  }

  lemma Awoken(s: Sandbox, c: Claim)
    requires PlainStock(s) && c.hardDeadline.None?
    ensures Writes(Session(s, c, Resuming, Active, true, false), Session(s, c, Running, Active, true, false))
  {
    InChain();
  }

  predicate Wants(x: Object, at: nat, freeze: bool) {
    at < |x.versions| && if freeze then WantsFreeze(x.versions[at]) else WantsThaw(x.versions[at])
  }

  lemma StillWants(x: Object, y: Object, at: nat, freeze: bool)
    requires Wants(x, at, freeze) && x.versions <= y.versions
    ensures Wants(y, at, freeze)
  {
  }

  lemma AskToSleep(s: Sandbox, c: Claim, x: Object, state: RuntimeState, wake: bool) returns (y: Object)
    requires PlainStock(s) && Stands(s, x, Session(s, c, Running, state, wake, false), false)
    ensures Stands(s, y, Session(s, c, Running, state, false, true), false) && x.versions <= y.versions
  {
    y := AskOn(s, c, x, false, Session(s, c, Running, state, wake, false), Session(s, c, Running, state, false, true),
               true);
  }

  lemma AskToWake(s: Sandbox, c: Claim, x: Object) returns (y: Object)
    requires PlainStock(s) && Stands(s, x, Session(s, c, Hibernated, Frozen, false, true), true)
    ensures Stands(s, y, Session(s, c, Hibernated, Frozen, true, false), true) && x.versions <= y.versions
  {
    y := AskOn(s, c, x, true, Session(s, c, Hibernated, Frozen, false, true),
               Session(s, c, Hibernated, Frozen, true, false), false);
  }

  /** The agent does what the current version wants, and the controller takes note. */
  lemma ActedOn(s: Sandbox, x: Object, cur: Sandbox, freeze: bool, next: Sandbox) returns (y: Object)
    requires Stands(s, x, cur, !freeze) && !cur.deleting && Wants(x, x.Latest(), freeze)
    requires Writes(WithRuntimeState(cur, freeze), next)
    ensures Stands(s, y, next, freeze) && x.versions <= y.versions && Wants(y, x.Latest(), freeze)
  {
    var done := AgentOn(s, x, cur, !freeze, freeze);
    StillWants(x, done, x.Latest(), freeze);
    y := WriteOn(s, done, WithRuntimeState(cur, freeze), freeze, next);
    StillWants(done, y, x.Latest(), freeze);
  }

  lemma Drowsy(s: Sandbox, c: Claim, x: Object, state: RuntimeState, wake: bool) returns (y: Object)
    requires PlainStock(s) && c.hardDeadline.None? && !state.Frozen?
    requires Stands(s, x, Session(s, c, Running, state, wake, false), false)
    ensures Stands(s, y, Session(s, c, Hibernating, state, false, true), false) && x.versions <= y.versions
  {
    var asked := AskToSleep(s, c, x, state, wake);
    ToSleep(s, c, state);
    y := WriteOn(s, asked, Session(s, c, Running, state, false, true), false,
                 Session(s, c, Hibernating, state, false, true));
  }

  lemma Waking(s: Sandbox, c: Claim, x: Object) returns (y: Object)
    requires PlainStock(s) && c.hardDeadline.None?
    requires Stands(s, x, Session(s, c, Hibernated, Frozen, false, true), true)
    ensures Stands(s, y, Session(s, c, Resuming, Frozen, true, false), true) && x.versions <= y.versions
  {
    var asked := AskToWake(s, c, x);
    ToWake(s, c);
    y := WriteOn(s, asked, Session(s, c, Hibernated, Frozen, true, false), true,
                 Session(s, c, Resuming, Frozen, true, false));
  }

  /** From use to sleep. The version at `at` is the one that wanted the freeze. */
  lemma FallAsleep(s: Sandbox, c: Claim, x: Object, state: RuntimeState, wake: bool) returns (y: Object, at: nat)
    requires PlainStock(s) && c.hardDeadline.None? && !state.Frozen?
    requires Stands(s, x, Session(s, c, Running, state, wake, false), false)
    ensures Stands(s, y, Session(s, c, Hibernated, Frozen, false, true), true)
    ensures x.versions <= y.versions && Wants(y, at, true)
  {
    var drowsy := Drowsy(s, c, x, state, wake);
    at := drowsy.Latest();
    Asleep(s, c);
    y := ActedOn(s, drowsy, Session(s, c, Hibernating, state, false, true), true,
                 Session(s, c, Hibernated, Frozen, false, true));
  }

  /** From sleep to use. The version at `at` is the one that wanted the thaw. */
  lemma WakeUp(s: Sandbox, c: Claim, x: Object) returns (y: Object, at: nat)
    requires PlainStock(s) && c.hardDeadline.None?
    requires Stands(s, x, Session(s, c, Hibernated, Frozen, false, true), true)
    ensures Stands(s, y, Session(s, c, Running, Active, true, false), false)
    ensures x.versions <= y.versions && Wants(y, at, false)
  {
    var waking := Waking(s, c, x);
    at := waking.Latest();
    Awoken(s, c);
    y := ActedOn(s, waking, Session(s, c, Resuming, Frozen, true, false), false,
                 Session(s, c, Running, Active, true, false));
  }

  // ---- An agent that lists old versions ----

  /** The cgroup is set against what the phase says. */
  predicate Mismatched(x: Object) {
    && x.Exists()
    && if x.cgroupFrozen then x.Current().status.phase.Running? else x.Current().status.phase.Hibernated?
  }

  lemma RunTo(s: Sandbox, y: Object) returns (run: seq<Step>)
    requires Reaches(NewObject(s), y)
    ensures Legal(NewObject(s), run) && After(NewObject(s), run) == y
  {
    run :| Legal(NewObject(s), run) && After(NewObject(s), run) == y;
  }

  lemma MismatchBreaksHandshake(x: Object)
    requires Mismatched(x)
    ensures !HandshakeHolds(x)
  {
  }

  lemma StaleTurn(s: Sandbox, x: Object, cur: Sandbox, frozen: bool, at: nat) returns (y: Object)
    requires Stands(s, x, cur, frozen) && Wants(x, at, !frozen)
    requires if frozen then cur.status.phase.Hibernated? else cur.status.phase.Running?
    ensures Reaches(NewObject(s), y) && Mismatched(y) && y.cgroupFrozen == !frozen
  {
    y := ListAndSet(s, x, at, !frozen);
  }

  /** Any stock, bound to any session, put to sleep and woken up again: an agent whose list then goes
      back to the version that wanted the freeze freezes the sandbox while it is in use. */
  lemma StaleListFreezesRunning(s: Sandbox, c: Claim) returns (run: seq<Step>)
    requires PlainStock(s) && c.hardDeadline.None?
    ensures Legal(NewObject(s), run)
    ensures
      var x := After(NewObject(s), run);
      x.Exists() && x.Current().status.phase.Running? && x.cgroupFrozen && !HandshakeHolds(x)
  {
    var x := InUse(s, c);
    var asleep, at := FallAsleep(s, c, x, NoState, false);
    var awake, _ := WakeUp(s, c, asleep);
    StillWants(asleep, awake, at, true);
    var y := StaleTurn(s, awake, Session(s, c, Running, Active, true, false), false, at);
    MismatchBreaksHandshake(y);
    run := RunTo(s, y);
  }

  /** Put to sleep once more: an agent whose list then goes back to the version that wanted the thaw
      thaws the sandbox in its sleep. */
  lemma StaleListThawsHibernated(s: Sandbox, c: Claim) returns (run: seq<Step>)
    requires PlainStock(s) && c.hardDeadline.None?
    ensures Legal(NewObject(s), run)
    ensures
      var x := After(NewObject(s), run);
      x.Exists() && x.Current().status.phase.Hibernated? && !x.cgroupFrozen && !HandshakeHolds(x)
  {
    var x := InUse(s, c);
    var asleep, _ := FallAsleep(s, c, x, NoState, false);
    var awake, at := WakeUp(s, c, asleep);
    var again, _ := FallAsleep(s, c, awake, Active, true);
    StillWants(awake, again, at, false);
    var y := StaleTurn(s, again, Session(s, c, Hibernated, Frozen, false, true), true, at);
    MismatchBreaksHandshake(y);
    run := RunTo(s, y);
  }
}
