/** The finalizer chain under crashes, conflicts and stale reads: clean-up steps are first tried
    in the order of the chain, and an object is gone only after every step was tried, unless the
    sweeper forced it. */
module Finalizers {
  import opened Api
  import opened Lifecycle
  import opened Protocol
  import opened Safety

  /** The finalizers still persisted are the tail of the chain. */
  predicate IsTail(fin: seq<Finalizer>) {
    |fin| <= |CHAIN| && fin == CHAIN[|CHAIN| - |fin|..]
  }

  /** Every attempt was preceded by an attempt of the step before it in the chain. */
  predicate InChainOrder(attempts: seq<Finalizer>) {
    forall i, q | 0 <= i < |attempts| && 0 < q < |CHAIN| ::
      attempts[i] == CHAIN[q] ==> CHAIN[q - 1] in attempts[..i]
  }

  /** The steps whose finalizers are already dropped have all been tried. */
  predicate DroppedWereTried(s: Sandbox, attempts: seq<Finalizer>) {
    forall q | 0 <= q < |CHAIN| - |s.finalizers| :: CHAIN[q] in attempts
  }

  predicate VersionFits(s: Sandbox, attempts: seq<Finalizer>, forced: bool) {
    && IsTail(s.finalizers)
    && (s.deleting && (s.finalizers != [] || !forced) ==> DroppedWereTried(s, attempts))
  }

  ghost predicate ChainKept(x: Object) {
    && InChainOrder(x.attempted)
    && forall i | 0 <= i < |x.versions| :: VersionFits(x.versions[i], x.attempted, x.forced)
  }

  ghost predicate ChainInv(x: Object) {
    Inv(x) && ChainKept(x)
  }

  // ---- The chain as a list ----

  lemma FirstOfTail(fin: seq<Finalizer>)
    requires IsTail(fin) && fin != []
    ensures NextFinalizer(fin) == Some(fin[0])
    ensures fin[0] == CHAIN[|CHAIN| - |fin|]
    ensures Without(fin, fin[0]) == fin[1..]
    ensures IsTail(fin[1..])
  {
    TailCases(fin);
    NothingElse(fin[1..], fin[0]);
  }

  lemma TailAt(fin: seq<Finalizer>, i: nat)
    requires IsTail(fin) && i < |fin|
    ensures fin[i] == CHAIN[|CHAIN| - |fin| + i]
  {
  }

  lemma ChainAt(i: nat)
    requires i < |CHAIN|
    ensures CHAIN[i] == match i
                        case 0 => LeaseCleanup
                        case 1 => NetworkCleanup
                        case 2 => StateFlush
                        case 3 => VolumeCleanup
                        case _ => MetricsFinalize
  {
  }

  lemma TailCases(fin: seq<Finalizer>)
    requires IsTail(fin) && fin != []
    ensures NextFinalizer(fin) == Some(fin[0])
    ensures fin[0] == CHAIN[|CHAIN| - |fin|]
    ensures fin[0] !in fin[1..]
  {
    forall i: nat | i < |fin|
      ensures fin[i] == match |CHAIN| - |fin| + i
                        case 0 => LeaseCleanup
                        case 1 => NetworkCleanup
                        case 2 => StateFlush
                        case 3 => VolumeCleanup
                        case _ => MetricsFinalize
    {
      TailAt(fin, i);
      ChainAt(|CHAIN| - |fin| + i);
    }
    TailAt(fin, 0);
  }

  lemma {:induction false} NothingElse(fin: seq<Finalizer>, f: Finalizer)
    requires f !in fin
    ensures Without(fin, f) == fin
  {
    if fin != [] {
      NothingElse(fin[1..], f);
    }
  }

  // ---- Steps ----

  lemma CommitKeepsChain(x: Object, s: Sandbox)
    requires x.Exists() && ChainKept(x) && VersionFits(s, x.attempted, x.forced)
    ensures ChainKept(Commit(x, s))
    ensures forall read: nat :: ChainKept(CommitIfCurrent(x, read, s))
  {
  }

  /** Most writes leave the chain alone. */
  predicate SameChain(a: Sandbox, b: Sandbox) {
    a.finalizers == b.finalizers && a.deleting == b.deleting
  }

  lemma WriteLeavesChain(x: Object, read: nat, s: Sandbox)
    requires ChainKept(x) && Reads(x, read) && SameChain(x.versions[read], s)
    ensures ChainKept(Commit(x, s)) && ChainKept(CommitIfCurrent(x, read, s))
  {
    assert VersionFits(x.versions[read], x.attempted, x.forced);
    CommitKeepsChain(x, s);
  }

  lemma ReconciledSameChain(s: Sandbox, facts: Observation, template: Option<TemplateDefaults>, pod: string)
    ensures SameChain(s, Reconciled(s, facts, template, pod))
  {
    assert SameChain(s, Annotated(s, facts));
  }

  lemma WritersLeaveChain(x: Object, step: Step)
    requires ChainKept(x) && Enabled(x, step)
    requires step.Bind? || step.Release? || step.WriteStatus? || step.AgentStatus?
    ensures ChainKept(Apply(x, step))
  {
    var s := x.versions[step.read];
    match step {
      case Bind(r, c) => WriteLeavesChain(x, r, Bound(s, c));
      case Release(r, _) => WriteLeavesChain(x, r, s.(spec := s.spec.(claim := None)));
      case WriteStatus(r, facts, template, pod) =>
        ReconciledSameChain(s, facts, template, pod);
        WriteLeavesChain(x, r, Reconciled(s, facts, template, pod));
      case AgentStatus(r) => WriteLeavesChain(x, r, WithRuntimeState(s, x.task.freeze));
    }
  }

  lemma PatchesLeaveChain(x: Object, step: Step)
    requires ChainKept(x) && Enabled(x, step)
    requires step.SetHibernation? || step.MarkDraining? || step.MarkFailed?
    ensures ChainKept(Apply(x, step))
  {
    var cur := x.Current();
    if step.MarkDraining? {
      WriteLeavesChain(x, x.Latest(), cur.(labels := cur.labels.(draining := true)));
    } else if step.MarkFailed? {
      WriteLeavesChain(x, x.Latest(), FailedPatch(cur, x.versions[step.read], step.why));
    } else {
      WriteLeavesChain(x, x.Latest(), HibernationPatched(cur, x.versions[step.read], step.hibernate));
    }
  }

  lemma InstallKeepsChain(x: Object, read: nat)
    requires ChainKept(x) && Enabled(x, InstallFinalizers(read)) && WellFormed(x.versions[read])
    ensures ChainKept(Apply(x, InstallFinalizers(read)))
  {
    var s := x.versions[read];
    InstallAllowed(s);
    FullChainFits(WithFinalizers(s), x.attempted, x.forced);
    CommitKeepsChain(x, WithFinalizers(s));
  }

  lemma FullChainFits(s: Sandbox, attempts: seq<Finalizer>, forced: bool)
    requires s.finalizers == CHAIN || (s.finalizers == [] && forced)
    ensures VersionFits(s, attempts, forced)
  {
    assert CHAIN[|CHAIN| - |CHAIN|..] == CHAIN;
  }

  /** Both deleters act on a copy that had the finalizers, so a deletion starts with a full chain. */
  lemma {:induction false} DeletersFindChain(x: Object, step: Step)
    requires Inv(x) && Enabled(x, step) && (step.PoolDelete? || step.ReconcilerDelete?)
    ensures Installed(x.Current())
  {
    var s := x.versions[step.read];
    assert WellFormed(s) && Keeps(s, x.Current());
  }

  lemma DeleteKeepsChain(x: Object)
    requires x.Exists() && ChainKept(x) && Installed(x.Current())
    ensures ChainKept(Delete(x))
  {
    var cur := x.Current();
    assert VersionFits(cur, x.attempted, x.forced);
    if !cur.deleting {
      FullChainFits(cur.(deleting := true), x.attempted, x.forced);
    }
    CommitKeepsChain(x, cur.(deleting := true));
  }

  lemma ForceKeepsChain(x: Object, read: nat)
    requires ChainKept(x) && Enabled(x, ForceFinalize(read))
    ensures ChainKept(Apply(x, ForceFinalize(read)))
  {
    var forced := x.(forced := true);
    assert forall i | 0 <= i < |x.versions| :: VersionFits(x.versions[i], x.attempted, x.forced);
    FullChainFits(x.Current().(finalizers := []), x.attempted, true);
    CommitKeepsChain(forced, x.Current().(finalizers := []));
  }

  /** What a worker that read a version in deletion is about to try. */
  lemma NextInChain(s: Sandbox, attempts: seq<Finalizer>, forced: bool)
    requires VersionFits(s, attempts, forced) && NextFinalizer(s.finalizers).Some?
    ensures
      var fin := s.finalizers;
      && 0 < |fin| <= |CHAIN| && IsTail(fin)
      && NextFinalizer(fin) == Some(fin[0]) && fin[0] == CHAIN[|CHAIN| - |fin|]
      && Without(fin, fin[0]) == fin[1..] && IsTail(fin[1..])
      && (s.deleting ==> DroppedWereTried(s, attempts))
  {
    FirstOfTail(s.finalizers);
  }

  lemma OneMoreAttempt(attempts: seq<Finalizer>, k: nat)
    requires InChainOrder(attempts) && k < |CHAIN|
    requires forall q | 0 <= q < k :: CHAIN[q] in attempts
    ensures InChainOrder(attempts + [CHAIN[k]])
  {
    var longer := attempts + [CHAIN[k]];
    forall i, q | 0 <= i < |longer| && 0 < q < |CHAIN| && longer[i] == CHAIN[q]
      ensures CHAIN[q - 1] in longer[..i]
    {
      if i < |attempts| {
        assert longer[..i] == attempts[..i];
      } else {
        assert longer[..i] == attempts;
        assert q == k;
      }
    }
  }

  lemma AttemptKeepsChain(x: Object, s: Sandbox)
    requires ChainKept(x) && s in x.versions && s.deleting && NextFinalizer(s.finalizers).Some?
    ensures ChainKept(x.(attempted := x.attempted + [NextFinalizer(s.finalizers).value]))
  {
    assert VersionFits(s, x.attempted, x.forced);
    NextInChain(s, x.attempted, x.forced);
    OneMoreAttempt(x.attempted, |CHAIN| - |s.finalizers|);
    assert forall i | 0 <= i < |x.versions| :: VersionFits(x.versions[i], x.attempted, x.forced);
  }

  lemma DropFits(s: Sandbox, attempts: seq<Finalizer>, forced: bool)
    requires VersionFits(s, attempts, forced) && s.deleting
    requires NextFinalizer(s.finalizers).Some? && NextFinalizer(s.finalizers).value in attempts
    ensures VersionFits(s.(finalizers := Without(s.finalizers, NextFinalizer(s.finalizers).value)), attempts, forced)
  {
    NextInChain(s, attempts, forced);
    forall q | 0 <= q < |CHAIN| - |s.finalizers[1..]|
      ensures CHAIN[q] in attempts
    {
      assert q < |CHAIN| - |s.finalizers| || CHAIN[q] == s.finalizers[0];
    }
  }

  lemma DropKeepsChain(x: Object, read: nat)
    requires ChainKept(x) && Enabled(x, DropFinalizer(read))
    ensures ChainKept(Apply(x, DropFinalizer(read)))
  {
    var s := x.versions[read];
    assert VersionFits(s, x.attempted, x.forced);
    DropFits(s, x.attempted, x.forced);
    CommitKeepsChain(x, s.(finalizers := Without(s.finalizers, NextFinalizer(s.finalizers).value)));
  }

  lemma StepKeepsChain(x: Object, step: Step)
    requires ChainInv(x) && Enabled(x, step)
    ensures ChainInv(Apply(x, step))
  {
    StepKeepsInv(x, step);
    match step {
      case Bind(_, _) => WritersLeaveChain(x, step);
      case Release(_, _) => WritersLeaveChain(x, step);
      case WriteStatus(_, _, _, _) => WritersLeaveChain(x, step);
      case AgentStatus(_) => WritersLeaveChain(x, step);
      case SetHibernation(_, _, _) => PatchesLeaveChain(x, step);
      case MarkDraining(_) => PatchesLeaveChain(x, step);
      case MarkFailed(_, _) => PatchesLeaveChain(x, step);
      case InstallFinalizers(r) => InstallKeepsChain(x, r);
      case PoolDelete(_) =>
        DeletersFindChain(x, step);
        DeleteKeepsChain(x);
      case ReconcilerDelete(_) =>
        DeletersFindChain(x, step);
        DeleteKeepsChain(x);
      case ForceFinalize(r) => ForceKeepsChain(x, r);
      case Attempt(r) => AttemptKeepsChain(x, x.versions[r]);
      case DropFinalizer(r) => DropKeepsChain(x, r);
      case _ =>
    }
  }

  lemma {:induction false} RunKeepsChain(x: Object, run: seq<Step>)
    requires ChainInv(x) && Legal(x, run)
    ensures ChainInv(After(x, run))
    decreases |run|
  {
    if run != [] {
      StepKeepsChain(x, run[0]);
      RunKeepsChain(Apply(x, run[0]), run[1..]);
    }
  }

  // ---- What the chain guarantees ----

  /** An object that is gone had every step tried, or was forced by the sweeper. */
  lemma GoneWasCleanedUp(x: Object)
    requires ChainInv(x) && x.gone && !x.forced
    ensures forall f: Finalizer :: f in x.attempted
  {
    assert VersionFits(x.Current(), x.attempted, x.forced);
    forall f: Finalizer
      ensures f in x.attempted
    {
      var q := match f
        case LeaseCleanup => 0
        case NetworkCleanup => 1
        case StateFlush => 2
        case VolumeCleanup => 3
        case MetricsFinalize => 4;
      assert CHAIN[q] == f;
    }
  }

  /** In every run: the persisted finalizers are a tail of the chain, first attempts come in chain
      order, and an object is gone only after every step was tried, unless it was forced. */
  lemma EveryRunCleansUpInOrder(s: Sandbox, run: seq<Step>)
    requires Created(s) && Legal(NewObject(s), run)
    ensures
      var x := After(NewObject(s), run);
      && (forall i | 0 <= i < |x.versions| :: IsTail(x.versions[i].finalizers))
      && InChainOrder(x.attempted)
      && (x.gone && !x.forced ==> forall f: Finalizer :: f in x.attempted)
  {
    NewObjectInv(s);
    RunKeepsChain(NewObject(s), run);
    var x := After(NewObject(s), run);
    forall i | 0 <= i < |x.versions|
      ensures IsTail(x.versions[i].finalizers)
    {
      assert VersionFits(x.versions[i], x.attempted, x.forced);
    }
    if x.gone && !x.forced {
      GoneWasCleanedUp(x);
    }
  }

  /** One undisturbed turn of reconcileDelete on the current version: a try, successful or not,
      and the write that drops its finalizer. */
  function Turn(read: nat): seq<Step> {
    [Attempt(read), DropFinalizer(read)]
  }

  function Turns(read: nat, n: nat): seq<Step>
    decreases n
  {
    if n == 0 then [] else Turn(read) + Turns(read + 1, n - 1)
  }

  lemma TwoStepsThen(x: Object, a: Step, b: Step, rest: seq<Step>)
    requires Enabled(x, a) && Enabled(Apply(x, a), b) && Legal(Apply(Apply(x, a), b), rest)
    ensures Legal(x, [a, b] + rest)
    ensures After(x, [a, b] + rest) == After(Apply(Apply(x, a), b), rest)
  {
    var run := [a, b] + rest;
    assert run[1..] == [b] + rest && run[1..][1..] == rest;
  }

  lemma TurnEffect(x: Object, f: Finalizer, left: seq<Finalizer>)
    requires x.Exists() && !x.gone && x.Current().deleting
    requires NextFinalizer(x.Current().finalizers) == Some(f)
    requires Without(x.Current().finalizers, f) == left && |left| < |x.Current().finalizers|
    ensures Enabled(x, Attempt(x.Latest()))
    ensures Enabled(Apply(x, Attempt(x.Latest())), DropFinalizer(x.Latest()))
    ensures
      Apply(Apply(x, Attempt(x.Latest())), DropFinalizer(x.Latest()))
      == x.(attempted := x.attempted + [f],
            versions := x.versions + [x.Current().(finalizers := left)],
            gone := left == [])
  {
    assert x.Current().(finalizers := left).finalizers != x.Current().finalizers;
  }

  lemma TurnShrinksChain(x: Object) returns (y: Object)
    requires ChainInv(x) && !x.gone && x.Current().deleting
    ensures x.Current().finalizers != []
    ensures ChainInv(y) && y.Current().deleting && y.Latest() == x.Latest() + 1
    ensures y.Current().finalizers == x.Current().finalizers[1..]
    ensures y.gone == (|x.Current().finalizers| == 1)
    ensures y.attempted == x.attempted + [x.Current().finalizers[0]]
    ensures Enabled(x, Attempt(x.Latest()))
    ensures Enabled(Apply(x, Attempt(x.Latest())), DropFinalizer(x.Latest()))
    ensures y == Apply(Apply(x, Attempt(x.Latest())), DropFinalizer(x.Latest()))
  {
    var r, fin := x.Latest(), x.Current().finalizers;
    assert VersionFits(x.Current(), x.attempted, x.forced);
    FirstOfTail(fin);
    TurnEffect(x, fin[0], fin[1..]);
    StepKeepsChain(x, Attempt(r));
    StepKeepsChain(Apply(x, Attempt(r)), DropFinalizer(r));
    y := Apply(Apply(x, Attempt(r)), DropFinalizer(r));
  }

  /** A step that fails never blocks the deletion: as many undisturbed turns as there are
      finalizers left remove the object, having tried exactly those steps in order. */
  lemma {:induction false} TurnsFinish(x: Object)
    requires ChainInv(x) && !x.gone && x.Current().deleting
    ensures |x.Current().finalizers| <= |CHAIN|
    ensures Finishes(x, |x.Current().finalizers|)
    decreases |x.Current().finalizers|
  {
    assert VersionFits(x.Current(), x.attempted, x.forced);
    var y := TurnShrinksChain(x);
    if !y.gone {
      TurnsFinish(y);
    }
    OneTurnMore(x, y, |x.Current().finalizers|);
  }

  /** The run of n undisturbed turns removes the object and tries just the n steps left. */
  predicate Finishes(x: Object, n: nat)
    requires x.Exists()
  {
    var run := Turns(x.Latest(), n);
    Legal(x, run) && After(x, run).gone && After(x, run).attempted == x.attempted + x.Current().finalizers
  }

  lemma RestOfTurns(y: Object, n: nat)
    requires y.Exists() && n > 0 && if n == 1 then y.gone else Finishes(y, n - 1)
    ensures Legal(y, Turns(y.Latest(), n - 1)) && After(y, Turns(y.Latest(), n - 1)).gone
    ensures n > 1 ==> After(y, Turns(y.Latest(), n - 1)).attempted == y.attempted + y.Current().finalizers
    ensures n == 1 ==> After(y, Turns(y.Latest(), n - 1)) == y
  {
    if n == 1 {
      assert Turns(y.Latest(), 0) == [];
    }
  }

  lemma OneTurnMore(x: Object, y: Object, n: nat)
    requires x.Exists() && 0 < n == |x.Current().finalizers|
    requires Enabled(x, Attempt(x.Latest()))
    requires Enabled(Apply(x, Attempt(x.Latest())), DropFinalizer(x.Latest()))
    requires y == Apply(Apply(x, Attempt(x.Latest())), DropFinalizer(x.Latest()))
    requires y.Exists() && y.Latest() == x.Latest() + 1
    requires y.Current().finalizers == x.Current().finalizers[1..]
    requires y.attempted == x.attempted + [x.Current().finalizers[0]]
    requires if n == 1 then y.gone else Finishes(y, n - 1)
    ensures Finishes(x, n)
  {
    RestOfTurns(y, n);
    TwoStepsThen(x, Attempt(x.Latest()), DropFinalizer(x.Latest()), Turns(x.Latest() + 1, n - 1));
    TriedOneMore(x.attempted, x.Current().finalizers, y.attempted);
    FinishesBy(x, n, Turn(x.Latest()) + Turns(x.Latest() + 1, n - 1));
  }

  lemma FinishesBy(x: Object, n: nat, run: seq<Step>)
    requires x.Exists() && n > 0 && run == Turn(x.Latest()) + Turns(x.Latest() + 1, n - 1)
    requires Legal(x, run) && After(x, run).gone && After(x, run).attempted == x.attempted + x.Current().finalizers
    ensures Finishes(x, n)
  {
    assert run == Turns(x.Latest(), n);
  }

  lemma TriedOneMore(before: seq<Finalizer>, fin: seq<Finalizer>, after: seq<Finalizer>)
    requires fin != [] && after == before + [fin[0]]
    ensures after + fin[1..] == before + fin
    ensures |fin| == 1 ==> after == before + fin
  {
  }
}
