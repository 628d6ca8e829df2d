/** internal/controller/sandbox_controller.go: one pass of the sandbox reconciler, a sequence of
    reads and writes between which any other client may act. */
module Reconciler {
  import opened Api
  import opened Lifecycle
  import opened Protocol
  import opened Freeze
  import opened Finalizers
  import opened Cluster
  import Claimer

  datatype Outcome =
    | Done
    | Requeue // somebody else's write came first, or there is more to do at once
    | Later(after: int) // look again after so many seconds
    | WithError // the pass ends with an error and is repeated with a back-off

  // ---- The finalizer chain ----

  predicate PassedBy(have: seq<Finalizer>, n: nat) {
    forall j | 0 <= j < n && j < |CHAIN| :: CHAIN[j] !in have
  }

  lemma NextIsHere(have: seq<Finalizer>, i: nat)
    requires i < |CHAIN| && PassedBy(have, i) && CHAIN[i] in have
    ensures NextFinalizer(have) == Some(CHAIN[i])
  {
    forall j: nat | j < i
      ensures CHAIN[j] !in have
    {
      assert j < |CHAIN|;
    }
    ChainAt(i);
    if i > 0 { ChainAt(0); }
    if i > 1 { ChainAt(1); }
    if i > 2 { ChainAt(2); }
    if i > 3 { ChainAt(3); }
  }

  lemma {:induction false} WithoutRemoves(have: seq<Finalizer>, f: Finalizer)
    ensures forall g :: g in Without(have, f) <==> g in have && g != f
  {
    if have != [] {
      WithoutRemoves(have[1..], f);
      assert have == [have[0]] + have[1..];
    }
  }

  lemma PlaceInChain(f: Finalizer) returns (k: nat)
    ensures k < |CHAIN| && CHAIN[k] == f
  {
    k := match f case LeaseCleanup => 0 case NetworkCleanup => 1 case StateFlush => 2
                 case VolumeCleanup => 3 case MetricsFinalize => 4;
  }

  lemma PassedAll(have: seq<Finalizer>)
    requires PassedBy(have, |CHAIN|)
    ensures have == []
  {
    if have != [] {
      var k := PlaceInChain(have[0]);
    }
  }

  function Dropped(c: Cached, f: Finalizer): Cached {
    Cached(c.name, c.read + 1, c.content.(finalizers := Without(c.content.finalizers, f)))
  }

  /** What a committed drop leaves behind. */
  lemma DropCommits(w: World, c: Cached, i: nat)
    requires Genuine(w, c) && c.content.deleting
    requires i < |CHAIN| && PassedBy(c.content.finalizers, i) && CHAIN[i] in c.content.finalizers
    requires CHAIN[i] in w[c.name].attempted
    ensures CanAct(w, On(c.name, DropFinalizer(c.read)))
    ensures
      AnswerTo(w[c.name], c.read).Committed? ==>
        var after := Do(w, On(c.name, DropFinalizer(c.read)));
        && Genuine(after, Dropped(c, CHAIN[i]))
        && PassedBy(Dropped(c, CHAIN[i]).content.finalizers, i + 1)
        && (after[c.name].gone <==> Dropped(c, CHAIN[i]).content.finalizers == [])
  {
    var have := c.content.finalizers;
    NextIsHere(have, i);
    WithoutRemoves(have, CHAIN[i]);
    var x := w[c.name];
    if AnswerTo(x, c.read).Committed? {
      assert CHAIN[i] !in Dropped(c, CHAIN[i]).content.finalizers;
      assert Dropped(c, CHAIN[i]).content != c.content;
      assert Apply(x, DropFinalizer(c.read)).versions == x.versions + [Dropped(c, CHAIN[i]).content];
    }
  }

  /** Everything that was to be cleaned up when the pass began is tried or still to come. */
  predicate Accounted(x: Object, start: seq<Finalizer>, left: seq<Finalizer>) {
    forall f | f in start :: f in left || f in x.attempted
  }

  /** One step of the chain: try the clean-up, whatever comes of it, and drop the finalizer. */
  method CleanUp(server: ApiServer, c: Cached, i: nat, ghost start: seq<Finalizer>) returns (answer: Answer)
    requires server.Valid() && Genuine(server.objects, c) && c.content.deleting
    requires i < |CHAIN| && PassedBy(c.content.finalizers, i) && CHAIN[i] in c.content.finalizers
    requires Accounted(server.objects[c.name], start, c.content.finalizers)
    modifies server
    ensures server.Valid() && old(server.acts) <= server.acts && Extends(old(server.objects), server.objects)
    ensures answer.Conflict? ==> Claimer.Overtaken(server.objects, c)
    ensures answer.NotFound? ==> c.name in server.objects && server.objects[c.name].gone
    ensures
      answer.Committed? ==>
        var d := Dropped(c, CHAIN[i]);
        && Genuine(server.objects, d) && PassedBy(d.content.finalizers, i + 1)
        && Accounted(server.objects[c.name], start, d.content.finalizers)
        && (d.content.finalizers == [] ==> server.objects[c.name].gone)
  {
    TryStep(server, c, i);
    ghost var current := server.objects;
    DropCommits(current, c, i);
    answer := server.Write(c.name, DropFinalizer(c.read));
    Claimer.ExtendsFurther(old(server.objects), current, server.objects);
    AccountedAfterDrop(old(server.objects), current, server.objects, c, CHAIN[i], start);
  }

  /** runFinalizerStep, with other clients acting until it is over. */
  method TryStep(server: ApiServer, c: Cached, i: nat)
    requires server.Valid() && Genuine(server.objects, c) && c.content.deleting
    requires i < |CHAIN| && PassedBy(c.content.finalizers, i) && CHAIN[i] in c.content.finalizers
    modifies server
    ensures server.Valid() && old(server.acts) <= server.acts && Extends(old(server.objects), server.objects)
    ensures Genuine(server.objects, c) && CHAIN[i] in server.objects[c.name].attempted
  {
    NextIsHere(c.content.finalizers, i);
    server.Submit(On(c.name, Attempt(c.read)));
    ghost var tried := server.objects;
    assert CHAIN[i] in tried[c.name].attempted;
    server.Interfere();
    Claimer.ExtendsFurther(old(server.objects), tried, server.objects);
    Claimer.StillGenuine(old(server.objects), server.objects, c);
    assert tried[c.name].attempted <= server.objects[c.name].attempted;
  }

  lemma AccountedAfterDrop(u: World, v: World, w: World, c: Cached, f: Finalizer, start: seq<Finalizer>)
    requires Extends(u, v) && Extends(v, w) && c.name in u
    requires Accounted(u[c.name], start, c.content.finalizers) && f in v[c.name].attempted
    ensures Accounted(w[c.name], start, Dropped(c, f).content.finalizers)
  {
    WithoutRemoves(c.content.finalizers, f);
    assert u[c.name].attempted <= v[c.name].attempted <= w[c.name].attempted;
  }

  /** reconcileDelete. When it is done, every clean-up step the copy still had a finalizer for was
      tried and the object is gone; otherwise somebody else wrote or removed the object, and the
      pass starts over from what is left. */
  method ReconcileDelete(server: ApiServer, copy: Cached) returns (outcome: Outcome)
    requires server.Valid() && Genuine(server.objects, copy) && copy.content.deleting
    modifies server
    ensures server.Valid() && old(server.acts) <= server.acts && Extends(old(server.objects), server.objects)
    ensures outcome.Done? || outcome.Requeue? || outcome.WithError?
    ensures
      outcome.Done? && copy.content.finalizers != [] ==>
        && server.objects[copy.name].gone
        && forall f | f in copy.content.finalizers :: f in server.objects[copy.name].attempted
    ensures outcome.Requeue? ==> Claimer.Overtaken(server.objects, copy)
    ensures outcome.WithError? ==> server.objects[copy.name].gone
  {
    var c := copy;
    ghost var start := copy.content.finalizers;
    for i := 0 to |CHAIN|
      invariant server.Valid() && old(server.acts) <= server.acts && Extends(old(server.objects), server.objects)
      invariant c.name == copy.name && copy.read <= c.read && c.content.deleting
      invariant Genuine(server.objects, c) && PassedBy(c.content.finalizers, i)
      invariant Accounted(server.objects[c.name], start, c.content.finalizers)
      invariant c.content.finalizers == [] && start != [] ==> server.objects[c.name].gone
    {
      if CHAIN[i] in c.content.finalizers {
        ghost var before := server.objects;
        var answer := CleanUp(server, c, i, start);
        Claimer.ExtendsFurther(old(server.objects), before, server.objects);
        if answer.Conflict? {
          return Requeue;
        } else if answer.NotFound? {
          return WithError;
        }
        c := Dropped(c, CHAIN[i]);
      }
    }
    PassedAll(c.content.finalizers);
    outcome := Done;
  }

  // ---- One pass ----

  /** The copy is one the state machine is asked about. */
  predicate Decides(s: Sandbox) {
    !s.deleting && LeaseCleanup in s.finalizers && !IsEnding(s.status.phase)
  }

  predicate BeingDeleted(w: World, name: string) {
    name in w && w[name].Exists() && (w[name].gone || w[name].Current().deleting)
  }

  /** deleteSandbox: a deletion without a precondition. */
  method DeleteSandbox(server: ApiServer, c: Cached)
    requires server.Valid() && Genuine(server.objects, c)
    requires !c.content.deleting && LeaseCleanup in c.content.finalizers && IsEnding(c.content.status.phase)
    modifies server
    ensures server.Valid() && old(server.acts) <= server.acts && Extends(old(server.objects), server.objects)
    ensures BeingDeleted(server.objects, c.name)
  {
    server.Interfere();
    ghost var current := server.objects;
    Claimer.StillGenuine(old(server.objects), current, c);
    server.Submit(On(c.name, ReconcilerDelete(c.read)));
    Claimer.ExtendsFurther(old(server.objects), current, server.objects);
  }

  /** The step writes s over the copy it was made for. */
  predicate Replaces(step: Step, copy: Sandbox, s: Sandbox) {
    match step
    case InstallFinalizers(_) => !copy.deleting && LeaseCleanup !in copy.finalizers && s == WithFinalizers(copy)
    case WriteStatus(_, facts, template, pod) => Decides(copy) && s == Reconciled(copy, facts, template, pod)
    case _ => false
  }

  lemma UpdateCommits(w: World, c: Cached, step: Step, s: Sandbox)
    requires Genuine(w, c) && Replaces(step, c.content, s) && step.read == c.read && s != c.content
    ensures CanAct(w, On(c.name, step)) && IsLocked(step)
    ensures
      AnswerTo(w[c.name], c.read).Committed? ==>
        Genuine(Do(w, On(c.name, step)), Cached(c.name, c.read + 1, s))
  {
    var x := w[c.name];
    ReplacementApplies(x, c.read, step, s);
    if AnswerTo(x, c.read).Committed? {
      CasCommits(x, c.read, s);
    }
  }

  lemma CasCommits(x: Object, read: nat, s: Sandbox)
    requires x.Exists() && Won(x, read) && s != x.Current()
    ensures CommitIfCurrent(x, read, s).versions == x.versions + [s]
  {
  }

  lemma ReplacementApplies(x: Object, read: nat, step: Step, s: Sandbox)
    requires Reads(x, read) && Replaces(step, x.versions[read], s) && step.read == read
    ensures Enabled(x, step) && ReadsForward(x, step) && Apply(x, step) == CommitIfCurrent(x, read, s)
  {
  }

  /** A write with an optimistic lock by a client whose copy may have gone stale. */
  method Update(server: ApiServer, c: Cached, step: Step, ghost s: Sandbox) returns (answer: Answer)
    requires server.Valid() && Genuine(server.objects, c)
    requires Replaces(step, c.content, s) && step.read == c.read && s != c.content
    modifies server
    ensures server.Valid() && old(server.acts) <= server.acts && Extends(old(server.objects), server.objects)
    ensures answer.Committed? ==> Genuine(server.objects, Cached(c.name, c.read + 1, s))
    ensures answer.Conflict? ==> Claimer.Overtaken(server.objects, c)
    ensures answer.NotFound? ==> BeingDeleted(server.objects, c.name)
  {
    server.Interfere();
    ghost var current := server.objects;
    Claimer.StillGenuine(old(server.objects), current, c);
    UpdateCommits(current, c, step, s);
    answer := server.Write(c.name, step);
    Claimer.ExtendsFurther(old(server.objects), current, server.objects);
  }

  lemma InstallChanges(s: Sandbox)
    requires LeaseCleanup !in s.finalizers
    ensures WithFinalizers(s) != s
  {
    assert Missing(s.finalizers, CHAIN)[0] == LeaseCleanup;
    assert |WithFinalizers(s).finalizers| > |s.finalizers|;
  }

  lemma ReclaimLeadsToDeletion(s: Sandbox, facts: Observation, template: Option<TemplateDefaults>, pod: string)
    requires Decides(s) && DecisionOn(s, facts, template).reclaim
    ensures
      var t := Reconciled(s, facts, template, pod);
      t != s && !t.deleting && LeaseCleanup in t.finalizers && IsEnding(t.status.phase)
  {
    AnnotationLeavesPhase(s, facts);
    ReclaimEnds(s, facts, template);
  }

  lemma AnnotationLeavesPhase(s: Sandbox, facts: Observation)
    ensures
      var b := Annotated(s, facts);
      b.status.phase == s.status.phase && b.deleting == s.deleting && b.finalizers == s.finalizers
  {
  }

  lemma ReclaimEnds(s: Sandbox, facts: Observation, template: Option<TemplateDefaults>)
    requires DecisionOn(s, facts, template).reclaim
    ensures DecisionOn(s, facts, template).next.Some? && IsEnding(DecisionOn(s, facts, template).next.value)
  {
    var b := Annotated(s, facts);
    DecisionFollowsGraph(b, ApplyTemplateDefaults(b, template), Observed(s, facts));
  }

  /** The object moved on, or is on its way out, since the copy was read. */
  predicate Outdated(w: World, c: Cached) {
    Claimer.Overtaken(w, c) || BeingDeleted(w, c.name)
  }

  /** What a pass writes is the decision made for this copy, over this very version; a decision to
      reclaim is followed by the deletion of the object. */
  predicate WroteDecision(w: World, c: Cached, next: Sandbox, d: Decision) {
    Genuine(w, Cached(c.name, c.read + 1, next)) && (d.reclaim ==> BeingDeleted(w, c.name))
  }

  /** Decide and write. */
  method DecideAndWrite(server: ApiServer, copy: Cached, facts: Observation, template: Option<TemplateDefaults>,
      pod: string)
    returns (outcome: Outcome, written: bool)
    requires server.Valid() && Genuine(server.objects, copy) && Decides(copy.content)
    modifies server
    ensures server.Valid() && old(server.acts) <= server.acts && Extends(old(server.objects), server.objects)
    ensures
      var next, d := Reconciled(copy.content, facts, template, pod), DecisionOn(copy.content, facts, template);
      && (written ==> WroteDecision(server.objects, copy, next, d) && outcome == Later(d.requeueAfter))
      && (!written && next != copy.content ==> Outdated(server.objects, copy))
      && (!written && next == copy.content ==> outcome == Later(d.requeueAfter))
      && (outcome == Later(d.requeueAfter) || outcome == WithError)
  {
    var next, d := Reconciled(copy.content, facts, template, pod), DecisionOn(copy.content, facts, template);
    if next == copy.content {
      return Later(d.requeueAfter), false;
    }
    var answer := Update(server, copy, WriteStatus(copy.read, facts, template, pod), next);
    if answer.Committed? && d.reclaim {
      ReclaimLeadsToDeletion(copy.content, facts, template, pod);
      var mine := Cached(copy.name, copy.read + 1, next);
      ghost var before := server.objects;
      DeleteSandbox(server, mine);
      Claimer.ExtendsFurther(old(server.objects), before, server.objects);
      Claimer.StillGenuine(before, server.objects, mine);
    }
    written := answer.Committed?;
    outcome := if answer.Committed? || (answer.Conflict? && d.reclaim) then Later(d.requeueAfter) else WithError;
  }

  /** Reconcile for a copy from the cache. policies and observed say whether the calls before the
      decision (network policies, Pod, node, Lease, template) went well; if not, nothing is
      written. A decision is written over the very version it was made for, or not at all. */
  method Reconcile(server: ApiServer, copy: Cached, facts: Observation, template: Option<TemplateDefaults>,
                   pod: string, policies: bool, observed: bool)
    returns (outcome: Outcome, written: bool)
    requires server.Valid() && Genuine(server.objects, copy)
    modifies server
    ensures server.Valid() && old(server.acts) <= server.acts && Extends(old(server.objects), server.objects)
    ensures
      var next, d := Reconciled(copy.content, facts, template, pod), DecisionOn(copy.content, facts, template);
      var decides := Decides(copy.content) && policies && observed;
      && (written ==> decides && WroteDecision(server.objects, copy, next, d))
      && (decides && next != copy.content && !Outdated(server.objects, copy) ==> written)
      && (decides && outcome != Later(d.requeueAfter) ==> outcome == WithError && Outdated(server.objects, copy))
    ensures
      Decides(copy.content) && !(policies && observed) ==>
        outcome == WithError && server.objects == old(server.objects)
    ensures
      copy.content.deleting ==>
        && (outcome.Done? && copy.content.finalizers != [] ==> server.objects[copy.name].gone)
        && (outcome.Requeue? ==> Claimer.Overtaken(server.objects, copy))
    ensures
      outcome.Requeue? && !copy.content.deleting ==>
        Genuine(server.objects, Cached(copy.name, copy.read + 1, WithFinalizers(copy.content)))
    ensures
      !copy.content.deleting && LeaseCleanup in copy.content.finalizers && IsEnding(copy.content.status.phase)
          && policies ==>
        outcome.Done? && BeingDeleted(server.objects, copy.name)
  {
    var s := copy.content;
    written := false;
    if s.deleting {
      outcome := ReconcileDelete(server, copy);
    } else if LeaseCleanup !in s.finalizers {
      InstallChanges(s);
      var answer := Update(server, copy, InstallFinalizers(copy.read), WithFinalizers(s));
      outcome := if answer.Committed? then Requeue else WithError;
    } else if !policies {
      outcome := WithError;
    } else if IsEnding(s.status.phase) {
      DeleteSandbox(server, copy);
      outcome := Done;
    } else if !observed {
      outcome := WithError;
    } else {
      outcome, written := DecideAndWrite(server, copy, facts, template, pod);
    }
  }
}
