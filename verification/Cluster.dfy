/** Many sandboxes on one API server, and the server as the reconcilers use it: a shared object
    whose other clients may act between any two statements. */
module Cluster {
  import opened Api
  import opened Protocol
  import opened Safety
  import opened Freeze
  import opened Finalizers

  type World = map<string, Object>

  datatype Act = On(name: string, step: Step) | Create(name: string, sandbox: Sandbox)

  predicate CanAct(w: World, a: Act) {
    match a
    case On(n, step) => n in w && Enabled(w[n], step) && ReadsForward(w[n], step)
    case Create(n, s) => n !in w && Created(s)
  }

  function Do(w: World, a: Act): World
    requires CanAct(w, a)
  {
    match a
    case On(n, step) => w[n := Apply(w[n], step)]
    case Create(n, s) => w[n := NewObject(s)]
  }

  /** The world after the acts, or None if one of them could not be taken. */
  function Replay(w: World, acts: seq<Act>): Option<World> {
    if acts == [] then Some(w)
    else
      var before := Replay(w, acts[..|acts| - 1]);
      var a := acts[|acts| - 1];
      if before.Some? && CanAct(before.value, a) then Some(Do(before.value, a)) else None
  }

  ghost predicate WorldInv(w: World) {
    forall n | n in w :: FreezeInv(w[n]) && ChainKept(w[n])
  }

  /** Objects stay and their histories only grow. */
  predicate Extends(v: World, w: World) {
    forall n | n in v ::
      n in w && v[n].versions <= w[n].versions && v[n].attempted <= w[n].attempted && (v[n].gone ==> w[n].gone)
  }

  lemma NewObjectInWorld(s: Sandbox)
    requires Created(s)
    ensures FreezeInv(NewObject(s)) && ChainKept(NewObject(s))
  {
    NewObjectInv(s);
  }

  lemma ActKeepsWorldInv(w: World, a: Act)
    requires WorldInv(w) && CanAct(w, a)
    ensures WorldInv(Do(w, a))
  {
    match a {
      case On(n, step) =>
        StepKeepsFreezeInv(w[n], step);
        StepKeepsChain(w[n], step);
      case Create(n, s) =>
        NewObjectInWorld(s);
    }
  }

  lemma NothingIsUndone(x: Object, step: Step)
    requires Enabled(x, step)
    ensures x.gone ==> Apply(x, step).gone
    ensures x.attempted <= Apply(x, step).attempted
  {
  }

  lemma ActExtends(w: World, a: Act)
    requires CanAct(w, a)
    ensures Extends(w, Do(w, a))
  {
    if a.On? {
      StepGrows(w[a.name], a.step);
      NothingIsUndone(w[a.name], a.step);
      var v, u := w[a.name].versions, Apply(w[a.name], a.step).versions;
      assert v <= u;
    }
  }

  lemma {:induction false} ReplayKeepsWorldInv(w: World, acts: seq<Act>)
    requires WorldInv(w) && Replay(w, acts).Some?
    ensures WorldInv(Replay(w, acts).value)
    decreases |acts|
  {
    if acts != [] {
      ReplayKeepsWorldInv(w, acts[..|acts| - 1]);
      ActKeepsWorldInv(Replay(w, acts[..|acts| - 1]).value, acts[|acts| - 1]);
    }
  }

  /** What is true of every object in the store. */
  ghost predicate SafeObject(x: Object) {
    x.Exists() && BoundOnce(x) && OneBooking(x) && HandshakeHolds(x) && InChainOrder(x.attempted)
  }

  lemma ObjectIsSafe(x: Object)
    requires FreezeInv(x) && ChainKept(x)
    ensures SafeObject(x)
  {
    assert Inv(x);
    InvGivesBoundOnce(x);
    InvGivesOneBooking(x);
    assert StateFitsPhase(x.versions[|x.versions| - 1]);
    InvGivesHandshake(x);
  }

  /** Whatever any number of clients did to the store, in whatever interleaving: every object in
      it was bound at most once, tells one booking, and keeps the handshake and the chain. */
  lemma EveryWorldIsSafe(w: World, acts: seq<Act>)
    requires WorldInv(w) && Replay(w, acts).Some?
    ensures forall n | n in Replay(w, acts).value :: SafeObject(Replay(w, acts).value[n])
  {
    ReplayKeepsWorldInv(w, acts);
    forall n | n in Replay(w, acts).value
      ensures SafeObject(Replay(w, acts).value[n])
    {
      ObjectIsSafe(Replay(w, acts).value[n]);
    }
  }

  /** Writes that carry the version they were made for. */
  predicate IsLocked(step: Step) {
    step.Bind? || step.Release? || step.InstallFinalizers? || step.WriteStatus? || step.DropFinalizer?
  }

  lemma LostWrite(w: World, name: string, step: Step)
    requires CanAct(w, On(name, step)) && IsLocked(step) && !Won(w[name], step.read)
    ensures Do(w, On(name, step)) == w
  {
    assert Apply(w[name], step) == w[name];
    assert w[name := w[name]] == w;
  }

  predicate IsAgentStep(step: Step) {
    step.AgentList? || step.AgentCgroup? || step.AgentStatus? || step.AgentGiveUp?
  }

  /** The agent's progress and its cgroup are where they were. */
  predicate SameAgent(x: Object, y: Object) {
    x.agentSeen == y.agentSeen && x.task == y.task && x.cgroupFrozen == y.cgroupFrozen
  }

  lemma OthersLeaveAgent(w: World, a: Act, mine: set<string>)
    requires CanAct(w, a) && !(a.On? && a.name in mine && IsAgentStep(a.step))
    ensures forall n | n in mine && n in w :: n in Do(w, a) && SameAgent(w[n], Do(w, a)[n])
  {
    if a.On? && !IsAgentStep(a.step) {
      StepLeavesAgent(w[a.name], a.step);
    }
  }

  lemma StepLeavesAgent(x: Object, step: Step)
    requires Enabled(x, step) && !IsAgentStep(step)
    ensures SameAgent(x, Apply(x, step))
  {
  }

  /** An object as a client holds it: which version it is a copy of, and what it says. */
  datatype Cached = Cached(name: string, read: nat, content: Sandbox)

  predicate Genuine(w: World, c: Cached) {
    c.name in w && c.read < |w[c.name].versions| && w[c.name].versions[c.read] == c.content
  }

  predicate AllGenuine(w: World, copies: seq<Cached>) {
    forall i | 0 <= i < |copies| :: Genuine(w, copies[i])
  }

  datatype Answer = Committed | Conflict | NotFound

  function AnswerTo(x: Object, read: nat): Answer {
    if x.gone then NotFound else if read + 1 == |x.versions| then Committed else Conflict
  }

  class ApiServer {
    ghost const start: World
    ghost var acts: seq<Act>
    var objects: World

    constructor (w: World)
      requires WorldInv(w)
      ensures Valid() && objects == start == w && acts == []
    {
      start, objects := w, w;
      acts := [];
    }

    /** The store is what its clients made of it, and nothing else. */
    ghost predicate Valid()
      reads this
    {
      WorldInv(start) && Replay(start, acts) == Some(objects)
    }

    lemma ObjectsAreSafe()
      requires Valid()
      ensures WorldInv(objects)
      ensures forall n | n in objects :: SafeObject(objects[n])
    {
      ReplayKeepsWorldInv(start, acts);
      EveryWorldIsSafe(start, acts);
    }

    method Submit(a: Act)
      requires Valid() && CanAct(objects, a)
      modifies this
      ensures Valid() && acts == old(acts) + [a] && objects == Do(old(objects), a)
      ensures Extends(old(objects), objects)
    {
      ActExtends(objects, a);
      acts := acts + [a];
      objects := Do(objects, a);
      assert acts[..|acts| - 1] == old(acts);
    }

    /** Any number of acts by any other clients. */
    method Interfere()
      requires Valid()
      modifies this
      ensures Valid() && old(acts) <= acts && Extends(old(objects), objects)
    {
      var n: nat := *;
      while n > 0
        invariant Valid() && old(acts) <= acts && Extends(old(objects), objects)
      {
        var a: Act := *;
        if CanAct(objects, a) {
          Submit(a);
        }
        n := n - 1;
      }
    }

    /** Acts by anybody but the node agent of the sandboxes named. */
    method InterfereBesides(mine: set<string>)
      requires Valid()
      modifies this
      ensures Valid() && old(acts) <= acts && Extends(old(objects), objects)
      ensures forall n | n in mine && n in old(objects) :: SameAgent(old(objects)[n], objects[n])
    {
      var n: nat := *;
      while n > 0
        invariant Valid() && old(acts) <= acts && Extends(old(objects), objects)
        invariant forall n | n in mine && n in old(objects) :: SameAgent(old(objects)[n], objects[n])
      {
        var a: Act := *;
        if CanAct(objects, a) && !(a.On? && a.name in mine && IsAgentStep(a.step)) {
          OthersLeaveAgent(objects, a, mine);
          Submit(a);
        }
        n := n - 1;
      }
    }

    /** A list from an informer cache: any copies of any versions, however old. */
    method ReadCache() returns (copies: seq<Cached>)
      requires Valid()
      ensures AllGenuine(objects, copies)
    {
      copies := *;
      if !AllGenuine(objects, copies) {
        copies := [];
      }
    }

    /** A write with an optimistic lock: the answer tells whether the version was still current. */
    method Write(name: string, step: Step) returns (answer: Answer)
      requires Valid() && CanAct(objects, On(name, step)) && IsLocked(step)
      modifies this
      ensures Valid() && acts == old(acts) + [On(name, step)]
      ensures objects == Do(old(objects), On(name, step)) && Extends(old(objects), objects)
      ensures answer == AnswerTo(old(objects)[name], step.read)
      ensures !answer.Committed? ==> objects == old(objects)
    {
      answer := AnswerTo(objects[name], step.read);
      if !answer.Committed? {
        LostWrite(objects, name, step);
      }
      Submit(On(name, step));
    }
  }
}
