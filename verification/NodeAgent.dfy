/** internal/nodeagent/agent.go: the freeze and thaw part of one pass of the node agent, between
    whose statements everybody else may act. Whether a cgroup write succeeds is up to the kernel. */
module NodeAgent {
  import opened Api
  import opened Protocol
  import opened Freeze
  import opened Cluster
  import Claimer

  const STATUS_ATTEMPTS := 5 // retry.DefaultRetry

  /** The agent is between two turns for this sandbox, and the copy is no older than what it saw. */
  predicate Ready(w: World, c: Cached) {
    Genuine(w, c) && w[c.name].task.NoTask? && c.read >= w[c.name].agentSeen
  }

  /** The cgroup is where the agent was told to put it, and the status says so. */
  predicate Agrees(w: World, name: string, freeze: bool) {
    && name in w && w[name].Exists()
    && w[name].cgroupFrozen == freeze
    && w[name].Current().status.hibernation == if freeze then Frozen else Active
  }

  lemma StatusWon(x: Object, read: nat, freeze: bool)
    requires Enabled(x, AgentStatus(read)) && x.task == ToStatus(freeze, x.task.at) && Won(x, read)
    ensures
      var y := Apply(x, AgentStatus(read));
      y.Exists() && y.task.NoTask? && y.cgroupFrozen == x.cgroupFrozen
      && y.Current().status.hibernation == if freeze then Frozen else Active
  {
  }

  /** The cgroup is set, and the status is still to be written. */
  predicate ToRecord(w: World, name: string, freeze: bool) {
    && name in w && w[name].task.ToStatus? && w[name].task.freeze == freeze && w[name].cgroupFrozen == freeze
    && w[name].agentSeen < |w[name].versions|
  }

  /** Nothing happened to the agent's work on its other sandboxes. */
  predicate OthersAtRest(v: World, w: World, mine: set<string>, name: string) {
    forall n | n in mine && n in v && n != name :: n in w && SameAgent(v[n], w[n])
  }

  lemma RecordLater(v: World, w: World, mine: set<string>, name: string, freeze: bool)
    requires ToRecord(v, name, freeze) && Extends(v, w) && name in mine
    requires forall n | n in mine && n in v :: SameAgent(v[n], w[n])
    ensures ToRecord(w, name, freeze) && w[name].agentSeen == v[name].agentSeen
  {
    assert v[name].versions <= w[name].versions;
  }

  lemma StatusStep(w: World, name: string, read: nat, freeze: bool)
    requires ToRecord(w, name, freeze) && w[name].agentSeen <= read < |w[name].versions|
    ensures CanAct(w, On(name, AgentStatus(read)))
    ensures
      var after := Do(w, On(name, AgentStatus(read)));
      if Won(w[name], read) then after[name].task.NoTask? && Agrees(after, name, freeze)
      else ToRecord(after, name, freeze)
  {
    if Won(w[name], read) {
      StatusWon(w[name], read, freeze);
    }
  }

  lemma OneStepElsewhere(v: World, w: World, name: string, step: Step, mine: set<string>)
    requires CanAct(v, On(name, step)) && w == Do(v, On(name, step))
    ensures OthersAtRest(v, w, mine, name)
  {
  }

  /** So many versions were committed since, by others. */
  predicate OthersWrote(v: World, w: World, name: string, n: nat) {
    name in v && name in w && (w[name].gone || |w[name].versions| >= |v[name].versions| + n)
  }

  /** How the turn of one sandbox ends. */
  datatype Outcome =
    | Skipped // nothing for this agent to do
    | Unconfirmed // the cgroup could not be set for sure
    | Recorded
    | Lost // others wrote first, every time
    | Moved // the sandbox is no longer the one that was listed: another node or another Pod
    | Vanished

  predicate IsAt(s: Sandbox, node: string, pod: string) {
    s.status.nodeName == node && s.status.podName == pod
  }

  /** Some version since says another node or another Pod. */
  predicate HasMoved(w: World, name: string, node: string, pod: string) {
    name in w && exists r :: 0 <= r < |w[name].versions| && !IsAt(w[name].versions[r], node, pod)
  }

  /** What an attempt at recording the state leaves behind. */
  predicate Attempted(v: World, w: World, name: string, freeze: bool, node: string, pod: string, res: Outcome) {
    && name in w
    && match res
       case Recorded => w[name].task.NoTask? && Agrees(w, name, freeze)
       case Lost => ToRecord(w, name, freeze) && OthersWrote(v, w, name, 1)
       case Moved => ToRecord(w, name, freeze) && HasMoved(w, name, node, pod)
       case Vanished => ToRecord(w, name, freeze) && w[name].gone
       case _ => false
  }

  /** The update of the version that was read, others having acted since. */
  method UpdateStatus(server: ApiServer, name: string, read: nat, freeze: bool, mine: set<string>) returns (won: bool)
    requires server.Valid() && name in mine && ToRecord(server.objects, name, freeze)
    requires server.objects[name].agentSeen <= read < |server.objects[name].versions|
    modifies server
    ensures server.Valid() && old(server.acts) <= server.acts && Extends(old(server.objects), server.objects)
    ensures OthersAtRest(old(server.objects), server.objects, mine, name)
    ensures name in server.objects
    ensures
      if won then server.objects[name].task.NoTask? && Agrees(server.objects, name, freeze)
      else ToRecord(server.objects, name, freeze)
           && (server.objects[name].gone || |server.objects[name].versions| > read + 1)
  {
    server.InterfereBesides(mine);
    ghost var later := server.objects;
    RecordLater(old(server.objects), later, mine, name, freeze);
    assert old(server.objects)[name].versions <= later[name].versions;
    StatusStep(later, name, read, freeze);
    won := Won(server.objects[name], read);
    server.Submit(On(name, AgentStatus(read)));
    Claimer.ExtendsFurther(old(server.objects), later, server.objects);
    OneStepElsewhere(later, server.objects, name, AgentStatus(read), mine);
    assert later[name].versions <= server.objects[name].versions && (later[name].gone ==> server.objects[name].gone);
  }

  /** One attempt at recording the state: read the current version, and update under it. Without an error and
      without writing anything it ends if the sandbox has moved; it is lost only if somebody else wrote in
      between. */
  method TryStatus(server: ApiServer, name: string, freeze: bool, node: string, pod: string, mine: set<string>)
    returns (res: Outcome)
    requires server.Valid() && name in mine && ToRecord(server.objects, name, freeze)
    modifies server
    ensures server.Valid() && old(server.acts) <= server.acts && Extends(old(server.objects), server.objects)
    ensures OthersAtRest(old(server.objects), server.objects, mine, name)
    ensures Attempted(old(server.objects), server.objects, name, freeze, node, pod, res)
  {
    server.InterfereBesides(mine);
    ghost var first := server.objects;
    RecordLater(old(server.objects), first, mine, name, freeze);
    assert old(server.objects)[name].versions <= first[name].versions;
    if server.objects[name].gone {
      return Vanished;
    }
    var read := |server.objects[name].versions| - 1;
    if !IsAt(server.objects[name].versions[read], node, pod) {
      return Moved;
    }
    var won := UpdateStatus(server, name, read, freeze, mine);
    Claimer.ExtendsFurther(old(server.objects), first, server.objects);
    res := if won then Recorded else if server.objects[name].gone then Vanished else Lost;
  }

  /** What a whole turn leaves behind once the cgroup is set. */
  predicate AtRest(v: World, w: World, name: string, freeze: bool, node: string, pod: string, res: Outcome) {
    && name in w && w[name].task.NoTask?
    && match res
       case Recorded => Agrees(w, name, freeze)
       case Lost => OthersWrote(v, w, name, STATUS_ATTEMPTS)
       case Moved => HasMoved(w, name, node, pod)
       case Vanished => w[name].gone
       case _ => false
  }

  /** The agent leaves it at that until its next pass. */
  method GiveUp(server: ApiServer, name: string, mine: set<string>)
    requires server.Valid() && name in server.objects && server.objects[name].Exists()
    modifies server
    ensures server.Valid() && old(server.acts) <= server.acts && Extends(old(server.objects), server.objects)
    ensures OthersAtRest(old(server.objects), server.objects, mine, name)
    ensures name in server.objects && server.objects[name].task.NoTask?
  {
    ghost var tried := server.objects;
    server.Submit(On(name, AgentGiveUp));
    OneStepElsewhere(tried, server.objects, name, AgentGiveUp, mine);
  }

  /** RetryOnConflict: up to five attempts, as long as they are lost to others. */
  method RecordState(server: ApiServer, name: string, freeze: bool, node: string, pod: string, mine: set<string>)
    returns (res: Outcome)
    requires server.Valid() && name in mine && ToRecord(server.objects, name, freeze)
    modifies server
    ensures server.Valid() && old(server.acts) <= server.acts && Extends(old(server.objects), server.objects)
    ensures OthersAtRest(old(server.objects), server.objects, mine, name)
    ensures AtRest(old(server.objects), server.objects, name, freeze, node, pod, res)
  {
    res := Lost;
    var i := 0;
    while i < STATUS_ATTEMPTS && res.Lost?
      invariant 0 <= i <= STATUS_ATTEMPTS
      invariant server.Valid() && old(server.acts) <= server.acts && Extends(old(server.objects), server.objects)
      invariant OthersAtRest(old(server.objects), server.objects, mine, name)
      invariant res.Lost? ==>
          ToRecord(server.objects, name, freeze) && OthersWrote(old(server.objects), server.objects, name, i)
      invariant !res.Lost? ==> Attempted(old(server.objects), server.objects, name, freeze, node, pod, res)
    {
      ghost var before := server.objects;
      res := TryStatus(server, name, freeze, node, pod, mine);
      Claimer.ExtendsFurther(old(server.objects), before, server.objects);
      i := i + 1;
    }
    if !res.Recorded? {
      ghost var tried := server.objects;
      GiveUp(server, name, mine);
      Claimer.ExtendsFurther(old(server.objects), tried, server.objects);
      assert tried[name].versions <= server.objects[name].versions && (tried[name].gone ==> server.objects[name].gone);
    }
  }

  lemma ListStep(w: World, c: Cached)
    requires Ready(w, c)
    ensures CanAct(w, On(c.name, AgentList(c.read)))
    ensures
      var x := Do(w, On(c.name, AgentList(c.read)))[c.name];
      && x.task == TaskFor(c.content, c.read) && x.agentSeen < |x.versions|
  {
  }

  lemma CgroupStep(w: World, name: string, freeze: bool, written: bool, confirmed: bool)
    requires name in w && w[name].Exists() && w[name].task.ToCgroup? && w[name].task.freeze == freeze
    requires w[name].agentSeen < |w[name].versions| && (confirmed ==> written)
    ensures CanAct(w, On(name, AgentCgroup(written, confirmed)))
    ensures
      var after := Do(w, On(name, AgentCgroup(written, confirmed)));
      if confirmed then ToRecord(after, name, freeze) else after[name].task.NoTask?
  {
  }

  /** setFrozen: the cgroup is written, and the write confirmed by reading it back. */
  method SetFrozen(server: ApiServer, c: Cached, written: bool, confirmed: bool, mine: set<string>)
    requires server.Valid() && Ready(server.objects, c) && c.name in mine && (confirmed ==> written)
    requires WantsFreeze(c.content) || WantsThaw(c.content)
    modifies server
    ensures server.Valid() && old(server.acts) <= server.acts && Extends(old(server.objects), server.objects)
    ensures OthersAtRest(old(server.objects), server.objects, mine, c.name)
    ensures c.name in server.objects
    ensures
      if confirmed then ToRecord(server.objects, c.name,
          WantsFreeze(c.content)) else server.objects[c.name].task.NoTask?
  {
    ListStep(server.objects, c);
    server.Submit(On(c.name, AgentList(c.read)));
    ghost var listed := server.objects;
    OneStepElsewhere(old(server.objects), listed, c.name, AgentList(c.read), mine);
    server.InterfereBesides(mine);
    ghost var later := server.objects;
    Claimer.ExtendsFurther(old(server.objects), listed, later);
    assert listed[c.name].versions <= later[c.name].versions;
    CgroupStep(later, c.name, WantsFreeze(c.content), written, confirmed);
    server.Submit(On(c.name, AgentCgroup(written, confirmed)));
    Claimer.ExtendsFurther(old(server.objects), later, server.objects);
    OneStepElsewhere(later, server.objects, c.name, AgentCgroup(written, confirmed), mine);
  }

  /** The sandbox is on this node, with a Pod that the node still lists as active, and wants something done. */
  predicate IsMine(s: Sandbox, node: string, podActive: bool) {
    s.status.nodeName == node && s.status.podName != "" && podActive && (WantsFreeze(s) || WantsThaw(s))
  }

  /** The loop body of Reconcile for one sandbox: nothing, or freeze or thaw its cgroup, confirm it,
      and record the new state under an optimistic lock. When it is recorded the status and the cgroup
      agree; otherwise the object is gone, others wrote it five times, or it has moved to another node. The
      turn always ends with the agent at rest. */
  method Turn(server: ApiServer, c: Cached, node: string, podActive: bool, written: bool, confirmed: bool,
      mine: set<string>)
    returns (res: Outcome)
    requires server.Valid() && Ready(server.objects, c) && c.name in mine && (confirmed ==> written)
    modifies server
    ensures server.Valid() && old(server.acts) <= server.acts && Extends(old(server.objects), server.objects)
    ensures OthersAtRest(old(server.objects), server.objects, mine, c.name)
    ensures c.name in server.objects && server.objects[c.name].task.NoTask?
    ensures res.Skipped? <==> !IsMine(c.content, node, podActive)
    ensures res.Skipped? ==> server.objects == old(server.objects)
    ensures res.Unconfirmed? <==> IsMine(c.content, node, podActive) && !confirmed
    ensures
      !res.Skipped? && !res.Unconfirmed? ==>
        AtRest(old(server.objects), server.objects, c.name, WantsFreeze(c.content), node,
               c.content.status.podName, res)
  {
    if !IsMine(c.content, node, podActive) {
      return Skipped;
    }
    SetFrozen(server, c, written, confirmed, mine);
    if !confirmed {
      return Unconfirmed;
    }
    ghost var frozen := server.objects;
    assert old(server.objects)[c.name].versions <= frozen[c.name].versions;
    res := RecordState(server, c.name, WantsFreeze(c.content), node, c.content.status.podName, mine);
    Claimer.ExtendsFurther(old(server.objects), frozen, server.objects);
  }
}
