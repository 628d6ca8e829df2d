/** What the sandbox state machine promises over whole runs of decisions: the TTL really bounds
    a life, and the idle clock starts at the claim, not at the sandbox's birth. */
module LifecycleRuns {
  import opened Api
  import opened Lifecycle
  import opened ClaimBinding

  // ---- Bounded lifetime ----

  lemma TtlAlwaysSet(sbx: Sandbox, template: Option<TemplateDefaults>)
    ensures ApplyTemplateDefaults(sbx, template).ttl > 0
    ensures
      sbx.spec.lifecycle.Some? && sbx.spec.lifecycle.value.ttl > 0
      ==> ApplyTemplateDefaults(sbx, template).ttl == sbx.spec.lifecycle.value.ttl
    ensures
      (sbx.spec.lifecycle.None? || sbx.spec.lifecycle.value.ttl == 0) && template.Some? && template.value.ttl > 0
      ==> ApplyTemplateDefaults(sbx, template).ttl == template.value.ttl
  {
  }

  /** One evaluation: the object read, the lifecycle merged for it and the facts observed. */
  datatype Turn = Turn(sbx: Sandbox, lc: Lifecycle, o: Observation) {
    function Decide(): Decision {
      NextPhase(sbx, lc, o)
    }

    function Phase(): Phase {
      sbx.status.phase
    }

    predicate Expired() {
      TtlExpired(lc, sbx, o.now)
    }
  }

  /** At the first decision after the TTL a session that is in use, idle or asleep is ended;
      only a freeze or a thaw still in progress is let finish. */
  lemma ExpiredDecision(t: Turn)
    requires t.Expired() && !t.sbx.deleting && IsClaimedPhase(t.Phase())
    ensures t.Phase().Running? || t.Phase().Idle? || t.Phase().Hibernated? ==> t.Decide().next == Some(Terminating)
    ensures t.Phase().Hibernating? ==> t.Decide().next in {None, Some(Hibernated), Some(Terminating)}
    ensures t.Phase().Resuming? ==> t.Decide().next in {None, Some(Running), Some(Terminating)}
  {
  }

  // ---- Why a sandbox is ended ----

  predicate NodeGone(o: Observation) {
    !o.nodeReady || !o.podExists
  }

  /** What the agent was asked for is still to be done. */
  predicate HandshakePending(t: Turn) {
    (t.Phase().Hibernating? && !t.o.frozen) || (t.Phase().Resuming? && !t.o.resumed)
  }

  /** Which sandboxes are ended once their TTL is over: those in use, idle or asleep, always; those that wait
      for the agent only if their node is gone; stock, which the TTL is not about, by its own rules; all
      others not at all. */
  lemma {:induction false} ExpiredIsEndedIff(t: Turn)
    requires t.Expired() && !t.sbx.deleting
    ensures
      t.Decide().next == Some(Terminating) <==>
      || t.Phase() in {Running, Idle, Hibernated}
      || (HandshakePending(t) && NodeGone(t.o))
      || (t.Phase().Ready? && t.sbx.spec.claim.None? && !NodeGone(t.o)
          && (StockTooOld(t.lc, t.sbx, t.o) || ReuseLimitHit(t.lc, t.sbx)))
  {
    if t.Phase() in {Running, Idle, Hibernated} {
      ExpiredDecision(t);
    }
  }

  /** The TTL is not looked at while a freeze or a thaw is pending: at whatever time, the decision is to stay if
      and only if the agent's answer is missing and the node is alive. */
  lemma TtlDoesNotBoundHandshakes(t: Turn, now: int)
    requires (t.Phase().Hibernating? || t.Phase().Resuming?) && !t.sbx.deleting
    ensures t.(o := t.o.(now := now)).Decide().next.None? <==> HandshakePending(t) && !NodeGone(t.o)
  {
  }

  /** The TTL and every other clock of the sandbox have run out. */
  predicate Overdue(t: Turn) {
    t.Expired() && ProvisionTimedOut(t.lc, t.sbx, t.o) && StockTooOld(t.lc, t.sbx, t.o)
  }

  /** However late it is, a sandbox that has not ended moves on at the next decision, unless it waits for the
      agent on a living node: there alone no clock runs. */
  lemma OverdueStaysIff(t: Turn)
    requires Overdue(t) && !t.sbx.deleting && !IsEnding(t.Phase())
    ensures t.Decide().next.None? <==> HandshakePending(t) && !NodeGone(t.o)
  {
  }

  /** The heartbeat is lost, nothing contradicts it, and the policy gives no (further) grace. */
  predicate HeartbeatFatal(t: Turn) {
    && !t.o.leaseHealthy && !ActivityObserved(t.lc, t.o)
    && (t.lc.onHeartbeatLoss.LossReclaim? || (!t.lc.onHeartbeatLoss.LossIgnore? && t.Phase().Idle?))
  }

  /** The idle timeout is due and nothing that comes before it applies. */
  predicate IdleFatal(t: Turn) {
    && (t.o.leaseHealthy || (!ActivityObserved(t.lc, t.o) && t.lc.onHeartbeatLoss.LossIgnore?))
    && t.lc.idleTimeout > 0 && IdleFor(t.sbx, t.o) >= t.lc.idleTimeout
    && !HibernateDue(t.lc, t.sbx, IdleFor(t.sbx, t.o)) && !t.o.manualHibernate
  }

  /** The six things that end a session. */
  predicate SessionEnds(t: Turn) {
    || t.sbx.spec.claim.None? || HardDeadlinePassed(t.sbx, t.o.now) || NodeGone(t.o) || t.Expired()
    || HeartbeatFatal(t) || IdleFatal(t)
  }

  /** A session in use or idle is ended exactly when one of six things holds, and never otherwise. */
  lemma SessionEndsIff(t: Turn)
    requires !t.sbx.deleting && t.Phase() in {Running, Idle}
    ensures t.Decide().reclaim <==> SessionEnds(t)
  {
  }

  // ---- When a sandbox moves on ----

  /** The pod is up on a healthy node, in time. */
  predicate ComesUp(t: Turn) {
    && t.o.nodeReady && t.o.podExists && !ProvisionTimedOut(t.lc, t.sbx, t.o)
    && t.o.podPhase.PodRunning? && t.o.podReady
  }

  /** Freezing is on, due or asked for, and no lost heartbeat stands against it. */
  predicate FreezeCalledFor(t: Turn) {
    && t.lc.idleTimeout > 0
    && (HibernateDue(t.lc, t.sbx, IdleFor(t.sbx, t.o)) || t.o.manualHibernate)
    && (t.o.leaseHealthy || (!ActivityObserved(t.lc, t.o) && t.lc.onHeartbeatLoss.LossIgnore?))
  }

  /** The heartbeat is lost without a sign of use, and the policy gives grace. */
  predicate HeartbeatMissed(t: Turn) {
    && !t.o.leaseHealthy && !ActivityObserved(t.lc, t.o)
    && !t.lc.onHeartbeatLoss.LossReclaim? && !t.lc.onHeartbeatLoss.LossIgnore?
  }

  /** Every move that does not end a sandbox, with exactly when it is taken: conditions on the sandbox,
      its lifecycle and what was observed, none on the decision itself. */
  lemma {:induction false} ProgressIsExact(t: Turn)
    requires !t.sbx.deleting
    ensures
      var p, next := t.Phase(), t.Decide().next;
      var claimed, lives := t.sbx.spec.claim.Some?, !SessionEnds(t);
      && (next == Some(Provisioning) <==> p in {NoPhase, Pending})
      && (next == Some(Ready) <==> p.Provisioning? && ComesUp(t) && !claimed)
      && (next == Some(Running) <==>
            || (p.Provisioning? && ComesUp(t) && claimed)
            || (p.Ready? && claimed)
            || (p.Resuming? && t.o.resumed)
            || (p.Idle? && lives && !FreezeCalledFor(t) && t.o.leaseHealthy && ActivityObserved(t.lc, t.o)))
      && (next == Some(Idle) <==> p.Running? && lives && HeartbeatMissed(t))
      && (next == Some(Hibernating) <==> p in {Running, Idle} && lives && FreezeCalledFor(t))
      && (next == Some(Hibernated) <==> p.Hibernating? && t.o.frozen)
      && (next == Some(Resuming) <==>
            && p.Hibernated? && !HardDeadlinePassed(t.sbx, t.o.now) && !NodeGone(t.o) && !t.Expired()
            && (ActivityObserved(t.lc, t.o) || t.o.manualWake))
  {
    if t.Phase() in {Running, Idle} {
      SessionEndsIff(t);
    }
  }

  /** The reason a client is given is the truth, and no stronger reason was passed over. */
  lemma RecycleReasonIsTrue(t: Turn)
    requires t.Decide().reclaim
    ensures
      match t.Decide().recycleReason
      case NoRecycle => false
      case RecycleClientReleased => t.Phase() in {Running, Idle} && t.sbx.spec.claim.None?
      case RecycleHardDeadline => HardDeadlinePassed(t.sbx, t.o.now)
      case RecycleNodeLost => NodeGone(t.o)
      case RecycleTTLExpired => t.Expired() && !NodeGone(t.o) && !HardDeadlinePassed(t.sbx, t.o.now)
      case RecycleHeartbeatLost => HeartbeatFatal(t) && !t.Expired() && !NodeGone(t.o)
      case RecycleIdleTimeout =>
        t.lc.idleTimeout > 0 && IdleFor(t.sbx, t.o) >= t.lc.idleTimeout && !t.Expired() && !NodeGone(t.o)
      case RecycleStockRotation => t.Phase().Ready? && t.sbx.spec.claim.None? && StockTooOld(t.lc, t.sbx, t.o)
      case RecycleReuseLimitReached => t.Phase().Ready? && t.sbx.spec.claim.None? && ReuseLimitHit(t.lc, t.sbx)
      case RecycleRuntimeError =>
        t.Phase().Provisioning? && t.o.nodeReady
        && (ProvisionTimedOut(t.lc, t.sbx, t.o) || (t.o.podExists
            && (t.o.podPhase.PodFailed? || t.o.podPhase.PodSucceeded?)))
  {
  }

  // ---- The idle clock ----

  /** A sandbox is ended as idle only when the idle timeout has run from the latest of its birth,
      its claim, its last activity and its last heartbeat. */
  lemma IdleTimeoutIsNeverEarly(t: Turn)
    requires t.Decide().reason.IdleTimeout?
    ensures t.lc.idleTimeout > 0
    ensures t.o.now >= t.sbx.createdAt + t.lc.idleTimeout
    ensures
      var ref := t.sbx.status.claimRef;
      ref.Some? && ref.value.claimedAt.Some? ==> t.o.now >= ref.value.claimedAt.value + t.lc.idleTimeout
    ensures t.sbx.status.lastActiveAt.Some? ==> t.o.now >= t.sbx.status.lastActiveAt.value + t.lc.idleTimeout
    ensures t.o.lastLeaseRenewAt.Some? ==> t.o.now >= t.o.lastLeaseRenewAt.value + t.lc.idleTimeout
  {
  }

  /** A turn in which no stronger reason than idleness applies. */
  predicate Healthy(t: Turn) {
    && !t.sbx.deleting
    && t.Phase() in {Running, Idle}
    && t.sbx.spec.claim.Some?
    && !HardDeadlinePassed(t.sbx, t.o.now)
    && t.o.nodeReady && t.o.podExists && t.o.leaseHealthy
    && !t.Expired()
  }

  /** In a healthy turn the idle timeout fires exactly when it is due, except that freezing has
      precedence: a due freeze, or one asked for by hand, is taken first. */
  lemma IdleTimeoutIsExact(t: Turn)
    requires Healthy(t)
    ensures
      t.Decide().reason.IdleTimeout? <==>
        && t.lc.idleTimeout > 0
        && t.o.now - LastUse(t.sbx, t.o) >= t.lc.idleTimeout
        && !HibernateDue(t.lc, t.sbx, IdleFor(t.sbx, t.o))
        && !t.o.manualHibernate
  {
  }

  /** A healthy turn that leaves the phase alone comes back after a positive wait, and with the
      idle timeout on it comes back no later than the idle deadline. */
  lemma RequeueMeetsIdleDeadline(t: Turn)
    requires Healthy(t) && t.Decide().next.None?
    ensures t.Decide().requeueAfter > 0
    ensures
      t.lc.idleTimeout > 0
      ==> t.o.now + t.Decide().requeueAfter <= LastUse(t.sbx, t.o) + t.lc.idleTimeout
  {
  }

  /** Some sighting in the run shows the booking, and from m on nothing else was seen. */
  predicate BookedFrom(run: seq<Sighting>, m: nat) {
    && m < |run|
    && run[m].claim.Some?
    && OpensBlock(run, m)
    && OnlySeen(run, m, run[m].claim.value)
  }

  lemma BlockIsUnique(run: seq<Sighting>, m: nat, k: nat)
    requires BookedFrom(run, m) && m < k < |run| && run[k].claim.Some?
    ensures !OpensBlock(run, k)
  {
    assert SameBooking(run[k].claim.value, run[m].claim.value);
    var j := LastClaim(run, m, k);
    assert Continues(run, j, k);
  }

  /** However long a sandbox lay in the pool before it was claimed, no decision taken within the
      idle timeout after the controller first saw the claim ends it as idle. */
  lemma PoolDwellIsNotIdleness(stock: Sandbox, run: seq<Sighting>, m: nat, t: Turn)
    requires stock.status.claimRef.None? && BookedFrom(run, m)
    requires t.sbx.status.claimRef == ObserveAll(stock, run).status.claimRef
    requires t.o.now < run[m].now + t.lc.idleTimeout
    ensures t.sbx.status.claimRef == Some(RefFor(run[m].claim.value, run[m].now))
    ensures !t.Decide().reason.IdleTimeout?
  {
    StatusTellsBlocks(stock, run);
    var k: nat :| k < |run| && LastBlockIs(run, k, t.sbx.status.claimRef);
    assert BookedFrom(run, k);
    if k < m {
      BlockIsUnique(run, k, m);
    } else if m < k {
      BlockIsUnique(run, m, k);
    }
    if t.Decide().reason.IdleTimeout? {
      IdleTimeoutIsNeverEarly(t);
    }
  }
}
