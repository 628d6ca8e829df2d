# Sandbox pool control plane: a verified model

This project models the control plane of a Kubernetes sandbox pool in Dafny and proves properties of
it. A pool keeps stock ready, gateways bind stock to sessions, a controller per sandbox walks it
through its life, an agent on every node freezes and thaws it, and a sweeper cleans up what was
missed. All of them share one versioned object store and none of them holds a lock, so most of what
is proved here is about every interleaving of their reads and writes, or about every run of one of
them.

`dafny verify dfyconfig.toml` checks the whole project.

## How it is laid out

| files | what they model |
|---|---|
| `Api` | the API objects, reduced to the fields the control plane decides on |
| `Protocol`, `Safety`, `Freeze`, `Finalizers` | one sandbox object with its full version history, one atomic step per effect of each actor, reads of any past version; and the invariants of every run |
| `Scenarios`, `DrainRaces`, `ExpiredRuns` | runs from new stock to a session, asleep and awake, and what goes wrong where a premise fails; shrinking a pool against claims; what an expired TTL still lets happen |
| `Cluster` | many objects, and the API server as a shared object whose other clients act between any two statements |
| `Claimer`, `ClaimRace`, `RepeatedCalls`, `RaceOnServer`, `Gateway` | binding stock, many claimers racing for one stock, one request sent more than once, and the race as reads and bind patches on the server; cold creation, release and hibernation requests |
| `Lifecycle`, `LifecycleRuns`, `ClaimBinding`, `Reconciler` | the sandbox state machine, its runs, the recording of claims, and a reconcile pass as a method |
| `NodeAgent` | freezing and thawing as a method |
| `Scaling`, `ScalingRuns`, `WarmLoop`, `PoolStock`, `Overshoot`, `Protect` | the pool's water-level controller: one decision, runs of decisions, the closed loop, counting and draining stock, stock that is not counted yet, protection mode |
| `RateLimit` | the per-tenant token buckets |
| `Classify`, `ClassifyLaws`, `SweepRounds`, `Sweeper` | the leak sweeper: one classification, what it means, runs of sweeps, and one sweep as a method |
| `Levels`, `Resolver` | isolation levels, the cycle check and the caching resolver |
| `Rounding`, `Lists`, `StableSort` | the parts of the Go library the above rely on |

A read returns any version ever committed, because informer caches lag. An update, or a patch with an
optimistic lock, commits only if the version it was made for is still current; a plain merge patch
changes the fields it touches whatever the current version is (RFC 7396, section 2). A write that
changes nothing makes no new version. Methods that talk to the server (`Claimer.ClaimStock`,
`Reconciler.Reconcile`, `NodeAgent.Turn`, `PoolStock.MarkDraining` and others) let any number of acts
by any other client happen between their statements, and every write they make is a step of
`Protocol`, so the invariants of `Safety`, `Freeze` and `Finalizers` hold of every object at every
instant (`Cluster.EveryWorldIsSafe`).

Times are whole seconds except in `RateLimit`, numbers of sandboxes are unbounded integers, rates,
ratios and tokens are reals, and rounding goes half away from zero as in Go's `math.Round`. A zero time
or an absent reference is an `Option`. One evaluation takes one clock value.

## What the code does that its documentation does not say

Where the two disagree the model follows the code, and a lemma shows the point.

- `claimedCount` never exceeds one, because a sandbox is bound at most once in its life: a limit on
  re-use above one is never reached, and preferring stock of the same tenant never applies, since stock
  carries no tenant (`Safety.EveryRunIsSafe`, `Claimer.CandidatesAreFifo`).
- Neither draining phase has a precondition: stock that is marked can still be claimed, stock that is
  claimed can still be marked, and either is then deleted under its claim
  (`DrainRaces.MarkedStockIsClaimedAndDeleted`, `DrainRaces.ClaimedStockIsMarkedAndDeleted`); without one of
  the two it never is (`DrainRaces.PoolDeletesClaimedIff`).
- A request is looked up before it is bound, in two steps. Sent twice at once it binds two sandboxes if and
  only if there is stock for both and neither call, however often it retries, looks after the other has bound
  one (`RaceOnServer.RepeatedRequestBindsTwiceIff`, `RepeatedCalls.OneRequestCanBindTwice`); without a request
  id every call binds its own (`RepeatedCalls.CallsWithoutIdBindEach`).
- New stock counts as nothing until its own controller has seen it, so two rounds can create twice what
  maxWarm allows (`Overshoot.TwoRoundsOvershoot`, `Overshoot.GrowthStaysWithinIff`).
- A round acts before it writes the status. If the write is lost, or an error ends the round after it moved
  stock, the next round does the same again at once, whatever the cooldown
  (`ScalingRuns.LostWriteBreaksCooldown`, `ScalingRuns.LostMovesRepeat`); and a decision that found nothing to
  move still takes the cooldown off the other direction (`ScalingRuns.EmptyMoveBreaksCooldown`). Without
  either the cooldown holds of what was done (`ScalingRuns.ExecutedMovesCoolDown`).
- The TTL bounds use, idleness and sleep only. It is not looked at before a sandbox has a phase, while it is
  pending or provisioning, or while it is ready, where other clocks run, nor while a freeze or a thaw is
  pending, where none does: until the agent answers or the node is gone the sandbox stays, however late it is
  (`LifecycleRuns.ExpiredIsEndedIff`, `LifecycleRuns.TtlDoesNotBoundHandshakes`,
  `LifecycleRuns.OverdueStaysIff`).
- A node agent that lists through a lagging cache can freeze a sandbox in use and thaw one in its sleep; the
  handshake holds for an agent whose reads of one sandbox never go backwards, as those of its uncached client
  do not (`Scenarios.StaleListFreezesRunning`, `Scenarios.StaleListThawsHibernated`,
  `Freeze.EveryRunKeepsHandshake`).
- The bound of three reversals holds for a window without its first instant; with it, four fit
  (`ScalingRuns.ReversalsAreBounded`, `ScalingRuns.ClosedWindowHoldsFour`).
- Burst plus rate times time bounds what a tenant is granted if and only if its bucket refills before it counts
  as idle, or its burst is below one token (`RateLimit.WindowBoundIff`); in the latter case nothing is ever
  granted (`RateLimit.BurstBelowOneNeverGrants`).
- A session phase does not imply a claim: a release leaves the phase to the controller's next pass
  (`Gateway.ReleaseLeavesPhase`). A claim is missing exactly where one was taken away before
  (`Gateway.SessionWithoutClaimIff`); what every version keeps is the claimed label.
- The marks for hibernating and waking exclude each other only if the gateway's copy did not hide a change
  of them (`Gateway.HibernationRequestTakesIff`); with both, the controller wakes the sandbox.
- The reason `ProtectModeThrottled` is also given when a throttle of 1000 permille changed nothing
  (`Scaling.ThrottlingMadeADifferenceIff`).
- A round that finds no runtime writes a predicted demand of zero, so the smoother starts over
  (`WarmLoop.DemandStartsOver`).
- The result of a classification that is cut off among Pods is handed out unsorted
  (`ClassifyLaws.CutAmongPodsIsUnsorted`, `ClassifyLaws.SortedIff`).
- The start of protection that the status shows is that of the first trip ever
  (`Protect.SinceIsNotTheCurrentTrip`), which is the current one if and only if there was no other
  (`Protect.SinceIsCurrentIff`).

## Model

| member | source | states |
|---|---|---|
| `Safety.StepKeepsInv` | internal/controller/sandbox_controller.go:70-185 | Every step of every actor, taken on any stale copy, keeps the invariant of the whole version history. |
| `Safety.EveryRunIsSafe` | internal/claim/claim.go:147-188 | In every interleaving of gateways, controllers, agent and sweeper: a sandbox is bound at most once in its life, only while ready, unclaimed and not being deleted; claim and labels always tell the same booking; an ending phase is never left; the Pod, the public handle and the claim snapshot never change; phases follow the graph. |
| `Safety.InvGivesBoundOnce` | internal/claim/claim.go:235-283 | At the commit of the only bind the sandbox was listed, ready, unclaimed and not deleting. |
| `Safety.InvGivesOneBooking` | internal/controller/claim_binding.go:73-120 | A claim agrees with the claimed, tenant and request-id labels and with the recorded snapshot in every version, and is counted once. |
| `Safety.NoSecondBind` | internal/claim/claim.go:196-205 | Two versions in which a claim appears are the same version. |
| `Freeze.StepKeepsFreezeInv` | internal/nodeagent/agent.go:91-140 | Every step keeps the freeze handshake invariant, including agent crashes between cgroup and status. |
| `Freeze.EveryRunKeepsHandshake` | internal/nodeagent/agent.go:91-140 | Running or idle implies that neither cgroup nor status is frozen; hibernated implies both are; for an agent whose reads never go backwards. |
| `Freeze.ThawComesFirst` | internal/controller/phases.go:224-232 | A step that takes a sandbox from Resuming to Running finds it thawed. |
| `Scenarios.StaleListFreezesRunning` | internal/nodeagent/agent.go:91-107 | For any plain stock and session there is a run from its creation to sleep and back, after which an agent acting on a list older than one it has acted on freezes the sandbox in use. |
| `Scenarios.StaleListThawsHibernated` | internal/nodeagent/agent.go:91-107 | And one in which, asleep for the second time, it is thawed by a list as old as its first waking up. |
| `Finalizers.StepKeepsChain` | internal/controller/sandbox_controller.go:393-421 | Every step keeps the persisted finalizers a tail of the fixed order and the first attempts in that order. |
| `Finalizers.EveryRunCleansUpInOrder` | internal/controller/sandbox_controller.go:373-421 | Over every run: finalizers are a tail of the chain, clean-up steps are first tried in chain order, and an object that is gone without being forced had all five tried. |
| `Finalizers.DeletersFindChain` | internal/controller/sandbox_controller.go:81-83 | Whoever deletes acts on a copy that had finalizers, so a deletion starts with a full chain. |
| `Finalizers.TurnShrinksChain` | internal/controller/sandbox_controller.go:393-421 | One undisturbed turn tries the first step left and drops just its finalizer, whatever came of the try. |
| `Finalizers.TurnsFinish` | internal/controller/sandbox_controller.go:404-419 | As many undisturbed turns as there are finalizers left remove the object, having tried exactly those steps in order. |
| `Cluster.EveryWorldIsSafe` | internal/claim/claim.go:147-188 | After any acts of any clients on any number of objects, every object is bound at most once, tells one booking, keeps the handshake and the chain order. |
| `Cluster.ReplayKeepsWorldInv` | internal/controller/sandbox_controller.go:70-185 | The invariants of all objects hold after any legal sequence of acts. |
| `Cluster.ApiServer.Write` | internal/claim/claim.go:251-283 | A locked write changes the store only if the version it was made for is current, and its answer says which. |
| `Claimer.FindByRequestId` | internal/claim/claim.go:286-306 | Finds the first listed sandbox of the same tenant and request id, and none only if there is none or no request id. |
| `Claimer.CandidatesAreGenuine` | internal/claim/claim.go:196-229 | Candidates are copies of real versions that the selector lets through. |
| `Claimer.CandidatesAreFifo` | internal/claim/claim.go:207-229 | Candidates come oldest first, whatever the tenant. |
| `Claimer.TryBind` | internal/claim/claim.go:251-283 | A success is the version this request committed over the very copy it examined; a conflict means that somebody wrote in between. |
| `Claimer.TryOne` | internal/claim/claim.go:153-183 | One turn of the loop: an attempt is counted only for a claimable candidate, a conflict only for a lost one. |
| `Claimer.TryCandidates` | internal/claim/claim.go:147-188 | Success binds the candidate examined last with all before it out of reach; exhausted means all examined and out of reach; contended means the budget was spent on lost races. |
| `Claimer.ClaimStock` | internal/claim/claim.go:130-188 | One claim from validation to answer, with other clients acting before every read and write: the sandbox found under the same request if one was listed, otherwise a bind of its own or a refusal with exact attempt and conflict counts; an invalid request changes nothing. |
| `RaceOnServer.FirstBindWins` | internal/claim/claim.go:251-283 | Of any number of binds of one version of unclaimed stock the first takes the sandbox and all others change nothing. |
| `RaceOnServer.AttemptIsBind` | internal/claim/claim.go:153-183 | An attempt of the race is the bind patch of its claimer on the version listed: the server can take it, and what it makes of the store is what the race says. |
| `RaceOnServer.CandidatesAreCurrentList` | internal/claim/claim.go:196-229 | The candidates computed from a current list of everything on the server are a list the race may hand out: every unclaimed piece of stock once, ready or not, and nothing else. |
| `RaceOnServer.FoundIsLookup` | internal/claim/claim.go:286-306 | What FindByRequestId finds in such a list, whatever its order, is a lookup the race allows, and finding nothing is one only where there is nothing to find. |
| `RaceOnServer.RaceIsBinds` | internal/claim/claim.go:147-188 | Every race of claimers is a legal run of bind patches on the server, after which each sandbox is as it was or carries its owner's claim. |
| `RaceOnServer.StoreConservesStock` | internal/claim/claim.go:130-188 | When all have an answer, exactly min(stock, calls that were not given a sandbox of their request again) sandboxes on the server carry a claim, every winner's its own; every idempotent answer names a sandbox that tells the request; if one was told that the pool is exhausted no stock is left to list. |
| `RaceOnServer.UnrelatedRequestsConserveStock` | internal/claim/claim.go:130-188 | For different requests, and any number without an id, exactly min(stock, calls) are bound. |
| `RaceOnServer.RepeatedRequestBindsTwiceIff` | internal/claim/claim.go:135-188 | One new request sent twice at once, in any interleaving, retries included: two sandboxes on the server carry it if and only if there was stock for both and neither call looked after the other had bound one. |
| `RepeatedCalls.AnsweredAgainIff` | internal/claim/claim.go:135-145 | With any number of claimers: a call is given a sandbox again if and only if its request was known before, or it looked after another call of the request had bound one. |
| `RepeatedCalls.OneRequestCanBindTwice` | internal/claim/claim.go:135-151 | For any two pieces of stock and any budget a race in which two calls of one request bind both. |
| `RepeatedCalls.CallsWithoutIdBindEach` | internal/claim/claim.go:287-289 | Two calls without a request id hold a sandbox each if and only if there is stock for both. |
| `ClaimRace.WinnersAreOwners` | internal/claim/claim.go:153-188 | Winners hold different sandboxes, as many as are bound. |
| `ClaimRace.EveryMoveCosts` | internal/claim/claim.go:135-188 | Every lookup, listing, examination and retry of every claimer lowers one measure. |
| `ClaimRace.NobodyIsStuck` | internal/claim/claim.go:130-188 | As long as a claimer has no answer some claimer can move. |
| `ClaimRace.RaceConservesStock` | internal/claim/claim.go:184-188 | When all have an answer, exactly min(stock, claimers not answered with a sandbox of their own request) bound one, and one told that the pool is exhausted is right. |
| `ClaimRace.EveryRaceEnds` | internal/claim/claim.go:130-188 | From any stock, ready or not, and any number of claimers, in any interleaving, the race ends within a bound and conserves stock; a budget spent before the end of the list is a retry. |
| `Gateway.CreateCold` | internal/gateway/store.go:270-378 | A refusal changes nothing; otherwise exactly one sandbox appears, claimed from birth. |
| `Gateway.ColdSandboxIsNeverBound` | internal/gateway/store.go:332-372 | Over any run no version of it can be bound by a claimer, and it never carries another claim. |
| `Gateway.ReleaseSandbox` | internal/gateway/store.go:397-475 | Clears the claim of the version it read and nothing else; twice is no error, a conflict is left to the caller, and another tenant's sandbox is neither shown nor touched. |
| `Gateway.RequestHibernation` | internal/gateway/store.go:530-559 | For the owner of a claimed sandbox the two marks are patched onto whatever is current; everybody else changes nothing. |
| `Gateway.HibernationRequestTakesIff` | internal/gateway/store.go:530-559 | A request to hibernate or wake takes effect and leaves the two marks exclusive if and only if the copy hid no change of either. |
| `Gateway.SessionWithoutClaimIff` | internal/gateway/store.go:450-475 | Over every run of all actors from a new sandbox: a version in a session phase has no claim if and only if a commit before it took one away. |
| `Gateway.ReleaseLeavesPhase` | internal/gateway/store.go:450-475 | For any plain stock and session a run that ends in a running sandbox without a claim. |
| `Lifecycle.DecisionFollowsGraph` | internal/controller/phases.go:166-237 | A decision moves along one edge of the phase graph or not at all; it reclaims exactly when it enters an ending phase; handshake edges need the agent's word. |
| `LifecycleRuns.TtlAlwaysSet` | internal/controller/phases.go:627-724 | The merged lifecycle always has a positive TTL, the sandbox's own before the template's. |
| `LifecycleRuns.ProgressIsExact` | internal/controller/phases.go:166-415 | Every move that does not end a sandbox is taken if and only if a condition on the sandbox, its lifecycle and the observation holds, which speaks of no decision. |
| `LifecycleRuns.ExpiredIsEndedIff` | internal/controller/phases.go:166-415 | After the TTL a sandbox is ended at the next decision if and only if it is in use, idle or asleep, or waits for the agent of a node that is gone, or is unclaimed stock on a living node that its own rules end. |
| `ExpiredRuns.ExpiredRunIsShort` | internal/controller/phases.go:166-237 | Over any run of all actors, on copies however old, in which every decision finds the TTL expired: a sandbox in use or asleep changes phase at most twice more, any other at most four times, besides one final change into Failed; and no version enters Hibernating or Resuming. |
| `LifecycleRuns.TtlDoesNotBoundHandshakes` | internal/controller/phases.go:195-232 | While a freeze or a thaw is pending the decision at any time is to stay if and only if the answer is missing and the node alive. |
| `LifecycleRuns.OverdueStaysIff` | internal/controller/phases.go:166-237 | With every clock run out, a sandbox that has not ended stays at the next decision if and only if it waits for the agent of a living node. |
| `LifecycleRuns.SessionEndsIff` | internal/controller/phases.go:328-415 | A running or idle session is ended if and only if it was released, or a deadline, the node, the TTL, the heartbeat or idleness calls for it. |
| `LifecycleRuns.RecycleReasonIsTrue` | internal/controller/phases.go:243-456 | The recycle reason given names a condition that holds, and no stronger one was passed over. |
| `LifecycleRuns.IdleTimeoutIsNeverEarly` | internal/controller/phases.go:495-510 | The idle timeout ran from the latest of birth, claim, activity and heartbeat. |
| `LifecycleRuns.IdleTimeoutIsExact` | internal/controller/phases.go:391-415 | In a healthy turn it fires exactly when due, except that freezing has precedence. |
| `LifecycleRuns.RequeueMeetsIdleDeadline` | internal/controller/phases.go:567-580 | A healthy turn that stays comes back after a positive wait and not after the idle deadline. |
| `LifecycleRuns.PoolDwellIsNotIdleness` | internal/controller/claim_binding.go:73-120 | However long the stock lay in the pool, no decision within the idle timeout of the first sighting of its claim ends it as idle. |
| `ClaimBinding.SandboxObject.EnsureSandboxId` | internal/controller/claim_binding.go:31-41 | Sets the id once, from the object's UID, and reports whether it did. |
| `ClaimBinding.SandboxObject.BindClaimStatus` | internal/controller/claim_binding.go:73-120 | Records a claim that differs in tenant or request, keeps the time of one already recorded, and counts it. |
| `ClaimBinding.StatusTellsBlocks` | internal/controller/claim_binding.go:73-120 | Over any sightings the count is the number of blocks of equal bookings, ignoring releases, and the claim time is the first sighting of the last block. |
| `Reconciler.ReconcileDelete` | internal/controller/sandbox_controller.go:393-421 | Done means every step the copy had a finalizer for was tried and the object is gone; a requeue means somebody else wrote. |
| `Reconciler.CleanUp` | internal/controller/sandbox_controller.go:395-419 | One step of the chain: tried whatever comes of it, then dropped under the version that was read. |
| `Reconciler.DecideAndWrite` | internal/controller/sandbox_controller.go:131-185 | A decision is written over the very version it was made for or not at all; a reclaim that was written is followed by the deletion. |
| `Reconciler.Reconcile` | internal/controller/sandbox_controller.go:70-185 | The whole pass: deletion first, then finalizers, then clean-up of ended sandboxes, then a decision; nothing is written when an observation failed. |
| `Reconciler.ReclaimLeadsToDeletion` | internal/controller/sandbox_controller.go:272-306 | What a reclaim decision writes is an ending phase, so a pass after a crash deletes what this one did not. |
| `NodeAgent.TryStatus` | internal/nodeagent/agent.go:126-137 | One attempt: recorded, cgroup and status agree; lost, somebody else wrote in between; moved, some version says another node or Pod and nothing is written; or the object is gone. |
| `NodeAgent.Turn` | internal/nodeagent/agent.go:91-140 | One sandbox in one pass, with everybody else acting in between: skipped exactly if it is not this node's, has no active Pod or wants nothing; recorded, cgroup and status agree; otherwise the cgroup was not confirmed, the object is gone or has moved, or others wrote five times; and the agent is always left at rest. |
| `Scaling.ThrottleNeverStops` | internal/controller/pool_scaling.go:429-441 | The throttled limit is the share rounded up, at least one and at most the limit. |
| `Scaling.HysteresisBand` | internal/controller/pool_scaling.go:346-358 | In whole numbers: a gap is ignored exactly when a thousand times it is below target times permille. |
| `Scaling.TargetWithinBounds` | internal/controller/pool_scaling.go:186-208 | The target is at most maxWarm where that is set and at least minWarm where the two are consistent. |
| `Scaling.DecisionIsLargestAdmissible` | internal/controller/pool_scaling.go:152-324 | The decision is the largest move towards the target that every limit admits, or no move when gated or held back; it is marked suppressed exactly when held back. |
| `Scaling.DecisionRespectsLimits` | internal/controller/pool_scaling.go:171-324 | Growing stays within target, maxWarm, rate limit and nodes; shrinking stays above target, minWarm and within the reclaim limit. |
| `Scaling.UnknownHitRatioIsNeutral` | internal/controller/pool_scaling.go:171-180 | A missing hit ratio moves the pool exactly like one that is on target. |
| `Scaling.ReasonIsTrue` | internal/controller/pool_scaling.go:152-324 | The reason code of a decision is true of the round, and of a suppression the same. |
| `Scaling.ThrottledReasonIsExact` | internal/controller/pool_scaling.go:262-283 | The throttling reason is given exactly when the pool is protected and its rate limit cut the round short. |
| `Scaling.ThrottlingMadeADifferenceIff` | internal/controller/pool_scaling.go:262-283 | Under that reason throttling made a difference if and only if the throttled limit is below the plain one. |
| `ScalingRuns.PoolController.Reconcile` | internal/controller/pool_controller.go:91-217 | One pass of observing, deciding, acting, recording and writing the status is one step of the run. |
| `ScalingRuns.PoolController.Finish` | internal/controller/pool_controller.go:477-510 | The status remembers the demand, and a decision only if it moves something and the write wins. |
| `ScalingRuns.ScaleHistory.RecordScale` | internal/controller/pool_controller.go:618-642 | The in-place pruning of the shared buffer equals filtering the appended history. |
| `ScalingRuns.ScaleHistory.Prune` | internal/controller/pool_controller.go:632-641 | Sliding the kept events to the front of the same array gives the filter of the old contents. |
| `ScalingRuns.ScaleHistory.CountReversals` | internal/controller/pool_controller.go:645-665 | The loop counts the direction changes among the events since the window began. |
| `ScalingRuns.KeptIsTail` | internal/controller/pool_controller.go:632-641 | Pruning a history in time order cuts off its beginning and nothing else. |
| `ScalingRuns.ReversalsAreBounded` | internal/controller/pool_controller.go:177-217 | Over any run at most three reversals in any stretch of recorded moves shorter than the window. |
| `ScalingRuns.ExecutedIsRecorded` | internal/controller/pool_controller.go:200-217 | Unless an error ends a round that moved stock, what is recorded is what was done, so the bound is one on what was done. |
| `ScalingRuns.ClosedWindowHoldsFour` | internal/controller/pool_controller.go:636-665 | A run of five rounds with four reversals in exactly one window length. |
| `ScalingRuns.CooldownsHold` | internal/controller/pool_scaling.go:366-387 | Two consecutive persisted moves in the same direction are at least its cooldown apart, also with stale rounds in between. |
| `ScalingRuns.ExecutedMovesCoolDown` | internal/controller/pool_controller.go:197-217 | Over any run in which a round moves stock exactly when its status write tells of a move, two consecutive moves that were really made in one direction are its cooldown apart. |
| `ScalingRuns.LostMovesRepeat` | internal/controller/pool_controller.go:496-509 | Otherwise, from any state: a round that moved stock on a current copy and whose write did not get through is repeated by the next one at the same instant, as long as the oscillation brake lets it; any positive cooldown is broken. |
| `ScalingRuns.LostWriteBreaksCooldown` | internal/controller/pool_controller.go:496-509 | For any cooldown a run of two rounds, the write of the first lost, that creates stock twice at once. |
| `ScalingRuns.EmptyMoveBreaksCooldown` | internal/controller/pool_controller.go:210-217 | For any cooldown a run in which every write wins, and a shrinking that found no candidate lets the pool grow twice at once. |
| `WarmLoop.SmoothingApproaches` | internal/controller/pool_scaling.go:171-176 | The rounded moving average lies between its last value and the rounded demand. |
| `WarmLoop.StallsNearDemand` | internal/controller/pool_scaling.go:171-176 | It stalls only within 1/(2 alpha) of the demand. |
| `WarmLoop.SmootherSettles` | internal/controller/pool_scaling.go:171-176 | Iterated, it is settled after as many rounds as it is away from the rounded demand, having only moved towards it. |
| `WarmLoop.PredictedIterates` | internal/controller/pool_controller.go:476-492 | The demand that a run of rounds of an open pool leaves in the status is the iterated smoother. |
| `WarmLoop.SettlesInTime` | internal/controller/pool_controller.go:476-492 | So after as many rounds as the status is away from the rounded demand the pool is settled, and stays so. |
| `WarmLoop.DemandStartsOver` | internal/controller/pool_controller.go:158-166 | A round without a runtime moves nothing, and the rounds after it iterate the smoother from zero. |
| `WarmLoop.TickShrinksGap` | internal/controller/pool_scaling.go:208-324 | A round of an open pool does nothing inside the hysteresis band, and outside it closes the gap to its target or shrinks it by the rate limit. |
| `WarmLoop.StockWalksToTarget` | internal/controller/pool_scaling.go:171-324 | Once settled, with rounds a cooldown apart, stock never crosses the target, all moves go one way, and the band is reached within as many rounds as the gap is wide. |
| `WarmLoop.DemandIsMet` | internal/controller/pool_scaling.go:171-324 | From any persisted demand and a memory of at most one turn: while the demand is still moving the moves turn at most once, so once it had time to settle stock walks to the target as above. |
| `PoolStock.CountStock` | internal/controller/pool_controller.go:285-311 | The loop puts every sandbox into one class, draining before phase. |
| `PoolStock.MarkingMovesWarmToDraining` | internal/controller/pool_controller.go:377-410 | Marking n candidates moves exactly n from warm to draining and changes no other count, so no round shrinks for them twice. |
| `Overshoot.NewStockIsNotCounted` | internal/controller/pool_controller.go:296-308 | Newly created stock, however much, changes no count. |
| `Overshoot.GrowthStaysWithinIff` | internal/controller/pool_controller.go:197-208 | After a round that created stock all stock, counted or not, is within the target if and only if what was not counted before fits into the gap the round left open, and within maxWarm if and only if it fits below maxWarm. |
| `Overshoot.TwoRoundsOvershoot` | internal/controller/pool_controller.go:285-311 | For any cooldown two rounds that far apart, both by the rules and written, that bring a pool to twice its maxWarm. |
| `Overshoot.PatientPoolStaysWithin` | internal/controller/pool_controller.go:197-208 | Over any run of passes that create nothing while earlier stock is not counted, and with nobody else creating, all stock stays within maxWarm. |
| `PoolStock.CandidatesAreOldest` | internal/controller/pool_controller.go:412-442 | Candidates for draining are real, drainable and oldest first. |
| `PoolStock.MarkDraining` | internal/controller/pool_controller.go:380-410 | Exactly the first n candidates carry the mark afterwards, for good, whatever others write; or as many as come before the first one that is gone by then, which ends the pass with an error. |
| `PoolStock.DeleteDraining` | internal/controller/pool_controller.go:448-470 | At most the reclaim limit of marked sandboxes are on their way out. |
| `DrainRaces.PoolDeletesClaimedIff` | internal/controller/pool_controller.go:400-405 | Over any run of all actors from a new sandbox: the pool can come to start the deletion of a claimed sandbox if and only if a claim was committed over a version with the mark, or the mark was patched onto a claimed version. |
| `DrainRaces.PoolDeletesOnlyStock` | internal/controller/pool_controller.go:457-468 | Without either no deletion by the pool in the whole run hits a claimed sandbox. |
| `DrainRaces.MarkedStockIsClaimedAndDeleted` | internal/claim/claim.go:235-283 | For any plain stock and claim a run from its creation in which it is marked, bound and deleted under its claim. |
| `DrainRaces.ClaimedStockIsMarkedAndDeleted` | internal/controller/pool_controller.go:400-405 | And one in which it is bound first and marked by a pool that has not seen the claim. |
| `Protect.RateTrigger` | internal/controller/protect.go:181-183 | Without rounding: failures trigger from half a permille below the threshold on. |
| `Protect.PoolProtection.ApplyProtectMode` | internal/controller/pool_controller.go:530-562 | The status after a decision; an event only when protection begins or ends. |
| `Protect.PoolProtection.Round` | internal/controller/pool_controller.go:113-129 | One evaluation written back to the status; events mark its edges. |
| `Protect.StatusTellsHistory` | internal/controller/protect.go:155-221 | Driven only by the status of the round before: active if and only if some trigger's hold lasts, until the end of the last one's, with one trip per rising edge, since the first trigger ever. |
| `Protect.SinceIsCurrentIff` | internal/controller/protect.go:194-197 | Over any run with rising times that ends protected: the start shown is that of the last rising edge if and only if there was just one trip. |
| `Protect.SinceIsNotTheCurrentTrip` | internal/controller/protect.go:194-197 | A run of three evaluations whose second trip shows the first trip's start. |
| `RateLimit.WithDefaults` | internal/gateway/limits.go:62-77 | A quota in use has a positive rate and a burst of at least the rate. |
| `RateLimit.RateLimiter.EvictStale` | internal/gateway/limits.go:159-166 | The loop drops exactly the buckets untouched for longer than the idle time. |
| `RateLimit.RateLimiter.Allow` | internal/gateway/limits.go:116-156 | The bucket map and the answer after one call, with room made only when the map is full. |
| `RateLimit.SizeIsBounded` | internal/gateway/limits.go:125-134 | Over any calls the map never outgrows its bound. |
| `RateLimit.CallByTenant` | internal/gateway/limits.go:116-156 | A call is turned away for lack of room exactly when the tenant has no bucket and the map is full of buckets used lately; otherwise a token is granted exactly when one is available, costs exactly one, and the wait told is that for the next one plus a second. |
| `RateLimit.CallByOther` | internal/gateway/limits.go:159-166 | Other tenants' calls, evictions included, change nothing a tenant has. |
| `RateLimit.TokensFit` | internal/gateway/limits.go:143-153 | Tokens stay between nothing and the burst. |
| `RateLimit.WindowIsBounded` | internal/gateway/limits.go:116-166 | In any stretch of calls a tenant is granted at most burst plus rate times its length. |
| `RateLimit.WaitIsEnough` | internal/gateway/limits.go:149-155 | A tenant refused for an empty bucket that comes back when told is granted, unless there is no room for its bucket. |
| `RateLimit.BurstBelowOneNeverGrants` | internal/gateway/limits.go:149-155 | With a burst below one token no call is ever granted. |
| `RateLimit.EvictionChangesNoAnswer` | internal/gateway/limits.go:124-141 | Until a tenant is turned away for lack of room its answers are those of an unbounded map. |
| `RateLimit.WindowBoundIff` | internal/gateway/limits.go:112-166 | For every limiter with room for two buckets or more and every quota: that bound holds of all runs if and only if the burst is below one token or the bucket refills within the idle time; otherwise there is a run of other tenants filling the map that breaks it. |
| `Classify.WithDefaults` | internal/sweeper/classify.go:13-27 | No threshold is zero. |
| `Classify.NewOwnerLookup` | internal/sweeper/classify.go:56-68 | The index holds the UIDs and names of all sandboxes. |
| `Classify.CheckOrphans` | internal/sweeper/classify.go:129-158 | The loop collects findings in list order until the cap, and says whether the cap cut it short. |
| `Classify.CheckSandboxes` | internal/sweeper/classify.go:197-280 | The loop over sandboxes collects at most one finding each, until the cap. |
| `Classify.ClassifySnapshot` | internal/sweeper/classify.go:103-283 | The loops compute the specified findings: nothing without a clock, unsorted if cut among Pods, sorted otherwise. |
| `ClassifyLaws.OwnedMeans` | internal/sweeper/classify.go:81-93 | An object has an owner if and only if some sandbox of the snapshot matches its UID or its label in its namespace. |
| `ClassifyLaws.AnomalyIsExact` | internal/sweeper/classify.go:197-280 | Each kind of anomaly is found exactly when its own condition holds and none that comes before it does. |
| `ClassifyLaws.OrphansAreReportedOnce` | internal/sweeper/classify.go:129-180 | Below the cap each managed object without an owner is reported exactly once with the action its mark calls for, any other not at all. |
| `ClassifyLaws.SandboxesAreReportedOnce` | internal/sweeper/classify.go:197-280 | Below the cap a sandbox is reported for the first thing wrong with it and nothing else. |
| `ClassifyLaws.FindingsAreAboutObjects` | internal/sweeper/classify.go:81-93 | Every finding, cut off or not, is about an object of the snapshot, and an orphan finding about a managed one without owner. |
| `ClassifyLaws.SortedIff` | internal/sweeper/classify.go:177-179 | The result is sorted if and only if the cap was not hit among Pods, or no volume was found before a Pod and the objects found in each list come by namespace and name. |
| `ClassifyLaws.CutAmongPodsIsUnsorted` | internal/sweeper/classify.go:177-179 | A snapshot whose result is not sorted. |
| `ClassifyLaws.ListOrderDoesNotMatter` | internal/sweeper/classify.go:103-297 | Below the cap, with unique names, the result depends on what is in the lists and not on their order. |
| `Sweeper.SweptObjects.Sweep` | internal/sweeper/run.go:75-131 | From a snapshot whose lists were read at any times before, with others changing anything but marks before every finding: just the findings are applied, each once and in order, and the whole is a run as in `SweepRounds.DeletionsAreDue`; undisturbed, the lists are as if each object had been treated by all findings at once; a dry run changes nothing. |
| `Sweeper.SweptObjects.Apply` | internal/sweeper/apply.go:41-78 | One finding on the objects as they are now: a deletion asks for nothing, a mark is patched unless the snapshot's own copy had one. |
| `SweepRounds.DeletionsAreDue` | internal/sweeper/sweeper.go:233-243 | Over any run, with any number of sweeps applying findings however late and anything happening in between: a deleted object had no owner in the snapshot it was found in, and there a mark that a sweep wrote at least the grace before. |
| `SweepRounds.OrphansMoveOn` | internal/sweeper/apply.go:41-78 | The orphans of the next sweep are those of this one, each that it got to one stage further. |
| `SweepRounds.SweepCosts` | internal/sweeper/run.go:116-125 | Twice the unmarked plus the marked falls by exactly min(cap, orphans) per sweep. |
| `SweepRounds.OrphansAreRemoved` | internal/sweeper/run.go:75-131 | With fixed owners and sweeps the grace apart, all orphans are gone after as many sweeps as stages were left. |
| `Levels.CycleCheck.CheckNoCycle` | internal/isolation/levels.go:167-182 | Finds a cycle if and only if some walk of fallbacks comes back to itself or the path so far; otherwise the shared path set is restored. |
| `Levels.CyclesAreFoundFromSomewhere` | internal/isolation/levels.go:156-164 | Some level leads back to itself if and only if the fallback graph has a cycle. |
| `Levels.CheckLevel` | internal/isolation/levels.go:135-154 | A level passes if and only if it has a runtime class, aligned overhead and configured fallbacks. |
| `Levels.Validate` | internal/isolation/levels.go:134-165 | A configuration passes if and only if every level is sound and no fallbacks go round; an error names something really wrong. |
| `Resolver.ChainIsExact` | internal/isolation/resolver.go:332-350 | The chain starts with the wanted level, names none twice, and holds just the configured fallbacks besides. |
| `Resolver.CollectCandidates` | internal/isolation/resolver.go:332-350 | The deduplicating loop computes that chain. |
| `Resolver.ResolveUncached` | internal/isolation/resolver.go:240-323 | The probing loop stops at the first level that is not missing. |
| `Resolver.ResolutionIsFirstAvailable` | internal/isolation/resolver.go:240-323 | The level given is the first of the chain the cluster can run, degraded if and only if it is not the wanted one; none only if all are missing; a failure only if a probe failed first. |
| `Resolver.CachingResolver.SetConfig` | internal/isolation/resolver.go:123-132 | Nothing found out under another configuration is kept. |
| `Resolver.CachingResolver.SetProbe` | internal/isolation/resolver.go:135-141 | Nothing found out by another probe is kept. |
| `Resolver.CachingResolver.Invalidate` | internal/isolation/resolver.go:144-149 | The cache is empty, whatever was found out before. |
| `Resolver.CachingResolver.Resolve` | internal/isolation/resolver.go:167-200 | An answer is what an uncached resolution gave under the same configuration and probe at most the TTL ago; a fresh entry is served without probing, every success is remembered, failures leave no trace. |

## Left out

- Kubernetes, Cilium, CRI, cgroup file and HTTP plumbing, manifests, scripts and main packages: no decisions are taken there.
- Network policies, Lease and Pod creation inside a reconcile pass: they are parameters saying whether those calls went well.
- Conditions, events, messages, metrics and log lines, except the events of protection mode and the reason codes of phases and scaling.
- Overflow of 32-bit integers, NaN and rounding errors of floating point, and the truncation of stored times to whole seconds.
- Errors of the API server other than conflicts and missing objects.
- Deletions and finalizer changes by clients outside the control plane, and garbage collection by owner reference.
- A restart of the pool controller, which empties the scaling history kept in memory: `ScalingRuns` covers runs between restarts.
- Interleavings inside one `Resolve`, where a configuration set while a probe is running can be followed by a cache entry of the old one: operations of the resolver are atomic here.
- The live claim rate of the pool controller, which the code never fills in: it is a free input of the decision.
- The nil pool of `DecideScaling` and the nil configuration of `SetConfig`.
- `Snapshot` and `DegradationFor` of the resolver, parsing of configuration and quota files, the concurrency quota of a tenant.
- Token signing, authentication tables, path normalisation, egress rendering, tiers, image prewarming and VMM inspection.
- Races of claimers with other clients writing in between are in `Claimer.ClaimStock`; in `ClaimRace` and `RaceOnServer` only claimers write and their reads are current.
- The sweeper's failed mark and forced finalizing are steps of `Protocol` and not of `SweepRounds`, whose rounds are about orphans.
- Claimer.ClaimStock: does not state that two concurrent calls with one request id bind once, because it is false; when it holds is stated of two calls of the race (`RaceOnServer.RepeatedRequestBindsTwiceIff`).
- Freeze.EveryRunKeepsHandshake: assumes reads of one sandbox by the agent that never go backwards, because with older reads it is false (`Scenarios.StaleListFreezesRunning`, `Scenarios.StaleListThawsHibernated`).
- SweepRounds.DeletionsAreDue: does not say that a deletion finds the object as the snapshot had it, because the code does not look again.
- SweepRounds.OrphansAreRemoved: sweeps that nobody interferes with, because others could undo any of them.
- ScalingRuns.LostMovesRepeat: rounds that worked on a current copy, because one that worked on an old copy may decide anything.
