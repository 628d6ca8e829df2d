/** internal/controller/claim_binding.go: how the controller copies spec.claim into
    status.claimRef, and what that makes of claimedAt and claimedCount over whole runs. */
module ClaimBinding {
  import opened Api

  const SANDBOX_ID_PREFIX := "sbx-"
  const SANDBOX_ID_SOURCE_LEN := 12

  function SandboxIdFor(uid: string): string {
    SANDBOX_ID_PREFIX + if |uid| > SANDBOX_ID_SOURCE_LEN then uid[..SANDBOX_ID_SOURCE_LEN] else uid
  }

  function WithSandboxId(sbx: Sandbox): Sandbox {
    if sbx.status.sandboxId != "" || sbx.uid == "" then sbx
    else sbx.(status := sbx.status.(sandboxId := SandboxIdFor(sbx.uid)))
  }

  /** The claim in the spec is the one the status already records. */
  predicate AlreadyRecorded(ref: Option<ClaimRef>, c: Claim) {
    && ref.Some?
    && ref.value.claimedAt.Some?
    && ref.value.tenant == c.tenant
    && ref.value.requestId == c.requestId
  }

  function RefFor(c: Claim, now: int): ClaimRef {
    ClaimRef(c.tenant, c.sessionId, c.requestId, Some(now), c.hardDeadline)
  }

  /** The object after one observation by the controller at time now. */
  function Recorded(sbx: Sandbox, now: int): Sandbox {
    var s := WithSandboxId(sbx);
    if s.spec.claim.None? || AlreadyRecorded(s.status.claimRef, s.spec.claim.value) then s
    else
      s.(status := s.status.(
           claimRef := Some(RefFor(s.spec.claim.value, now)),
           claimedCount := s.status.claimedCount + 1,
           coldPath := s.status.coldPath || !s.status.phase.Ready?))
  }

  /** The object the reconciler holds while it works; its status is assigned field by field. */
  class SandboxObject {
    const name: string
    const uid: string
    const spec: Spec
    const createdAt: int
    const deleting: bool
    const finalizers: seq<Finalizer>
    const labels: Labels
    const wakeRequested: bool
    const hibernateRequested: bool
    var status: Status

    constructor (sbx: Sandbox)
      ensures Value() == sbx
    {
      name, uid, spec, createdAt := sbx.name, sbx.uid, sbx.spec, sbx.createdAt;
      deleting, finalizers, labels := sbx.deleting, sbx.finalizers, sbx.labels;
      wakeRequested, hibernateRequested := sbx.wakeRequested, sbx.hibernateRequested;
      status := sbx.status;
    }

    function Value(): Sandbox
      reads this
    {
      Sandbox(name, uid, createdAt, deleting, finalizers, labels, wakeRequested, hibernateRequested, spec, status)
    }

    method EnsureSandboxId() returns (changed: bool)
      modifies this
      ensures Value() == WithSandboxId(old(Value()))
      ensures changed == (Value() != old(Value()))
      ensures old(status.sandboxId) != "" ==> status.sandboxId == old(status.sandboxId)
    {
      if status.sandboxId != "" || uid == "" {
        return false;
      }
      var source := uid;
      if |source| > SANDBOX_ID_SOURCE_LEN {
        source := source[..SANDBOX_ID_SOURCE_LEN];
      }
      status := status.(sandboxId := SANDBOX_ID_PREFIX + source);
      return true;
    }

    /** A claim is new when its tenant or request differs from the recorded one; only then is it
        counted and only then does claimedAt move. */
    method BindClaimStatus(now: int) returns (idChanged: bool, newlyBound: bool)
      modifies this
      ensures Value() == Recorded(old(Value()), now)
      ensures (idChanged || newlyBound) == (Value() != old(Value()))
      ensures status.claimedCount == old(status.claimedCount) + if newlyBound then 1 else 0
      ensures !newlyBound ==> status.claimRef == old(status.claimRef)
    {
      idChanged := EnsureSandboxId();
      newlyBound := false;
      if spec.claim.None? {
        return;
      }
      var c := spec.claim.value;
      if AlreadyRecorded(status.claimRef, c) {
        return;
      }
      status := status.(claimRef := Some(RefFor(c, now)));
      newlyBound := true;
      status := status.(claimedCount := status.claimedCount + 1);
      if !status.phase.Ready? {
        status := status.(coldPath := true);
      }
    }
  }

  // ---- Runs of observations ----

  /** What one reconcile finds in spec.claim, and when. */
  datatype Sighting = Sighting(claim: Option<Claim>, now: int)

  predicate SameBooking(a: Claim, b: Claim) {
    a.tenant == b.tenant && a.requestId == b.requestId
  }

  function Observe(sbx: Sandbox, seen: Sighting): Sandbox {
    Recorded(sbx.(spec := sbx.spec.(claim := seen.claim)), seen.now)
  }

  /** The status after every sighting was persisted, the last sighting being the latest. */
  function ObserveAll(sbx: Sandbox, run: seq<Sighting>): Sandbox {
    if run == [] then sbx else Observe(ObserveAll(sbx, run[..|run| - 1]), run[|run| - 1])
  }

  /** Sighting j is the one a booking seen at i continues: same booking, only releases between. */
  predicate Continues(run: seq<Sighting>, j: nat, i: nat)
    requires j < i < |run|
  {
    && run[j].claim.Some? && run[i].claim.Some?
    && SameBooking(run[j].claim.value, run[i].claim.value)
    && forall k | j < k < i :: run[k].claim.None?
  }

  /** Sighting i opens a new block of sightings of one booking. */
  predicate OpensBlock(run: seq<Sighting>, i: nat)
    requires i < |run|
  {
    run[i].claim.Some? && forall j: nat | j < i :: !Continues(run, j, i)
  }

  function Blocks(run: seq<Sighting>, n: nat): nat
    requires n <= |run|
  {
    if n == 0 then 0 else Blocks(run, n - 1) + if OpensBlock(run, n - 1) then 1 else 0
  }

  /** From sighting m to the end of the run nothing but booking c, or a release, was seen. */
  predicate OnlySeen(run: seq<Sighting>, m: nat, c: Claim) {
    forall k | m <= k < |run| :: run[k].claim.Some? ==> SameBooking(run[k].claim.value, c)
  }

  /** Block m is the last one of the run, and the status tells so. */
  ghost predicate LastBlockIs(run: seq<Sighting>, m: nat, ref: Option<ClaimRef>)
    requires m < |run|
  {
    && OpensBlock(run, m)
    && OnlySeen(run, m, run[m].claim.value)
    && ref == Some(RefFor(run[m].claim.value, run[m].now))
  }

  /** The status tells the last block of the run: who, since when, and how many there were. */
  ghost predicate TellsLastBlock(run: seq<Sighting>, ref: Option<ClaimRef>) {
    if forall k | 0 <= k < |run| :: run[k].claim.None? then ref.None?
    else exists m: nat :: m < |run| && LastBlockIs(run, m, ref)
  }

  lemma PrefixAgrees(run: seq<Sighting>, n: nat)
    requires n <= |run|
    ensures forall i: nat | i < n :: OpensBlock(run[..n], i) == OpensBlock(run, i)
    ensures forall m: nat | m <= n :: Blocks(run[..n], m) == Blocks(run, m)
  {
    forall i: nat | i < n
      ensures OpensBlock(run[..n], i) == OpensBlock(run, i)
    {
      assert forall j: nat | j < i :: Continues(run[..n], j, i) == Continues(run, j, i);
    }
    forall m: nat | m <= n
      ensures Blocks(run[..n], m) == Blocks(run, m)
    {
      BlocksOfPrefix(run, n, m);
    }
  }

  lemma BlocksOfPrefix(run: seq<Sighting>, n: nat, m: nat)
    requires m <= n <= |run|
    requires forall i: nat | i < n :: OpensBlock(run[..n], i) == OpensBlock(run, i)
    ensures Blocks(run[..n], m) == Blocks(run, m)
  {
    if m > 0 {
      BlocksOfPrefix(run, n, m - 1);
    }
  }

  /** What one sighting does to the two fields the theorem below is about. */
  lemma ObserveStep(sbx: Sandbox, seen: Sighting)
    ensures
      var after := Observe(sbx, seen).status;
      var known := seen.claim.None? || AlreadyRecorded(sbx.status.claimRef, seen.claim.value);
      && after.claimRef == (if known then sbx.status.claimRef else Some(RefFor(seen.claim.value, seen.now)))
      && after.claimedCount == sbx.status.claimedCount + (if known then 0 else 1)
  {
  }

  /** claimedAt is the first sighting of the last block of one (tenant, requestID), and
      claimedCount is the number of such blocks; a release neither opens nor closes a block. */
  lemma {:induction false} StatusTellsBlocks(sbx: Sandbox, run: seq<Sighting>)
    requires sbx.status.claimRef.None?
    ensures TellsLastBlock(run, ObserveAll(sbx, run).status.claimRef)
    ensures ObserveAll(sbx, run).status.claimedCount == sbx.status.claimedCount + Blocks(run, |run|)
  {
    if run != [] {
      var n := |run| - 1;
      StatusTellsBlocks(sbx, run[..n]);
      PrefixAgrees(run, n);
      ObserveStep(ObserveAll(sbx, run[..n]), run[n]);
      var ref := ObserveAll(sbx, run[..n]).status.claimRef;
      OneMoreSighting(run, ref);
    }
  }

  lemma OneMoreSighting(run: seq<Sighting>, ref: Option<ClaimRef>)
    requires run != [] && TellsLastBlock(run[..|run| - 1], ref)
    ensures
      var last := run[|run| - 1];
      var known := last.claim.None? || AlreadyRecorded(ref, last.claim.value);
      && OpensBlock(run, |run| - 1) == !known
      && TellsLastBlock(run, if known then ref else Some(RefFor(last.claim.value, last.now)))
  {
    var n := |run| - 1;
    var before := run[..n];
    if forall k | 0 <= k < n :: before[k].claim.None? {
      assert forall k | 0 <= k < n :: run[k] == before[k];
      LastOfNone(run);
      if run[n].claim.Some? {
        assert LastBlockIs(run, n, Some(RefFor(run[n].claim.value, run[n].now)));
      }
    } else {
      var m: nat :| m < n && LastBlockIs(before, m, ref);
      OneMoreAfterBlock(run, m, ref);
    }
  }

  lemma OneMoreAfterBlock(run: seq<Sighting>, m: nat, ref: Option<ClaimRef>)
    requires m < |run| - 1 && LastBlockIs(run[..|run| - 1], m, ref)
    ensures
      var n := |run| - 1;
      var known := run[n].claim.None? || AlreadyRecorded(ref, run[n].claim.value);
      && OpensBlock(run, n) == !known
      && LastBlockIs(run, if known then m else n, if known then ref else Some(RefFor(run[n].claim.value, run[n].now)))
  {
    var n := |run| - 1;
    PrefixAgrees(run, n);
    assert run[m] == run[..n][m];
    LastAfterBlock(run, m);
    assert forall k | m <= k < n :: run[k] == run[..n][k];
  }

  /** The first claim ever seen opens a block. */
  lemma LastOfNone(run: seq<Sighting>)
    requires run != []
    requires forall k | 0 <= k < |run| - 1 :: run[k].claim.None?
    ensures OpensBlock(run, |run| - 1) == run[|run| - 1].claim.Some?
    ensures run[|run| - 1].claim.Some? ==> OnlySeen(run, |run| - 1, run[|run| - 1].claim.value)
  {
  }

  /** After a block that began at m, the next sighting opens a block exactly when it shows
      another booking. */
  lemma LastAfterBlock(run: seq<Sighting>, m: nat)
    requires m < |run| - 1 && run[m].claim.Some?
    requires OnlySeen(run[..|run| - 1], m, run[m].claim.value)
    ensures
      var last := run[|run| - 1].claim;
      OpensBlock(run, |run| - 1) == (last.Some? && !SameBooking(last.value, run[m].claim.value))
  {
    var n := |run| - 1;
    if run[n].claim.Some? && SameBooking(run[n].claim.value, run[m].claim.value) {
      var j := LastClaim(run, m, n);
      assert run[..n][j].claim.Some?;
      assert Continues(run, j, n);
    } else if run[n].claim.Some? {
      forall j: nat | j < n
        ensures !Continues(run, j, n)
      {
        if j >= m {
          assert run[..n][j] == run[j];
        }
      }
    }
  }

  lemma LastClaim(run: seq<Sighting>, m: nat, n: nat) returns (j: nat)
    requires m < n <= |run| && run[m].claim.Some?
    ensures m <= j < n && run[j].claim.Some?
    ensures forall k | j < k < n :: run[k].claim.None?
  {
    j := n - 1;
    while run[j].claim.None?
      invariant m <= j < n
      invariant forall k | j < k < n :: run[k].claim.None?
      decreases j
    {
      j := j - 1;
    }
  }
}
