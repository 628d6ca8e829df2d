/** internal/gateway/store.go: sandboxes created for one request, which are claimed from birth. */
module Gateway {
  import opened Api
  import opened Lifecycle
  import opened Protocol
  import opened Safety
  import opened Cluster
  import opened Scenarios
  import Claimer
  import Freeze

  /** What the gateway reads of the pool before it creates a sandbox of its own. */
  datatype PoolView = PoolView(draining: bool, coldPathDisabled: bool, protectActive: bool)

  datatype ColdError = NoError | NoSuchPool | Draining | ColdPathDisabled | Protected

  datatype ColdRequest = ColdRequest(name: string, uid: string, claim: Claim, lowPriority: bool,
      lifecycle: LifecycleSpec, pool: string)

  function ColdSandbox(r: ColdRequest, now: int): Sandbox {
    Sandbox(r.name, r.uid, now, false, [],
            Labels(r.pool, Claimer.ROLE_SANDBOX, true, r.claim.tenant, r.claim.requestId, false),
            false, false, Spec(Some(r.claim), Some(r.lifecycle), false), EmptyStatus())
  }

  /** protectGate fails open: an unknown pool is left to the checks that follow. */
  function ColdRefusal(pool: Option<PoolView>, lowPriority: bool): ColdError {
    if pool.Some? && pool.value.protectActive && lowPriority then Protected
    else if pool.None? then NoSuchPool
    else if pool.value.draining then Draining
    else if pool.value.coldPathDisabled then ColdPathDisabled
    else NoError
  }

  /** CreateCold, under a name the server has not given to anybody else. */
  method CreateCold(server: ApiServer, r: ColdRequest, pool: Option<PoolView>, now: int) returns (e: ColdError)
    requires server.Valid() && r.name !in server.objects
    modifies server
    ensures server.Valid() && e == ColdRefusal(pool, r.lowPriority)
    ensures
      server.objects
      == if e.NoError? then old(server.objects)[r.name := NewObject(ColdSandbox(r, now))] else old(server.objects)
  {
    e := ColdRefusal(pool, r.lowPriority);
    if e.NoError? {
      server.Submit(Create(r.name, ColdSandbox(r, now)));
    }
  }

  /** A sandbox made for one request is never there for anybody else: whatever happens to it, no
      version of it is one that a claimer could bind. */
  lemma {:induction false} ColdSandboxIsNeverBound(r: ColdRequest, now: int, run: seq<Step>)
    requires Legal(NewObject(ColdSandbox(r, now)), run)
    ensures
      var x := After(NewObject(ColdSandbox(r, now)), run);
      && (forall read: nat, c: Claim :: !Enabled(x, Bind(read, c)))
      && (forall i | 0 <= i < |x.versions| :: x.versions[i].spec.claim.Some? ==>
          x.versions[i].spec.claim == Some(r.claim))
  {
    var first := NewObject(ColdSandbox(r, now));
    var x := After(first, run);
    NewObjectInv(ColdSandbox(r, now));
    RunKeepsInv(first, run);
    FirstVersionStays(first, run);
    forall i | 0 <= i < |x.versions|
      ensures x.versions[i].labels.claimed
    {
      assert Keeps(x.versions[0], x.versions[i]);
    }
    ClaimStays(x, r.claim);
  }

  lemma {:induction false} ClaimStaysUpTo(x: Object, c: Claim, n: nat)
    requires Inv(x) && n < |x.versions| && x.versions[0].spec.claim == Some(c)
    requires forall i | 0 <= i < |x.versions| :: x.versions[i].labels.claimed
    ensures x.versions[n].spec.claim.Some? ==> x.versions[n].spec.claim == Some(c)
  {
    if n > 0 {
      ClaimStaysUpTo(x, c, n - 1);
      assert Follows(x.versions[n - 1], x.versions[n]);
    }
  }

  lemma ClaimStays(x: Object, c: Claim)
    requires Inv(x) && x.versions[0].spec.claim == Some(c)
    requires forall i | 0 <= i < |x.versions| :: x.versions[i].labels.claimed
    ensures forall i | 0 <= i < |x.versions| :: x.versions[i].spec.claim.Some? ==> x.versions[i].spec.claim == Some(c)
  {
    forall i | 0 <= i < |x.versions|
      ensures x.versions[i].spec.claim.Some? ==> x.versions[i].spec.claim == Some(c)
    {
      ClaimStaysUpTo(x, c, i);
    }
  }

  lemma {:induction false} FirstVersionStays(x: Object, run: seq<Step>)
    requires x.Exists() && Legal(x, run)
    ensures After(x, run).Exists() && After(x, run).versions[0] == x.versions[0]
    decreases |run|
  {
    if run != [] {
      Freeze.StepGrows(x, run[0]);
      FirstVersionStays(Apply(x, run[0]), run[1..]);
    }
  }

  /** SetHibernation is a plain merge patch computed from a copy. The request takes effect, and the two
      marks exclude each other afterwards, if and only if the copy did not hide a change of either mark:
      it must not still have the mark that is to be set, nor lack the one that is to be removed. */
  lemma HibernationRequestTakesIff(current: Sandbox, copy: Sandbox)
    ensures
      var h := HibernationPatched(current, copy, true);
      (h.hibernateRequested && !h.wakeRequested) <==>
      (copy.hibernateRequested ==> current.hibernateRequested) && (current.wakeRequested ==> copy.wakeRequested)
    ensures
      var w := HibernationPatched(current, copy, false);
      (w.wakeRequested && !w.hibernateRequested) <==>
      (copy.wakeRequested ==> current.wakeRequested) && (current.hibernateRequested ==> copy.hibernateRequested)
  {
  }

  /** The commit of version i + 1 took a claim away. */
  predicate UnclaimedAt(x: Object, i: nat) {
    i + 1 < |x.versions| && x.versions[i].spec.claim.Some? && x.versions[i + 1].spec.claim.None?
  }

  /** The version at which the sandbox was first claimed. */
  lemma {:induction false} ClaimedFrom(x: Object, i: nat) returns (m: nat)
    requires Inv(x) && i < |x.versions| && x.versions[i].labels.claimed
    ensures m <= i && x.versions[m].spec.claim.Some?
  {
    if x.versions[i].spec.claim.Some? {
      m := i;
    } else {
      ClaimedEarlier(x, i);
      m := ClaimedFrom(x, i - 1);
    }
  }

  /** The label claimed first appears together with a claim. */
  lemma ClaimedEarlier(x: Object, i: nat)
    requires Inv(x) && i < |x.versions| && x.versions[i].labels.claimed && x.versions[i].spec.claim.None?
    ensures i > 0 && x.versions[i - 1].labels.claimed
  {
    if i > 0 {
      assert Follows(x.versions[i - 1], x.versions[i - 1 + 1]);
    }
  }

  lemma {:induction false} LostBetween(x: Object, m: nat, i: nat) returns (j: nat)
    requires m < i < |x.versions| && x.versions[m].spec.claim.Some? && x.versions[i].spec.claim.None?
    ensures j < i && UnclaimedAt(x, j)
  {
    if x.versions[i - 1].spec.claim.Some? {
      j := i - 1;
    } else {
      j := LostBetween(x, m, i - 1);
    }
  }

  /** A claim that was taken away does not come back, and no other takes its place. */
  lemma {:induction false} UnclaimedForGood(x: Object, j: nat, i: nat)
    requires Inv(x) && UnclaimedAt(x, j) && j < i < |x.versions|
    ensures x.versions[i].spec.claim.None?
  {
    if i > j + 1 {
      UnclaimedForGood(x, j, i - 1);
      assert Keeps(x.versions[j], x.versions[i - 1]);
      assert WellFormed(x.versions[j]);
      assert Follows(x.versions[i - 1], x.versions[i - 1 + 1]);
    }
  }

  lemma UnclaimedIff(x: Object, i: nat)
    requires Inv(x) && i < |x.versions| && IsClaimedPhase(x.versions[i].status.phase)
    ensures x.versions[i].spec.claim.None? <==> exists j: nat :: j < i && UnclaimedAt(x, j)
  {
    if x.versions[i].spec.claim.None? {
      assert WellFormed(x.versions[i]);
      var m := ClaimedFrom(x, i);
      var j := LostBetween(x, m, i);
    }
    if j: nat :| j < i && UnclaimedAt(x, j) {
      UnclaimedForGood(x, j, i);
    }
  }

  /** Over every run of all actors from a new sandbox: a version in a session phase has no claim if and only
      if some commit before it took the claim away. */
  lemma SessionWithoutClaimIff(s: Sandbox, run: seq<Step>, i: nat)
    requires Created(s) && Legal(NewObject(s), run) && i < |After(NewObject(s), run).versions|
    requires IsClaimedPhase(After(NewObject(s), run).versions[i].status.phase)
    ensures
      var x := After(NewObject(s), run);
      x.versions[i].spec.claim.None? <==> exists j: nat :: j < i && UnclaimedAt(x, j)
  {
    NewObjectInv(s);
    RunKeepsInv(NewObject(s), run);
    UnclaimedIff(After(NewObject(s), run), i);
  }

  lemma ReleaseOn(s: Sandbox, c: Claim, x: Object, cur: Sandbox) returns (y: Object)
    requires Stands(s, x, cur, false) && OwnedBy(cur, c.tenant)
    ensures Stands(s, y, Released(cur), false)
  {
    assert Released(cur).spec.claim != cur.spec.claim;
    CommitAppends(x, Released(cur));
    AppendedStands(s, x, cur, false, Release(x.Latest(), c.tenant), Released(cur));
    y := Apply(x, Release(x.Latest(), c.tenant));
  }

  /** A release takes the claim and leaves the phase to the controller's next pass: for any plain stock and
      session there is a run that ends in a running sandbox without a claim. */
  lemma ReleaseLeavesPhase(s: Sandbox, c: Claim) returns (run: seq<Step>)
    requires PlainStock(s)
    ensures Legal(NewObject(s), run)
    ensures
      var x := After(NewObject(s), run);
      x.Exists() && x.Current().status.phase.Running? && x.Current().spec.claim.None?
  {
    var x := InUse(s, c);
    var y := ReleaseOn(s, c, x, Session(s, c, Running, NoState, false, false));
    run := RunTo(s, y);
  }

  // ---- Requests about an existing sandbox ----

  datatype Reply = Done | Unknown | Gone | Contended | Internal

  /** ownedSandbox: what a tenant is told before anything is done. A sandbox of another tenant does not
      exist for it. */
  function Refusal(copy: Option<Cached>, tenant: string): Option<Reply> {
    if copy.None? then Some(Unknown)
    else if ReportedGone(copy.value.content) then Some(Gone)
    else if copy.value.content.labels.tenant != tenant then Some(Unknown)
    else None
  }

  function Released(s: Sandbox): Sandbox {
    s.(spec := s.spec.(claim := None))
  }

  lemma ReleaseCommits(w: World, c: Cached, tenant: string)
    requires Genuine(w, c) && OwnedBy(c.content, tenant)
    ensures CanAct(w, On(c.name, Release(c.read, tenant)))
    ensures
      AnswerTo(w[c.name], c.read).Committed? ==>
        Genuine(Do(w, On(c.name, Release(c.read, tenant))), Cached(c.name, c.read + 1, Released(c.content)))
  {
    assert Released(c.content).spec.claim != c.content.spec.claim;
    var x := w[c.name];
    assert AnswerTo(x, c.read).Committed? ==>
        Apply(x, Release(c.read, tenant)).versions == x.versions + [Released(c.content)];
  }

  /** Release: clears the claim of the version it read and nothing else. Releasing twice is no error;
      a conflict is left to the caller; nobody learns of or touches another tenant's sandbox. */
  method ReleaseSandbox(server: ApiServer, tenant: string, copy: Option<Cached>) returns (reply: Reply)
    requires server.Valid() && (copy.Some? ==> Genuine(server.objects, copy.value))
    modifies server
    ensures server.Valid() && old(server.acts) <= server.acts && Extends(old(server.objects), server.objects)
    ensures
      Refusal(copy, tenant).Some? ==>
        Some(reply) == Refusal(copy, tenant) && server.objects == old(server.objects)
    ensures
      Refusal(copy, tenant).None? && copy.value.content.spec.claim.None? ==>
        reply.Done? && server.objects == old(server.objects)
    ensures
      Refusal(copy, tenant).None? && copy.value.content.spec.claim.Some? ==>
        match reply
        case Done => Genuine(server.objects, Cached(copy.value.name, copy.value.read + 1, Released(copy.value.content)))
        case Contended => Claimer.Overtaken(server.objects, copy.value)
        case _ => reply.Internal? && server.objects[copy.value.name].gone
  {
    var refusal := Refusal(copy, tenant);
    if refusal.Some? {
      return refusal.value;
    }
    var c := copy.value;
    if c.content.spec.claim.None? {
      return Done;
    }
    server.Interfere();
    ghost var current := server.objects;
    Claimer.StillGenuine(old(server.objects), current, c);
    ReleaseCommits(current, c, tenant);
    var answer := server.Write(c.name, Release(c.read, tenant));
    Claimer.ExtendsFurther(old(server.objects), current, server.objects);
    reply := match answer case Committed => Done case Conflict => Contended case NotFound => Internal;
  }

  /** SetHibernation: a merge patch of the two marks, for the owner of a claimed sandbox only. */
  method RequestHibernation(server: ApiServer, tenant: string, copy: Option<Cached>,
      hibernate: bool) returns (reply: Reply)
    requires server.Valid() && (copy.Some? ==> Genuine(server.objects, copy.value))
    modifies server
    ensures server.Valid() && old(server.acts) <= server.acts && Extends(old(server.objects), server.objects)
    ensures
      Refusal(copy, tenant).Some? ==>
        Some(reply) == Refusal(copy, tenant) && server.objects == old(server.objects)
    ensures
      Refusal(copy, tenant).None? ==>
        if copy.value.content.spec.claim.None? then reply.Gone? && server.objects == old(server.objects)
        else
          match reply
          case Done => IsPatched(server.objects, copy.value, hibernate)
          case _ => reply.Internal? && server.objects[copy.value.name].gone
  {
    var refusal := Refusal(copy, tenant);
    if refusal.Some? {
      return refusal.value;
    }
    var c := copy.value;
    if c.content.spec.claim.None? {
      return Gone;
    }
    server.Interfere();
    ghost var current := server.objects;
    Claimer.StillGenuine(old(server.objects), current, c);
    reply := if server.objects[c.name].gone then Internal else Done;
    PatchLands(current, c, tenant, hibernate);
    server.Submit(On(c.name, SetHibernation(c.read, tenant, hibernate)));
    Claimer.ExtendsFurther(old(server.objects), current, server.objects);
  }

  /** The current version is some version with the patch of this copy applied to it. */
  ghost predicate IsPatched(w: World, c: Cached, hibernate: bool) {
    c.name in w && w[c.name].Exists()
    && exists before: Sandbox :: w[c.name].Current() == HibernationPatched(before, c.content, hibernate)
  }

  lemma PatchLands(w: World, c: Cached, tenant: string, hibernate: bool)
    requires Genuine(w, c) && OwnedBy(c.content, tenant)
    ensures CanAct(w, On(c.name, SetHibernation(c.read, tenant, hibernate)))
    ensures
      var after := Do(w, On(c.name, SetHibernation(c.read, tenant, hibernate)));
      if w[c.name].gone then after[c.name].gone else IsPatched(after, c, hibernate)
  {
    var x, y := w[c.name], Do(w, On(c.name, SetHibernation(c.read, tenant, hibernate)))[c.name];
    assert !x.gone ==> y.Current() == HibernationPatched(x.Current(), c.content, hibernate);
  }
}
