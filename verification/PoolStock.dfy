/** The stock of a pool in internal/controller/pool_controller.go: counting it, and shrinking it in
    two phases, first marking what is to go and deleting it a round later. */
module PoolStock {
  import opened Api
  import opened Protocol
  import opened Safety
  import opened Freeze
  import opened Cluster
  import Claimer
  import Reconciler
  import StableSort

  datatype StockCounts = StockCounts(warm: nat, inflight: nat, draining: nat, claimed: nat, failed: nat)

  datatype Class = Warm | Inflight | Draining | Claimed | Broken | Uncounted

  /** The class of a sandbox; the draining mark goes before the phase. */
  function ClassOf(s: Sandbox): Class {
    if s.labels.draining then Draining
    else if s.status.phase.Ready? && s.spec.claim.None? then Warm
    else if s.status.phase.Pending? || s.status.phase.Provisioning? then Inflight
    else if IsClaimedPhase(s.status.phase) then Claimed
    else if s.status.phase.Failed? then Broken
    else Uncounted
  }

  function Count(list: seq<Sandbox>, c: Class): nat {
    if list == [] then 0 else Count(list[..|list| - 1], c) + if ClassOf(list[|list| - 1]) == c then 1 else 0
  }

  function Counts(list: seq<Sandbox>): StockCounts {
    StockCounts(Count(list, Warm), Count(list, Inflight), Count(list, Draining), Count(list, Claimed),
        Count(list, Broken))
  }

  method CountStock(list: seq<Sandbox>) returns (c: StockCounts)
    ensures c == Counts(list)
    ensures c.warm + c.inflight + c.draining + c.claimed + c.failed + Count(list, Uncounted) == |list|
  {
    c := StockCounts(0, 0, 0, 0, 0);
    ghost var uncounted: nat := 0;
    for i := 0 to |list|
      invariant c == Counts(list[..i]) && uncounted == Count(list[..i], Uncounted)
      invariant c.warm + c.inflight + c.draining + c.claimed + c.failed + uncounted == i
    {
      assert list[..i + 1][..i] == list[..i];
      var s := list[i];
      if s.labels.draining {
        c := c.(draining := c.draining + 1);
      } else if s.status.phase.Ready? && s.spec.claim.None? {
        c := c.(warm := c.warm + 1);
      } else if s.status.phase.Pending? || s.status.phase.Provisioning? {
        c := c.(inflight := c.inflight + 1);
      } else if IsClaimedPhase(s.status.phase) {
        c := c.(claimed := c.claimed + 1);
      } else if s.status.phase.Failed? {
        c := c.(failed := c.failed + 1);
      } else {
        uncounted := uncounted + 1;
      }
    }
    assert list[..|list|] == list;
  }

  // ---- Two phases ----

  function Marked(s: Sandbox): Sandbox {
    s.(labels := s.labels.(draining := true))
  }

  predicate IsMarkable(list: seq<Sandbox>, at: seq<nat>) {
    && (forall i | 0 <= i < |at| :: at[i] < |list| && DrainCandidate(list[at[i]]))
    && forall i, j | 0 <= i < j < |at| :: at[i] != at[j]
  }

  function MarkAll(list: seq<Sandbox>, at: seq<nat>): seq<Sandbox>
    requires forall i | 0 <= i < |at| :: at[i] < |list|
  {
    if at == [] then list
    else
      var before := MarkAll(list, at[..|at| - 1]);
      var k := at[|at| - 1];
      if k < |before| then before[k := Marked(before[k])] else before
  }

  lemma {:induction false} CountUpdate(list: seq<Sandbox>, k: nat, s: Sandbox, c: Class)
    requires k < |list|
    ensures
      Count(list[k := s], c) + (if ClassOf(list[k]) == c then 1 else 0)
      == Count(list, c) + (if ClassOf(s) == c then 1 else 0)
  {
    var n := |list| - 1;
    if k == n {
      assert list[k := s][..n] == list[..n];
    } else {
      CountUpdate(list[..n], k, s, c);
      assert list[k := s][..n] == list[..n][k := s];
    }
  }

  /** Marking n pieces of stock moves exactly n from warm to draining and changes no other count: the
      next round neither sees them as stock nor shrinks the pool for them a second time. */
  lemma {:induction false} MarkingMovesWarmToDraining(list: seq<Sandbox>, at: seq<nat>)
    requires IsMarkable(list, at)
    ensures |MarkAll(list, at)| == |list|
    ensures forall k: nat | k < |list| && k !in at :: MarkAll(list, at)[k] == list[k]
    ensures
      var before, after := Counts(list), Counts(MarkAll(list, at));
      && after.warm + |at| == before.warm && after.draining == before.draining + |at|
      && after == before.(warm := after.warm, draining := after.draining)
  {
    if at != [] {
      var n := |at| - 1;
      MarkingMovesWarmToDraining(list, at[..n]);
      var rest, k := MarkAll(list, at[..n]), at[n];
      assert k !in at[..n];
      assert rest[k] == list[k];
      CountUpdate(rest, k, Marked(rest[k]), Warm);
      CountUpdate(rest, k, Marked(rest[k]), Draining);
      CountUpdate(rest, k, Marked(rest[k]), Inflight);
      CountUpdate(rest, k, Marked(rest[k]), Claimed);
      CountUpdate(rest, k, Marked(rest[k]), Broken);
      assert forall k': nat | k' < |list| && k' !in at :: k' !in at[..n];
    }
  }

  // ---- Marking and deleting on the server ----

  predicate Older(a: Cached, b: Cached) {
    a.content.createdAt <= b.content.createdAt
  }

  function Drainable(copies: seq<Cached>): seq<Cached> {
    if copies == [] then []
    else (if DrainCandidate(copies[0].content) then [copies[0]] else []) + Drainable(copies[1..])
  }

  /** drainCandidates: oldest first. */
  function DrainCandidates(copies: seq<Cached>): seq<Cached> {
    StableSort.Sort((a: Cached, b: Cached) => Older(a, b), Drainable(copies))
  }

  lemma {:induction false} DrainableAre(copies: seq<Cached>)
    ensures forall c | c in Drainable(copies) :: c in copies && DrainCandidate(c.content)
  {
    if copies != [] {
      DrainableAre(copies[1..]);
    }
  }

  lemma CandidatesAreOldest(w: World, copies: seq<Cached>)
    requires AllGenuine(w, copies)
    ensures
      var list := DrainCandidates(copies);
      && AllGenuine(w, list)
      && (forall i | 0 <= i < |list| :: DrainCandidate(list[i].content))
      && (forall i, j | 0 <= i < j < |list| :: list[i].content.createdAt <= list[j].content.createdAt)
  {
    var le := (a: Cached, b: Cached) => Older(a, b);
    var list := DrainCandidates(copies);
    DrainableAre(copies);
    StableSort.SortPermutes(le, Drainable(copies));
    StableSort.SameElements(Drainable(copies), list);
    StableSort.SortSorts(le, Drainable(copies));
    forall i | 0 <= i < |list|
      ensures Genuine(w, list[i]) && DrainCandidate(list[i].content)
    {
      assert list[i] in list;
    }
    forall i, j | 0 <= i < j < |list|
      ensures list[i].content.createdAt <= list[j].content.createdAt
    {
      assert le(list[i], list[j]);
    }
  }

  /** The object carries the mark for good, or is gone. */
  predicate IsMarked(w: World, name: string) {
    name in w && w[name].Exists() && (w[name].gone || w[name].Current().labels.draining)
  }

  lemma LaterKeeps(v: World, w: World, name: string)
    requires WorldInv(w) && Extends(v, w) && name in v && v[name].Exists()
    ensures w[name].Exists() && Keeps(v[name].Current(), w[name].Current())
    ensures v[name].gone ==> w[name].gone
  {
    var x, y := v[name], w[name];
    assert x.versions <= y.versions;
    InvKeeps(y, |x.versions| - 1);
  }

  lemma InvKeeps(x: Object, i: nat)
    requires FreezeInv(x) && i < |x.versions|
    ensures Keeps(x.versions[i], x.Current())
  {
    assert Inv(x);
  }

  lemma MarkStays(v: World, w: World, name: string)
    requires WorldInv(w) && Extends(v, w) && IsMarked(v, name)
    ensures IsMarked(w, name)
  {
    LaterKeeps(v, w, name);
  }

  function Least(n: nat, m: nat): nat {
    if n <= m then n else m
  }

  /** markDraining: at most n marks, on the oldest candidates, each as good as permanent. The first
      candidate that is gone by now ends the pass. */
  method MarkDraining(server: ApiServer, copies: seq<Cached>, n: nat) returns (marked: nat, ok: bool)
    requires server.Valid() && AllGenuine(server.objects, copies)
    modifies server
    ensures server.Valid() && old(server.acts) <= server.acts && Extends(old(server.objects), server.objects)
    ensures marked <= Least(n, |DrainCandidates(copies)|) && (ok <==> marked == Least(n, |DrainCandidates(copies)|))
    ensures forall i | 0 <= i < marked :: IsMarked(server.objects, DrainCandidates(copies)[i].name)
    ensures !ok ==> IsGone(server.objects, DrainCandidates(copies)[marked].name)
  {
    var list := DrainCandidates(copies);
    CandidatesAreOldest(server.objects, copies);
    marked, ok := 0, true;
    while ok && marked < |list| && marked < n
      invariant server.Valid() && old(server.acts) <= server.acts && Extends(old(server.objects), server.objects)
      invariant marked <= n && marked <= |list| && AllGenuine(server.objects, list)
      invariant FirstMarked(server.objects, list, marked)
      invariant !ok ==> marked < |list| && marked < n && IsGone(server.objects, list[marked].name)
      decreases ok, |list| - marked
    {
      ghost var before := server.objects;
      ok := MarkOne(server, list, marked);
      Claimer.ExtendsFurther(old(server.objects), before, server.objects);
      if ok {
        marked := marked + 1;
      }
    }
  }

  predicate IsGone(w: World, name: string) {
    name in w && w[name].gone
  }

  predicate FirstMarked(w: World, list: seq<Cached>, k: nat)
    requires k <= |list|
  {
    forall i | 0 <= i < k :: IsMarked(w, list[i].name)
  }

  lemma MarksStay(v: World, w: World, list: seq<Cached>, k: nat)
    requires WorldInv(w) && Extends(v, w) && k <= |list| && FirstMarked(v, list, k)
    ensures FirstMarked(w, list, k)
  {
    forall i | 0 <= i < k
      ensures IsMarked(w, list[i].name)
    {
      MarkStays(v, w, list[i].name);
    }
  }

  method PatchOne(server: ApiServer, list: seq<Cached>, k: nat)
    requires server.Valid() && AllGenuine(server.objects, list)
    requires k < |list| && DrainCandidate(list[k].content) && FirstMarked(server.objects, list, k)
    modifies server
    ensures server.Valid() && old(server.acts) <= server.acts && Extends(old(server.objects), server.objects)
    ensures AllGenuine(server.objects, list) && FirstMarked(server.objects, list, k + 1)
  {
    ghost var before := server.objects;
    assert Genuine(before, list[k]);
    MarkTakes(before, list[k]);
    server.Submit(On(list[k].name, Step.MarkDraining(list[k].read)));
    Claimer.GenuineForever(before, server.objects, list);
    server.ObjectsAreSafe();
    MarksStay(before, server.objects, list, k);
  }

  /** The patch of one candidate, which fails if the object is gone. */
  method MarkOne(server: ApiServer, list: seq<Cached>, k: nat) returns (ok: bool)
    requires server.Valid() && AllGenuine(server.objects, list)
    requires k < |list| && DrainCandidate(list[k].content) && FirstMarked(server.objects, list, k)
    modifies server
    ensures server.Valid() && old(server.acts) <= server.acts && Extends(old(server.objects), server.objects)
    ensures AllGenuine(server.objects, list) && FirstMarked(server.objects, list, if ok then k + 1 else k)
    ensures !ok ==> IsGone(server.objects, list[k].name)
  {
    ghost var before := server.objects;
    server.Interfere();
    ghost var current := server.objects;
    Claimer.GenuineForever(before, current, list);
    server.ObjectsAreSafe();
    MarksStay(before, current, list, k);
    assert Genuine(current, list[k]);
    ok := !server.objects[list[k].name].gone;
    if ok {
      PatchOne(server, list, k);
      Claimer.ExtendsFurther(before, current, server.objects);
    }
  }

  lemma MarkTakes(w: World, c: Cached)
    requires Genuine(w, c) && DrainCandidate(c.content)
    ensures CanAct(w, On(c.name, Step.MarkDraining(c.read)))
    ensures IsMarked(Do(w, On(c.name, Step.MarkDraining(c.read))), c.name)
  {
  }

  /** deleteDraining: at most limit deletions in one round, only of marked stock. */
  method DeleteDraining(server: ApiServer, copies: seq<Cached>, limit: nat) returns (deleted: nat)
    requires server.Valid() && AllGenuine(server.objects, copies)
    requires forall i | 0 <= i < |copies| :: copies[i].content.labels.draining
    modifies server
    ensures server.Valid() && old(server.acts) <= server.acts && Extends(old(server.objects), server.objects)
    ensures deleted == if limit <= |copies| then limit else |copies|
    ensures forall i | 0 <= i < deleted :: Reconciler.BeingDeleted(server.objects, copies[i].name)
  {
    deleted := 0;
    while deleted < |copies| && deleted < limit
      invariant server.Valid() && old(server.acts) <= server.acts && Extends(old(server.objects), server.objects)
      invariant deleted <= limit && deleted <= |copies| && AllGenuine(server.objects, copies)
      invariant FirstDeleted(server.objects, copies, deleted)
    {
      ghost var before := server.objects;
      DeleteOne(server, copies, deleted);
      Claimer.ExtendsFurther(old(server.objects), before, server.objects);
      deleted := deleted + 1;
    }
  }

  predicate FirstDeleted(w: World, list: seq<Cached>, k: nat)
    requires k <= |list|
  {
    forall i | 0 <= i < k :: Reconciler.BeingDeleted(w, list[i].name)
  }

  lemma DeletionsStay(v: World, w: World, list: seq<Cached>, k: nat)
    requires WorldInv(w) && Extends(v, w) && k <= |list| && FirstDeleted(v, list, k)
    ensures FirstDeleted(w, list, k)
  {
    forall i | 0 <= i < k
      ensures Reconciler.BeingDeleted(w, list[i].name)
    {
      LaterKeeps(v, w, list[i].name);
    }
  }

  method DeleteOne(server: ApiServer, list: seq<Cached>, k: nat)
    requires server.Valid() && AllGenuine(server.objects, list)
    requires k < |list| && list[k].content.labels.draining && FirstDeleted(server.objects, list, k)
    modifies server
    ensures server.Valid() && old(server.acts) <= server.acts && Extends(old(server.objects), server.objects)
    ensures AllGenuine(server.objects, list) && FirstDeleted(server.objects, list, k + 1)
  {
    server.Interfere();
    ghost var current := server.objects;
    Claimer.GenuineForever(old(server.objects), current, list);
    assert Genuine(current, list[k]);
    DeleteTakes(current, list[k]);
    server.Submit(On(list[k].name, PoolDelete(list[k].read)));
    Claimer.ExtendsFurther(old(server.objects), current, server.objects);
    Claimer.GenuineForever(current, server.objects, list);
    server.ObjectsAreSafe();
    DeletionsStay(old(server.objects), server.objects, list, k);
  }

  lemma DeleteTakes(w: World, c: Cached)
    requires Genuine(w, c) && c.content.labels.draining
    ensures CanAct(w, On(c.name, PoolDelete(c.read)))
    ensures Reconciler.BeingDeleted(Do(w, On(c.name, PoolDelete(c.read))), c.name)
  {
  }
}
