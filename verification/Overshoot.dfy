/** What a pool creates when its own new stock is not counted yet: countStock gives a class to a sandbox
    only once its controller has given it a phase. */
module Overshoot {
  import opened Api
  import opened Protocol
  import opened Scaling
  import opened ScalingRuns
  import PoolStock

  /** Stock that was created and has no phase yet. */
  predicate IsNewborn(s: Sandbox) {
    s.status.phase.NoPhase? && s.spec.claim.None? && !s.labels.draining
  }

  function Newborns(list: seq<Sandbox>): nat {
    if list == [] then 0 else Newborns(list[..|list| - 1]) + if IsNewborn(list[|list| - 1]) then 1 else 0
  }

  /** All stock, usable or on the way, counted or not. */
  function Stock(list: seq<Sandbox>): nat {
    PoolStock.Counts(list).warm + PoolStock.Counts(list).inflight + Newborns(list)
  }

  predicate AllNew(created: seq<Sandbox>) {
    forall i | 0 <= i < |created| :: Created(created[i]) && created[i].spec.claim.None?
  }

  /** New stock changes no count, and is stock. */
  lemma {:induction false} NewStockIsNotCounted(list: seq<Sandbox>, created: seq<Sandbox>)
    requires AllNew(created)
    ensures PoolStock.Counts(list + created) == PoolStock.Counts(list)
    ensures Newborns(list + created) == Newborns(list) + |created|
  {
    if created == [] {
      assert list + created == list;
    } else {
      var n := |created| - 1;
      NewStockIsNotCounted(list, created[..n]);
      var longer := list + created;
      assert longer[..|longer| - 1] == list + created[..n];
      assert IsNewborn(created[n]);
    }
  }

  /** The round's copy of the pool's stock is this list. */
  predicate Counted(r: PoolRound, list: seq<Sandbox>) {
    r.o.warm == PoolStock.Counts(list).warm && r.o.inflight == PoolStock.Counts(list).inflight
  }

  lemma GrowingRound(s: State, r: PoolRound)
    requires Moved(s, r) > 0
    ensures Decided(s, r).delta >= Moved(s, r)
    ensures Decided(s, r).target == Target(r.sc, Seen(s, r))
    ensures r.sc.maxWarm > 0 ==> Decided(s, r).target <= r.sc.maxWarm
  {
    TargetWithinBounds(r.sc, Seen(s, r));
    DecisionIsLargestAdmissible(r.sc, Seen(s, r));
    DecisionTellsTarget(r.sc, Seen(s, r));
  }

  /** After a round that created stock, everything is within the target if and only if what was not
      counted before it fits into the part of the gap that the round left open; and within maxWarm if
      and only if it fits below maxWarm. */
  lemma {:induction false} GrowthStaysWithinIff(s: State, r: PoolRound, list: seq<Sandbox>, created: seq<Sandbox>)
    requires Counted(r, list) && AllNew(created) && Moved(s, r) == |created| && created != []
    ensures
      var gap := Gap(r.sc, Seen(s, r));
      Stock(list + created) <= Decided(s, r).target <==> Newborns(list) <= gap - |created|
    ensures
      Stock(list + created) <= r.sc.maxWarm
      <==> Newborns(list) <= r.sc.maxWarm - r.o.warm - r.o.inflight - |created|
    ensures Newborns(list) == 0 ==>
        Stock(list + created) <= Decided(s, r).target && (r.sc.maxWarm > 0 ==> Stock(list + created) <= r.sc.maxWarm)
  {
    NewStockIsNotCounted(list, created);
    GrowingRound(s, r);
    DecisionIsLargestAdmissible(r.sc, Seen(s, r));
  }

  // ---- Two rounds in quick succession ----

  /** A round of a pool that wants ten pieces of stock, has room for ten, and sees this list. */
  function Growing(cooldown: int, now: int, list: seq<Sandbox>): PoolRound {
    var c := PoolStock.Counts(list);
    PoolRound(Nervous(cooldown), Observation(now, c.warm, c.inflight, 0, 0.0, -1, None, 0, 0, -1, false), true, 10,
              Committed)
  }

  lemma GrowingSwings(cooldown: int, now: int, list: seq<Sandbox>)
    requires AllNew(list)
    ensures Growing(cooldown, now, list) == Swing(cooldown, now, true, 10, Committed)
  {
    NewStockIsNotCounted([], list);
    assert [] + list == list;
    assert PoolStock.Counts([]) == PoolStock.StockCounts(0, 0, 0, 0, 0);
  }

  lemma SecondGrowth(cooldown: int)
    requires cooldown >= 0
    ensures
      var s := Next(Fresh(), Swing(cooldown, 0, true, 10, Committed));
      Moved(s, Swing(cooldown, cooldown, true, 10, Committed)) == 10
  {
    FirstMoves(cooldown, Committed);
    var s := Next(Fresh(), Swing(cooldown, 0, true, 10, Committed));
    KeptIsShorter(s.history, cooldown - OSCILLATION_WINDOW - 1);
    SwingDecides(s, Swing(cooldown, cooldown, true, 10, Committed), cooldown, true);
  }

  /** With any cooldown, two rounds that far apart, each following the rules and its status written:
      whatever stock the first created, if it has no phase yet the second creates as much again, and the
      pool has twice what maxWarm allows. */
  lemma TwoRoundsOvershoot(cooldown: int, first: seq<Sandbox>, second: seq<Sandbox>)
    requires cooldown >= 0 && AllNew(first) && AllNew(second) && |first| == |second| == 10
    ensures
      var a, b := Growing(cooldown, 0, []), Growing(cooldown, cooldown, first);
      && Counted(a, []) && Counted(b, first) && a.sc == b.sc == Nervous(cooldown) && a.sc.maxWarm == 10
      && Moved(Fresh(), a) == |first| && Moved(Next(Fresh(), a), b) == |second|
    ensures Stock(first + second) == 20
  {
    GrowingSwings(cooldown, 0, []);
    GrowingSwings(cooldown, cooldown, first);
    FirstMoves(cooldown, Committed);
    SecondGrowth(cooldown);
    NewStockIsNotCounted([], first);
    NewStockIsNotCounted(first, second);
    assert [] + first == first;
  }

  // ---- Runs ----

  /** One pass of the pool: the list it counts, the round, and what it creates. */
  datatype Pass = Pass(list: seq<Sandbox>, r: PoolRound, created: seq<Sandbox>)

  predicate IsPass(s: State, p: Pass) {
    && Counted(p.r, p.list) && AllNew(p.created)
    && |p.created| == if Moved(s, p.r) > 0 then Moved(s, p.r) else 0
  }

  function Rounds(passes: seq<Pass>): seq<PoolRound> {
    seq(|passes|, i requires 0 <= i < |passes| => passes[i].r)
  }

  /** Between two passes stock is bound, marked, lost and given phases, but nobody else creates any. */
  predicate NobodyElseCreates(passes: seq<Pass>) {
    forall i | 0 < i < |passes| :: Stock(passes[i].list) <= Stock(passes[i - 1].list + passes[i - 1].created)
  }

  predicate Genuine(passes: seq<Pass>) {
    forall i | 0 <= i < |passes| :: IsPass(Play(Rounds(passes)[..i]), passes[i])
  }

  /** The pass creates nothing while stock of an earlier one is not counted. */
  predicate Patient(p: Pass) {
    p.created == [] || Newborns(p.list) == 0
  }

  lemma NothingNew(list: seq<Sandbox>)
    ensures list + [] == list
  {
  }

  /** Over any run of passes that create nothing while earlier stock is not counted yet, all stock stays
      within maxWarm. */
  lemma {:induction false} PatientPoolStaysWithin(passes: seq<Pass>, maxWarm: int, i: nat)
    requires Genuine(passes) && NobodyElseCreates(passes) && i < |passes| && maxWarm > 0
    requires forall k | 0 <= k < |passes| :: Patient(passes[k]) && passes[k].r.sc.maxWarm == maxWarm
    requires Stock(passes[0].list) <= maxWarm
    ensures Stock(passes[i].list) <= maxWarm && Stock(passes[i].list + passes[i].created) <= maxWarm
  {
    var p, s := passes[i], Play(Rounds(passes)[..i]);
    assert IsPass(s, p) && Patient(p);
    if i > 0 {
      PatientPoolStaysWithin(passes, maxWarm, i - 1);
    }
    if p.created == [] {
      NothingNew(p.list);
    } else {
      GrowthStaysWithinIff(s, p.r, p.list, p.created);
    }
  }
}
