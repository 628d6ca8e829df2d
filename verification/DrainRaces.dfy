/** Shrinking a pool against claims: the pool first marks stock and deletes it a round later, and
    neither the mark nor the deletion asks whether a claim came in between. */
module DrainRaces {
  import opened Api
  import opened Protocol
  import opened Safety
  import opened Freeze
  import opened Scenarios

  // ---- Runs and their prefixes ----

  lemma {:induction false} LegalConcat(x: Object, a: seq<Step>, b: seq<Step>)
    requires Legal(x, a + b)
    ensures Legal(x, a) && Legal(After(x, a), b) && After(After(x, a), b) == After(x, a + b)
    decreases |a|
  {
    if a == [] {
      assert a + b == b;
    } else {
      assert (a + b)[1..] == a[1..] + b;
      LegalConcat(Apply(x, a[0]), a[1..], b);
    }
  }

  lemma LegalPrefix(x: Object, run: seq<Step>, k: nat)
    requires Legal(x, run) && k <= |run|
    ensures Legal(x, run[..k]) && Legal(After(x, run[..k]), run[k..])
    ensures After(After(x, run[..k]), run[k..]) == After(x, run)
  {
    assert run[..k] + run[k..] == run;
    LegalConcat(x, run[..k], run[k..]);
  }

  lemma {:induction false} RunGrows(x: Object, run: seq<Step>)
    requires Legal(x, run)
    ensures x.versions <= After(x, run).versions
    decreases |run|
  {
    if run != [] {
      var y := Apply(x, run[0]);
      StepGrows(x, run[0]);
      assert x.versions <= y.versions;
      RunGrows(y, run[1..]);
      PrefixOfPrefix(x.versions, y.versions, After(x, run).versions);
    }
  }

  lemma PrefixOfPrefix(a: seq<Sandbox>, b: seq<Sandbox>, c: seq<Sandbox>)
    requires a <= b && b <= c
    ensures a <= c
  {
  }

  /** Every version was once the current one. */
  lemma {:induction false} WasCurrent(x: Object, run: seq<Step>, i: nat) returns (k: nat)
    requires Legal(x, run) && |x.versions| <= i + 1 <= |After(x, run).versions|
    ensures k <= |run| && Legal(x, run[..k]) && |After(x, run[..k]).versions| == i + 1
    decreases |run|
  {
    if |x.versions| == i + 1 {
      k := 0;
    } else {
      StepGrows(x, run[0]);
      var j := WasCurrent(Apply(x, run[0]), run[1..], i);
      k := j + 1;
      assert run[..k][1..] == run[1..][..j];
    }
  }

  // ---- The two races ----

  /** A claim was committed over a version that carried the mark. */
  predicate BoundWhileMarked(x: Object, i: nat) {
    BindsAt(x, i) && x.versions[i].labels.draining
  }

  /** The mark was patched onto a version that was claimed, and not on its way out anyway. */
  predicate MarkedWhileBound(x: Object, i: nat) {
    && i + 1 < |x.versions| && !x.versions[i].labels.draining && x.versions[i + 1].labels.draining
    && x.versions[i].spec.claim.Some? && !x.versions[i].deleting
  }

  ghost predicate Raced(x: Object) {
    exists i: nat :: BoundWhileMarked(x, i) || MarkedWhileBound(x, i)
  }

  /** The pool, looking at version read, would start the deletion of a sandbox that is claimed. */
  predicate Strikes(x: Object, read: nat) {
    Enabled(x, PoolDelete(read)) && !x.gone && !x.Current().deleting && x.Current().spec.claim.Some?
  }

  /** At some instant of the run the pool would do so. */
  ghost predicate Endangered(s: Sandbox, run: seq<Step>) {
    exists k: nat, read: nat ::
      k <= |run| && Legal(NewObject(s), run[..k]) && Strikes(After(NewObject(s), run[..k]), read)
  }

  /** The version at which a sandbox comes to be both claimed and marked. */
  lemma {:induction false} FirstBoth(x: Object, j: nat) returns (i: nat)
    requires Inv(x) && j < |x.versions| && x.versions[j].spec.claim.Some? && x.versions[j].labels.draining
    requires !x.versions[j].deleting
    ensures BoundWhileMarked(x, i) || MarkedWhileBound(x, i)
  {
    assert j > 0;
    var a := x.versions[j - 1];
    assert Follows(x.versions[j - 1], x.versions[j - 1 + 1]);
    assert Keeps(a, x.versions[j]);
    if a.spec.claim.Some? && a.labels.draining {
      i := FirstBoth(x, j - 1);
    } else {
      i := j - 1;
    }
  }

  lemma RaceLeavesBoth(x: Object, i: nat)
    requires Inv(x) && (BoundWhileMarked(x, i) || MarkedWhileBound(x, i))
    ensures
      var b := x.versions[i + 1];
      i + 1 < |x.versions| && b.spec.claim.Some? && b.labels.draining && !b.deleting
  {
    assert Follows(x.versions[i], x.versions[i + 1]);
  }

  lemma RaceOfPrefix(x: Object, y: Object, i: nat)
    requires x.versions <= y.versions && (BoundWhileMarked(x, i) || MarkedWhileBound(x, i))
    ensures BoundWhileMarked(y, i) || MarkedWhileBound(y, i)
  {
  }

  lemma PrefixKeepsInv(s: Sandbox, run: seq<Step>, k: nat)
    requires Created(s) && Legal(NewObject(s), run) && k <= |run|
    ensures Legal(NewObject(s), run[..k]) && Inv(After(NewObject(s), run[..k]))
    ensures After(NewObject(s), run[..k]).versions <= After(NewObject(s), run).versions
  {
    LegalPrefix(NewObject(s), run, k);
    NewObjectInv(s);
    RunKeepsInv(NewObject(s), run[..k]);
    RunGrows(After(NewObject(s), run[..k]), run[k..]);
  }

  lemma StrikeNeedsRace(x: Object, read: nat) returns (i: nat)
    requires Inv(x) && Strikes(x, read)
    ensures BoundWhileMarked(x, i) || MarkedWhileBound(x, i)
  {
    assert Keeps(x.versions[read], x.versions[x.Latest()]);
    i := FirstBoth(x, x.Latest());
  }

  lemma BothCanBeStruck(x: Object)
    requires Inv(x) && x.Current().spec.claim.Some? && x.Current().labels.draining && !x.Current().deleting
    ensures Strikes(x, x.Latest())
  {
  }

  /** Over any run of all actors, with reads as stale as may be: the pool can come to start the deletion
      of a claimed sandbox if and only if a claim was committed over a version that carried the mark, or
      the mark was patched onto a claimed version. */
  lemma PoolDeletesClaimedIff(s: Sandbox, run: seq<Step>)
    requires Created(s) && Legal(NewObject(s), run)
    ensures Endangered(s, run) <==> Raced(After(NewObject(s), run))
  {
    var x := After(NewObject(s), run);
    if Endangered(s, run) {
      var k: nat, read: nat :|
        k <= |run| && Legal(NewObject(s), run[..k]) && Strikes(After(NewObject(s), run[..k]), read);
      PrefixKeepsInv(s, run, k);
      var i := StrikeNeedsRace(After(NewObject(s), run[..k]), read);
      RaceOfPrefix(After(NewObject(s), run[..k]), x, i);
    }
    if Raced(x) {
      var i: nat :| BoundWhileMarked(x, i) || MarkedWhileBound(x, i);
      RaceEndangers(s, run, i);
    }
  }

  lemma RaceEndangers(s: Sandbox, run: seq<Step>, i: nat)
    requires Created(s) && Legal(NewObject(s), run)
    requires BoundWhileMarked(After(NewObject(s), run), i) || MarkedWhileBound(After(NewObject(s), run), i)
    ensures Endangered(s, run)
  {
    PrefixKeepsInv(s, run, |run|);
    assert run[..|run|] == run;
    RaceLeavesBoth(After(NewObject(s), run), i);
    var k := WasCurrent(NewObject(s), run, i + 1);
    PrefixKeepsInv(s, run, k);
    var y := After(NewObject(s), run[..k]);
    assert y.Current() == After(NewObject(s), run).versions[i + 1];
    BothCanBeStruck(y);
  }

  /** Without either race no deletion of the pool in the whole run hits a claimed sandbox. */
  lemma PoolDeletesOnlyStock(s: Sandbox, run: seq<Step>, k: nat)
    requires Created(s) && Legal(NewObject(s), run) && !Raced(After(NewObject(s), run))
    requires k < |run| && run[k].PoolDelete?
    ensures Legal(NewObject(s), run[..k]) && !Strikes(After(NewObject(s), run[..k]), run[k].read)
  {
    PoolDeletesClaimedIff(s, run);
    LegalPrefix(NewObject(s), run, k);
  }

  // ---- Both happen ----

  lemma MarkOn(s: Sandbox, x: Object, cur: Sandbox, copy: nat) returns (y: Object)
    requires Stands(s, x, cur, false) && copy < |x.versions| && DrainCandidate(x.versions[copy])
    requires !cur.labels.draining && !cur.deleting
    ensures Stands(s, y, cur.(labels := cur.labels.(draining := true)), false)
    ensures y.versions == x.versions + [y.Current()]
  {
    var next := cur.(labels := cur.labels.(draining := true));
    CommitAppends(x, next);
    AppendedStands(s, x, cur, false, MarkDraining(copy), next);
    y := Apply(x, MarkDraining(copy));
  }

  /** Any plain stock: ready, marked, bound by a claimer that reads the mark and does not mind, and
      deleted under its claim. */
  lemma MarkedStockIsClaimedAndDeleted(s: Sandbox, c: Claim) returns (run: seq<Step>)
    requires PlainStock(s)
    ensures Legal(NewObject(s), run)
    ensures
      var x := After(NewObject(s), run);
      x.Exists() && x.Current().deleting && x.Current().spec.claim == Some(c)
  {
    var x := ReadyStock(s);
    var ready := StockAt(s, Ready);
    x := MarkOn(s, x, ready, x.Latest());
    var marked := ready.(labels := ready.labels.(draining := true));
    CommitAppends(x, Bound(marked, c));
    AppendedStands(s, x, marked, false, Bind(x.Latest(), c), Bound(marked, c));
    x := Apply(x, Bind(x.Latest(), c));
    run := DeleteOn(s, x, Bound(marked, c));
  }

  lemma DeleteOn(s: Sandbox, x: Object, cur: Sandbox) returns (run: seq<Step>)
    requires Stands(s, x, cur, false) && cur.labels.draining
    ensures Legal(NewObject(s), run)
    ensures
      var y := After(NewObject(s), run);
      y.Exists() && y.Current() == cur.(deleting := true)
  {
    StepReaches(NewObject(s), x, PoolDelete(x.Latest()));
    run := RunTo(s, Apply(x, PoolDelete(x.Latest())));
  }

  /** The other way round: ready, bound, marked by a pool that has not seen the claim, and deleted. */
  lemma ClaimedStockIsMarkedAndDeleted(s: Sandbox, c: Claim) returns (run: seq<Step>)
    requires PlainStock(s)
    ensures Legal(NewObject(s), run)
    ensures
      var x := After(NewObject(s), run);
      x.Exists() && x.Current().deleting && x.Current().spec.claim == Some(c)
  {
    var ready := ReadyStock(s);
    var bound := BindOn(s, c, ready);
    assert bound.versions[ready.Latest()] == StockAt(s, Ready);
    var cur := Bound(StockAt(s, Ready), c);
    var x := MarkOn(s, bound, cur, ready.Latest());
    run := DeleteOn(s, x, cur.(labels := cur.labels.(draining := true)));
  }
}
