/** Run in internal/sweeper/run.go as a method: it classifies a snapshot and applies the findings one by one,
    with others changing the cluster before each. */
module Sweeper {
  import opened Api
  import opened Lists
  import opened Classify
  import opened ClassifyLaws
  import opened SweepRounds

  // ---- Runs grow ----

  lemma WasThereStill(run: seq<Snapshot>, t: Snapshot, n: nat, m: nat, s: Snapshot)
    requires WasRead(run, n, s) && n <= m
    ensures WasRead(run + [t], m, s)
  {
    forall kind: Kind
      ensures WasThere(run + [t], m, kind, ViewsOf(s, kind))
    {
      assert WasThere(run, n, kind, ViewsOf(s, kind));
      var at: nat :| at <= n && at < |run| && ViewsOf(run[at], kind) == ViewsOf(s, kind);
      assert (run + [t])[at] == run[at];
    }
  }

  lemma HappensStill(run: seq<Snapshot>, events: seq<Event>, t: Snapshot, e: Event, i: nat)
    requires |run| == |events| + 1 && i < |events| && Happens(run, events, i)
    ensures Happens(run + [t], events + [e], i)
  {
    if events[i].Applied? {
      WasThereStill(run, t, i, i, events[i].s);
    }
  }

  lemma RunGrows(run: seq<Snapshot>, events: seq<Event>, t: Snapshot, e: Event)
    requires IsRun(run, events) && Happens(run + [t], events + [e], |events|)
    ensures IsRun(run + [t], events + [e])
  {
    forall i: nat | i < |events| + 1
      ensures Happens(run + [t], events + [e], i)
    {
      if i < |events| {
        assert Happens(run, events, i);
        HappensStill(run, events, t, e, i);
      }
    }
  }

  // ---- A sweep that nobody interferes with ----

  /** What the findings applied so far made of an object, the next one treats as if it were the first. */
  lemma AppliedInTurn(s: Snapshot, r: set<Finding>, f: Finding, kind: Kind, v: View)
    requires s.now.Some? && UniqueViews(ViewsOf(s, kind)) && v in ViewsOf(s, kind)
    requires Treated(r, kind, s.now.value, v).Some?
    ensures
      var w := Treated(r, kind, s.now.value, v).value;
      AppliedTo(s, f, kind, w) == Treated({f}, kind, s.now.value, w)
  {
    if SeenUnmarked(s, kind, v) {
      var u :| u in ViewsOf(s, kind) && u.namespace == v.namespace && u.name == v.name && u.blockedSince.None?;
      assert u == v;
    }
  }

  lemma {:induction false} SameFilter<A, B>(f: A -> Option<B>, g: A -> Option<B>, s: seq<A>)
    requires forall x | x in s :: f(x) == g(x)
    ensures FilterMap(f, s) == FilterMap(g, s)
  {
    if s != [] {
      var n := |s| - 1;
      assert s[n] in s && forall x | x in s[..n] :: x in s;
      SameFilter(f, g, s[..n]);
    }
  }

  lemma AppliedToAll(s: Snapshot, r: set<Finding>, f: Finding, kind: Kind)
    requires s.now.Some? && UniqueViews(ViewsOf(s, kind))
    ensures
      var views := TreatedAll(r, kind, s.now.value, ViewsOf(s, kind));
      FilterMap(v => AppliedTo(s, f, kind, v), views) == TreatedAll({f}, kind, s.now.value, views)
  {
    var now := s.now.value;
    var views := TreatedAll(r, kind, now, ViewsOf(s, kind));
    forall w | w in views
      ensures AppliedTo(s, f, kind, w) == Treated({f}, kind, now, w)
    {
      FilterMapOrigin(v => Treated(r, kind, now, v), ViewsOf(s, kind), w);
      var i :| 0 <= i < |ViewsOf(s, kind)| && Treated(r, kind, now, ViewsOf(s, kind)[i]) == Some(w);
      AppliedInTurn(s, r, f, kind, ViewsOf(s, kind)[i]);
    }
    SameFilter(v => AppliedTo(s, f, kind, v), v => Treated({f}, kind, now, v), views);
  }

  predicate SameObjects(s: Snapshot, t: Snapshot) {
    s.leases == t.leases && s.netpols == t.netpols && s.volumes == t.volumes && s.pods == t.pods
  }

  predicate TreatedInto(r: set<Finding>, s: Snapshot, t: Snapshot)
    requires s.now.Some?
  {
    AreTreated(r, s, t.leases, t.netpols, t.volumes, t.pods)
  }

  lemma OneMoreTreated(r: set<Finding>, s: Snapshot, f: Finding, current: Snapshot, next: Snapshot)
    requires s.now.Some? && UniqueNames(s) && TreatedInto(r, s, current) && AppliedInto(current, s, f, next)
    ensures TreatedInto(r + {f}, s, next)
  {
    AppliedToAll(s, r, f, OrphanLease);
    AppliedToAll(s, r, f, OrphanNetworkPolicy);
    AppliedToAll(s, r, f, OrphanVolume);
    AppliedToAll(s, r, f, OrphanPod);
    AreTreatedNext(r, f, s, current.leases, current.netpols, current.volumes, current.pods);
    assert next.leases == ViewsOf(next, OrphanLease) && next.netpols == ViewsOf(next, OrphanNetworkPolicy);
    assert next.volumes == ViewsOf(next, OrphanVolume) && next.pods == ViewsOf(next, OrphanPod);
  }

  // ---- The objects ----

  /** The findings among events. */
  function FindingsIn(events: seq<Event>): seq<Finding> {
    FilterMap((e: Event) => if e.Applied? then Some(e.f) else None, events)
  }

  lemma OneMoreIn(events: seq<Event>, e: Event)
    ensures FindingsIn(events + [e]) == FindingsIn(events) + if e.Applied? then [e.f] else []
  {
    var f := (e: Event) => if e.Applied? then Some(e.f) else None;
    FilterMapConcat(f, events, [e]);
    FilterMapOne(f, e);
  }

  /** The events from n on are changes by others and the applications of these findings, in order. */
  predicate AppliedSince(events: seq<Event>, n: nat, s: Snapshot, findings: seq<Finding>) {
    && n <= |events| && FindingsIn(events[n..]) == findings
    && forall i | n <= i < |events| && events[i].Applied? :: events[i].s == s
  }

  lemma AppliedSinceGrows(events: seq<Event>, n: nat, s: Snapshot, findings: seq<Finding>, e: Event)
    requires AppliedSince(events, n, s, findings) && (e.Applied? ==> e.s == s)
    ensures AppliedSince(events + [e], n, s, findings + if e.Applied? then [e.f] else [])
  {
    OneMoreIn(events[n..], e);
    assert (events + [e])[n..] == events[n..] + [e];
  }

  /** The objects of the cluster that the sweeper marks and deletes, and what happened to them so far. */
  class SweptObjects {
    var leases: seq<View>
    var netpols: seq<View>
    var volumes: seq<View>
    var pods: seq<View>
    ghost var run: seq<Snapshot>
    ghost var events: seq<Event>

    function Value(): Snapshot
      reads this
    {
      Snapshot(None, [], pods, leases, netpols, volumes, map[])
    }

    ghost predicate Valid()
      reads this
    {
      IsRun(run, events) && run[|run| - 1] == Value()
    }

    /** A cluster that no sweep has seen. */
    constructor (leases: seq<View>, netpols: seq<View>, volumes: seq<View>, pods: seq<View>)
      requires
        forall kind: Kind, v | v in ViewsOf(Snapshot(None, [], pods, leases, netpols, volumes, map[]), kind) ::
          v.blockedSince.None?
      ensures Valid() && events == [] && Value() == Snapshot(None, [], pods, leases, netpols, volumes, map[])
    {
      this.leases, this.netpols, this.volumes, this.pods := leases, netpols, volumes, pods;
      run, events := [Snapshot(None, [], pods, leases, netpols, volumes, map[])], [];
    }

    /** What others do: anything but write the mark. */
    method Change(leases: seq<View>, netpols: seq<View>, volumes: seq<View>, pods: seq<View>)
      requires Valid() && OthersMay(Value(), Snapshot(None, [], pods, leases, netpols, volumes, map[]))
      modifies this
      ensures Valid() && events == old(events) + [Changed] && run == old(run) + [Value()]
    {
      this.leases, this.netpols, this.volumes, this.pods := leases, netpols, volumes, pods;
      RunGrows(run, events, Value(), Changed);
      run, events := run + [Value()], events + [Changed];
    }

    /** Any number of changes by others, in a cluster in which n events ago a sweep with these findings began. */
    method Interfere(ghost n: nat, ghost s: Snapshot, ghost findings: seq<Finding>)
      requires Valid() && AppliedSince(events, n, s, findings) && WasRead(run, |events|, s)
      modifies this
      ensures Valid() && old(events) <= events && old(run) <= run
      ensures AppliedSince(events, n, s, findings) && WasRead(run, |events|, s)
      ensures events == old(events) ==> Value() == old(Value())
    {
      var more: nat := *;
      while more > 0
        invariant Valid() && old(events) <= events && old(run) <= run
        invariant AppliedSince(events, n, s, findings) && WasRead(run, |events|, s)
        invariant events == old(events) ==> Value() == old(Value())
      {
        var l: seq<View>, np: seq<View>, v: seq<View>, p: seq<View> := *, *, *, *;
        if OthersMay(Value(), Snapshot(None, [], p, l, np, v, map[])) {
          AppliedSinceGrows(events, n, s, findings, Changed);
          WasThereStill(run, Snapshot(None, [], p, l, np, v, map[]), |events|, |events| + 1, s);
          Change(l, np, v, p);
        }
        more := more - 1;
      }
    }

    /** apply: marks what a block finding names and removes what a delete finding names, as they are now. */
    method Apply(s: Snapshot, options: Options, f: Finding)
      requires Valid() && s.now.Some? && WasRead(run, |events|, s) && f in Classified(s, options)
      modifies this
      ensures Valid() && events == old(events) + [Applied(s, options, f)] && run == old(run) + [Value()]
      ensures AppliedInto(old(Value()), s, f, Value())
    {
      ghost var before := Value();
      leases := FilterMap(v => AppliedTo(s, f, OrphanLease, v), leases);
      netpols := FilterMap(v => AppliedTo(s, f, OrphanNetworkPolicy, v), netpols);
      volumes := FilterMap(v => AppliedTo(s, f, OrphanVolume, v), volumes);
      pods := FilterMap(v => AppliedTo(s, f, OrphanPod, v), pods);
      AppliedHere(before, s, f, Value());
      ghost var e := Applied(s, options, f);
      WasThereStill(run, Value(), |events|, |events|, s);
      assert (run + [Value()])[|events|] == before;
      RunGrows(run, events, Value(), e);
      run, events := run + [Value()], events + [e];
    }

    static lemma AppliedHere(before: Snapshot, s: Snapshot, f: Finding, after: Snapshot)
      requires after.leases == FilterMap(v => AppliedTo(s, f, OrphanLease, v), before.leases)
      requires after.netpols == FilterMap(v => AppliedTo(s, f, OrphanNetworkPolicy, v), before.netpols)
      requires after.volumes == FilterMap(v => AppliedTo(s, f, OrphanVolume, v), before.volumes)
      requires after.pods == FilterMap(v => AppliedTo(s, f, OrphanPod, v), before.pods)
      ensures AppliedInto(before, s, f, after)
    {
      forall kind: Kind
        ensures ViewsOf(after, kind) == FilterMap(v => AppliedTo(s, f, kind, v), ViewsOf(before, kind))
      {
        match kind {
          case OrphanLease =>
          case OrphanNetworkPolicy =>
          case OrphanVolume =>
          case OrphanPod =>
          case _ =>
        }
      }
    }

    /** One turn of the loop below. */
    method ApplyNext(s: Snapshot, options: Options, findings: seq<Finding>, i: nat, ghost n: nat, ghost alone: bool)
      requires Valid() && s.now.Some? && WasRead(run, |events|, s) && findings == Classified(s, options)
      requires i < |findings| && AppliedSince(events, n, s, findings[..i])
      requires |events| >= n + i
      requires alone && |events| == n + i ==> TreatedInto(ToSet(findings[..i]), s, Value())
      requires alone ==> UniqueNames(s)
      modifies this
      ensures Valid() && old(events) <= events && old(run) <= run && WasRead(run, |events|, s)
      ensures AppliedSince(events, n, s, findings[..i + 1])
      ensures |events| >= n + i + 1
      ensures alone && |events| == n + i + 1 ==> TreatedInto(ToSet(findings[..i + 1]), s, Value())
    {
      ghost var start := events;
      Interfere(n, s, findings[..i]);
      ghost var before, log := Value(), events;
      assert findings[i] in Classified(s, options);
      WasThereStill(run, Value(), |events|, |events| + 1, s);
      AppliedSinceGrows(events, n, s, findings[..i], Applied(s, options, findings[i]));
      assert findings[..i + 1] == findings[..i] + [findings[i]];
      ghost var seen := run;
      Apply(s, options, findings[i]);
      WasThereStill(seen, Value(), |log|, |log| + 1, s);
      OneMoreFinding(findings, i);
      if alone && |events| == n + i + 1 {
        assert log == start;
        OneMoreTreated(ToSet(findings[..i]), s, findings[i], before, Value());
      }
    }

    /** Run. The snapshot's lists were read at some time so far, one after the other; every finding is applied
        in turn, whatever others do in between. A dry run only reports. Where nobody does anything in
        between, the objects are as if each had been treated by all findings at once. */
    method Sweep(s: Snapshot, options: Options, dryRun: bool) returns (findings: seq<Finding>, truncated: bool)
      requires Valid() && s.now.Some? && WasRead(run, |events|, s)
      modifies this
      ensures Valid() && old(events) <= events && old(run) <= run
      ensures findings == Classified(s, options)
      ensures truncated == (|findings| >= WithDefaults(options).maxFindings)
      ensures dryRun ==> Value() == old(Value()) && events == old(events)
      ensures !dryRun ==> AppliedSince(events, |old(events)|, s, findings)
      ensures
        !dryRun && UniqueNames(s) && SameObjects(s, old(Value())) && |events| == |old(events)| + |findings| ==>
          SweptInto(s, options, Value())
    {
      findings := ClassifySnapshot(s, options);
      truncated := |findings| >= WithDefaults(options).maxFindings;
      if dryRun {
        return;
      }
      ghost var n := |events|;
      assert events[n..] == [] && ToSet(findings[..0]) == {} && findings[..0] == [];
      ghost var alone := UniqueNames(s) && SameObjects(s, Value());
      NothingTreated(s);
      for i := 0 to |findings|
        invariant Valid() && old(events) <= events && old(run) <= run && WasRead(run, |events|, s)
        invariant AppliedSince(events, n, s, findings[..i]) && |events| >= n + i
        invariant alone && |events| == n + i ==> TreatedInto(ToSet(findings[..i]), s, Value())
      {
        ApplyNext(s, options, findings, i, n, alone);
      }
      assert findings[..|findings|] == findings;
    }
  }
}
