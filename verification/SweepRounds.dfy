/** internal/sweeper/run.go and apply.go: sweeps over a cluster, and what whole runs of them
    guarantee about marking and deleting orphans. */
module SweepRounds {
  import opened Api
  import opened Lists
  import opened Classify
  import opened ClassifyLaws
  import StableSort

  // ---- Applying findings ----

  /** The findings that put a mark on an object of this kind: a claim without its Lease is marked on
      the Lease of the sandbox's name, if there is one. */
  predicate Marks(r: set<Finding>, kind: Kind, v: View) {
    || Finding(kind, Block, v.namespace, v.name) in r
    || (kind.OrphanLease? && Finding(ClaimWithoutLease, Block, v.namespace, v.name) in r)
  }

  predicate Deletes(r: set<Finding>, kind: Kind, v: View) {
    Finding(kind, DeleteObject, v.namespace, v.name) in r
  }

  /** What applying the findings makes of one object; a mark that is already there stays as it is. */
  function Treated(r: set<Finding>, kind: Kind, now: int, v: View): Option<View> {
    if Deletes(r, kind, v) then None
    else if Marks(r, kind, v) && v.blockedSince.None? then Some(v.(blockedSince := Some(now)))
    else Some(v)
  }

  function TreatedAll(r: set<Finding>, kind: Kind, now: int, views: seq<View>): seq<View> {
    FilterMap(v => Treated(r, kind, now, v), views)
  }

  function ToSet(r: seq<Finding>): set<Finding> {
    set f | f in r
  }

  lemma TreatedTwice(a: set<Finding>, f: Finding, kind: Kind, now: int, v: View)
    ensures
      Treated(a + {f}, kind, now, v)
      == match Treated(a, kind, now, v)
         case None => None
         case Some(w) => Treated({f}, kind, now, w)
  {
  }

  lemma {:induction false} TreatedInTurn(a: set<Finding>, f: Finding, kind: Kind, now: int, views: seq<View>)
    ensures TreatedAll(a + {f}, kind, now, views) == TreatedAll({f}, kind, now, TreatedAll(a, kind, now, views))
  {
    if views != [] {
      var n := |views| - 1;
      var g := v => Treated({f}, kind, now, v);
      TreatedInTurn(a, f, kind, now, views[..n]);
      TreatedTwice(a, f, kind, now, views[n]);
      var w := Treated(a, kind, now, views[n]);
      if w.Some? {
        FilterMapConcat(g, TreatedAll(a, kind, now, views[..n]), [w.value]);
        FilterMapOne(g, w.value);
      }
    }
  }

  /** The four lists after the findings r were applied to those of the snapshot. */
  predicate AreTreated(r: set<Finding>, s: Snapshot, leases: seq<View>, netpols: seq<View>, volumes: seq<View>,
      pods: seq<View>)
    requires s.now.Some?
  {
    && leases == TreatedAll(r, OrphanLease, s.now.value, s.leases)
    && netpols == TreatedAll(r, OrphanNetworkPolicy, s.now.value, s.netpols)
    && volumes == TreatedAll(r, OrphanVolume, s.now.value, s.volumes)
    && pods == TreatedAll(r, OrphanPod, s.now.value, s.pods)
  }

  lemma AreTreatedNext(r: set<Finding>, f: Finding, s: Snapshot, leases: seq<View>, netpols: seq<View>,
      volumes: seq<View>, pods: seq<View>)
    requires s.now.Some? && AreTreated(r, s, leases, netpols, volumes, pods)
    ensures
      var now := s.now.value;
      AreTreated(r + {f}, s, TreatedAll({f}, OrphanLease, now, leases),
                 TreatedAll({f}, OrphanNetworkPolicy, now, netpols),
                 TreatedAll({f}, OrphanVolume, now, volumes), TreatedAll({f}, OrphanPod, now, pods))
  {
    var now := s.now.value;
    TreatedInTurn(r, f, OrphanLease, now, s.leases);
    TreatedInTurn(r, f, OrphanNetworkPolicy, now, s.netpols);
    TreatedInTurn(r, f, OrphanVolume, now, s.volumes);
    TreatedInTurn(r, f, OrphanPod, now, s.pods);
  }

  lemma NothingTreated(s: Snapshot)
    requires s.now.Some?
    ensures AreTreated({}, s, s.leases, s.netpols, s.volumes, s.pods)
  {
    UntreatedStays(OrphanLease, s.now.value, s.leases);
    UntreatedStays(OrphanNetworkPolicy, s.now.value, s.netpols);
    UntreatedStays(OrphanVolume, s.now.value, s.volumes);
    UntreatedStays(OrphanPod, s.now.value, s.pods);
  }

  lemma OneMoreFinding(findings: seq<Finding>, i: nat)
    requires i < |findings|
    ensures ToSet(findings[..i + 1]) == ToSet(findings[..i]) + {findings[i]}
  {
    assert findings[..i + 1] == findings[..i] + [findings[i]];
  }

  lemma {:induction false} UntreatedStays(kind: Kind, now: int, views: seq<View>)
    ensures TreatedAll({}, kind, now, views) == views
  {
    if views != [] {
      UntreatedStays(kind, now, views[..|views| - 1]);
    }
  }

  /** The cluster after a sweep that nobody else interfered with; sandboxes and time are new. */
  predicate SweptInto(s: Snapshot, options: Options, t: Snapshot)
    requires s.now.Some?
  {
    AreTreated(ToSet(Classified(s, options)), s, t.leases, t.netpols, t.volumes, t.pods)
  }

  // ---- A deletion is never hasty ----

  /** One finding of some sweep is applied, or others change something. */
  datatype Event = Applied(s: Snapshot, options: Options, f: Finding) | Changed

  /** The sweep's copy of the object carries no mark. */
  predicate SeenUnmarked(s: Snapshot, kind: Kind, v: View) {
    exists u | u in ViewsOf(s, kind) :: u.namespace == v.namespace && u.name == v.name && u.blockedSince.None?
  }

  /** What applying a finding makes of an object as it is by now: a deletion asks for nothing, and the
      mark is patched over whatever is there unless the sweep's own copy had one. */
  function AppliedTo(s: Snapshot, f: Finding, kind: Kind, v: View): Option<View> {
    if Deletes({f}, kind, v) then None
    else if Marks({f}, kind, v) && SeenUnmarked(s, kind, v) then Some(v.(blockedSince := s.now))
    else Some(v)
  }

  predicate AppliedInto(current: Snapshot, s: Snapshot, f: Finding, next: Snapshot) {
    forall kind: Kind :: ViewsOf(next, kind) == FilterMap(v => AppliedTo(s, f, kind, v), ViewsOf(current, kind))
  }

  /** A mark on an object of t was on an object of that kind and name in s. */
  predicate NoNewMarks(s: seq<View>, t: seq<View>) {
    forall v | v in t && v.blockedSince.Some? ::
      exists u | u in s :: u.namespace == v.namespace && u.name == v.name && u.blockedSince == v.blockedSince
  }

  /** What others may do at any time: anything but write the mark. */
  predicate OthersMay(s: Snapshot, t: Snapshot) {
    forall kind: Kind :: NoNewMarks(ViewsOf(s, kind), ViewsOf(t, kind))
  }

  /** The list was read at some instant so far. */
  predicate WasThere(run: seq<Snapshot>, n: nat, kind: Kind, views: seq<View>) {
    exists at: nat :: at <= n && at < |run| && ViewsOf(run[at], kind) == views
  }

  /** Every list of the snapshot was read at some instant so far, not all at the same. */
  predicate WasRead(run: seq<Snapshot>, n: nat, s: Snapshot) {
    forall kind: Kind :: WasThere(run, n, kind, ViewsOf(s, kind))
  }

  predicate Happens(run: seq<Snapshot>, events: seq<Event>, i: nat)
    requires |run| == |events| + 1 && i < |events|
  {
    match events[i]
    case Applied(s, options, f) =>
      s.now.Some? && WasRead(run, i, s) && f in Classified(s, options) && AppliedInto(run[i], s, f, run[i + 1])
    case Changed => OthersMay(run[i], run[i + 1])
  }

  /** A run of the cluster, by any number of sweeps at once and others: every finding is applied some
      time after the lists were read that it was made from, with anything happening in between. */
  predicate IsRun(run: seq<Snapshot>, events: seq<Event>) {
    && |run| == |events| + 1
    && (forall kind: Kind, v | v in ViewsOf(run[0], kind) :: v.blockedSince.None?)
    && forall i: nat | i < |events| :: Happens(run, events, i)
  }

  /** The mark was written by one of the first n events. */
  predicate WrittenBySweep(events: seq<Event>, n: nat, mark: int) {
    exists k: nat :: k < n && k < |events| && events[k].Applied? && events[k].f.action.Block?
        && events[k].s.now == Some(mark)
  }

  predicate MarksAreWritten(s: Snapshot, events: seq<Event>, n: nat) {
    forall kind: Kind, v | v in ViewsOf(s, kind) && v.blockedSince.Some? ::
      WrittenBySweep(events, n, v.blockedSince.value)
  }

  lemma WrittenEarlier(events: seq<Event>, m: nat, n: nat, mark: int)
    requires m <= n && WrittenBySweep(events, m, mark)
    ensures WrittenBySweep(events, n, mark)
  {
    var k: nat :|
      k < m && k < |events| && events[k].Applied? && events[k].f.action.Block? && events[k].s.now == Some(mark);
    assert k < n;
  }

  lemma AppliedView(current: Snapshot, s: Snapshot, f: Finding, next: Snapshot, kind: Kind, v: View) returns (u: View)
    requires AppliedInto(current, s, f, next) && v in ViewsOf(next, kind)
    ensures u in ViewsOf(current, kind) && (v == u || (f.action.Block? && v == u.(blockedSince := s.now)))
  {
    var g := x => AppliedTo(s, f, kind, x);
    assert ViewsOf(next, kind) == FilterMap(x => AppliedTo(s, f, kind, x), ViewsOf(current, kind));
    FilterMapOrigin(g, ViewsOf(current, kind), v);
    var i :| 0 <= i < |ViewsOf(current, kind)| && g(ViewsOf(current, kind)[i]) == Some(v);
    u := ViewsOf(current, kind)[i];
  }

  lemma MarkIsOldOrNew(run: seq<Snapshot>, events: seq<Event>, n: nat, kind: Kind, v: View)
    requires IsRun(run, events) && n < |events| && MarksAreWritten(run[n], events, n)
    requires v in ViewsOf(run[n + 1], kind) && v.blockedSince.Some?
    ensures WrittenBySweep(events, n + 1, v.blockedSince.value)
  {
    assert Happens(run, events, n);
    match events[n] {
      case Applied(s, options, f) =>
        var u := AppliedView(run[n], s, f, run[n + 1], kind, v);
        if v == u {
          WrittenEarlier(events, n, n + 1, v.blockedSince.value);
        }
      case Changed =>
        assert NoNewMarks(ViewsOf(run[n], kind), ViewsOf(run[n + 1], kind));
        var u :| u in ViewsOf(run[n], kind) && u.blockedSince == v.blockedSince;
        WrittenEarlier(events, n, n + 1, u.blockedSince.value);
    }
  }

  lemma {:induction false} EveryMarkIsWritten(run: seq<Snapshot>, events: seq<Event>, n: nat)
    requires IsRun(run, events) && n <= |events|
    ensures MarksAreWritten(run[n], events, n)
  {
    if n > 0 {
      EveryMarkIsWritten(run, events, n - 1);
      forall kind: Kind, v | v in ViewsOf(run[n], kind) && v.blockedSince.Some?
        ensures WrittenBySweep(events, n, v.blockedSince.value)
      {
        MarkIsOldOrNew(run, events, n - 1, kind, v);
      }
    }
  }

  lemma MarkReadIsWritten(run: seq<Snapshot>, events: seq<Event>, n: nat, s: Snapshot, kind: Kind, v: View)
    requires IsRun(run, events) && n < |events| && WasRead(run, n, s)
    requires v in ViewsOf(s, kind) && v.blockedSince.Some?
    ensures WrittenBySweep(events, n, v.blockedSince.value)
  {
    assert WasThere(run, n, kind, ViewsOf(s, kind));
    var at: nat :| at <= n && at < |run| && ViewsOf(run[at], kind) == ViewsOf(s, kind);
    EveryMarkIsWritten(run, events, at);
    WrittenEarlier(events, at, n, v.blockedSince.value);
  }

  /** Over any run, with any number of sweeps applying their findings late and others changing anything
      but the marks: an object that is deleted has no owner in the snapshot it was found in, and carried
      there a mark that was written, by a finding applied before, at least the grace ago. */
  lemma DeletionsAreDue(run: seq<Snapshot>, events: seq<Event>, n: nat)
    requires IsRun(run, events) && n < |events| && events[n].Applied? && events[n].f.action.DeleteObject?
    ensures
      var s, y, grace := events[n].s, events[n].f, WithDefaults(events[n].options).orphanGrace;
      s.now.Some? && exists v | v in ViewsOf(s, y.kind) ::
        && v.namespace == y.namespace && v.name == y.name && !Owned(OwnersOf(s.sandboxes), v)
        && v.blockedSince.Some? && s.now.value - v.blockedSince.value >= grace > 0
        && WrittenBySweep(events, n, v.blockedSince.value)
  {
    assert Happens(run, events, n);
    var s, y, opt := events[n].s, events[n].f, WithDefaults(events[n].options);
    InAllFindings(s, events[n].options, y);
    OnlyOrphansAreDeleted(s, opt, y);
    var v := OriginDue(s, opt, y);
    MarkReadIsWritten(run, events, n, s, y.kind, v);
  }

  lemma OnlyOrphansAreDeleted(s: Snapshot, opt: Options, y: Finding)
    requires s.now.Some? && y in AllFindings(s, opt) && y.action.DeleteObject?
    ensures !IsSandboxKind(y.kind) && y in Orphans(s, opt, y.kind, RoleOf(y.kind), ViewsOf(s, y.kind))
  {
    WhereFound(s, opt, y);
    if IsSandboxKind(y.kind) {
      var i := OriginSandbox(s, opt, y);
      AnomaliesDeleteNothing(ContextOf(s, opt), s.sandboxes[i]);
    }
  }

  lemma AnomaliesDeleteNothing(c: Context, x: SandboxView)
    ensures Anomaly(c, x).Some? ==> !Anomaly(c, x).value.1.DeleteObject?
  {
  }

  lemma WhereFound(s: Snapshot, opt: Options, y: Finding)
    requires s.now.Some? && y in AllFindings(s, opt)
    ensures
      if IsSandboxKind(y.kind) then y in Anomalies(s, opt)
      else y in Orphans(s, opt, y.kind, RoleOf(y.kind), ViewsOf(s, y.kind))
  {
    CountByKind(s, opt, y);
  }

  lemma OriginDue(s: Snapshot, opt: Options, y: Finding) returns (v: View)
    requires s.now.Some? && !IsSandboxKind(y.kind) && y in Orphans(s, opt, y.kind, RoleOf(y.kind), ViewsOf(s, y.kind))
    requires y.action.DeleteObject?
    ensures v in ViewsOf(s, y.kind) && v.namespace == y.namespace && v.name == y.name
    ensures !Owned(OwnersOf(s.sandboxes), v)
    ensures v.blockedSince.Some? && s.now.value - v.blockedSince.value >= opt.orphanGrace
  {
    var f := v => OrphanFinding(OwnersOf(s.sandboxes), y.kind, RoleOf(y.kind), s.now.value, opt.orphanGrace, v);
    FilterMapOrigin(f, ViewsOf(s, y.kind), y);
    var i :| 0 <= i < |ViewsOf(s, y.kind)| && f(ViewsOf(s, y.kind)[i]) == Some(y);
    v := ViewsOf(s, y.kind)[i];
  }

  // ---- Orphans go away ----

  /** All orphans, in the order in which they are collected. */
  function AllOrphans(s: Snapshot, opt: Options): seq<Finding>
    requires s.now.Some?
  {
    Leftovers(s, opt) + PodOrphans(s, opt)
  }

  /** How far an orphan is from being gone: an unmarked one has to be marked first. */
  function Weight(orphans: seq<Finding>): nat {
    if orphans == [] then 0
    else Weight(orphans[..|orphans| - 1]) + if orphans[|orphans| - 1].action.Block? then 2 else 1
  }

  /** One stage further, for what the sweep got to. */
  function Advanced(y: Finding): Option<Finding> {
    if y.action.Block? then Some(y.(action := DeleteObject)) else None
  }

  function Stage(r: set<Finding>, y: Finding): Option<Finding> {
    if y in r then Advanced(y) else Some(y)
  }

  /** The next sweep comes at least the grace later, finds the owners it found before, and nobody
      else touched the four lists. */
  predicate NextSweep(s: Snapshot, options: Options, t: Snapshot) {
    && s.now.Some? && t.now.Some? && SweptInto(s, options, t)
    && OwnersOf(t.sandboxes) == OwnersOf(s.sandboxes)
    && t.now.value - s.now.value >= WithDefaults(options).orphanGrace
  }

  /** Every mark is old enough to act on. */
  predicate MarksAreOld(s: Snapshot, opt: Options)
    requires s.now.Some?
  {
    forall kind: Kind, v | v in ViewsOf(s, kind)
        && v.blockedSince.Some? :: s.now.value - v.blockedSince.value >= opt.orphanGrace
  }

  /** The findings about a view that the sweep can have: none if it is no orphan, one if it is. */
  predicate OnlyOwnFindings(s: Snapshot, opt: Options, r: set<Finding>, kind: Kind, v: View)
    requires s.now.Some?
  {
    forall action: Action | Finding(kind, action, v.namespace, v.name) in r :: Expected(s, opt, RoleOf(kind), v, action)
  }

  /** One object through a sweep and into the next one: an orphan that the sweep got to moves on a
      stage, another orphan and anything else stays what it is. */
  lemma ViewThroughSweep(s: Snapshot, opt: Options, t: Snapshot, r: set<Finding>, kind: Kind, v: View)
    requires s.now.Some? && t.now.Some? && OwnersOf(t.sandboxes) == OwnersOf(s.sandboxes)
    requires t.now.value - s.now.value >= opt.orphanGrace > 0
    requires v.blockedSince.Some? ==> s.now.value - v.blockedSince.value >= opt.orphanGrace
    requires OnlyOwnFindings(s, opt, r, kind, v)
    requires
      Finding(ClaimWithoutLease, Block, v.namespace, v.name) in r && kind.OrphanLease?
          && Expected(s, opt, RoleOf(kind), v, Block) ==>
        Finding(kind, Block, v.namespace, v.name) in r
    ensures
      var l, role := OwnersOf(s.sandboxes), RoleOf(kind);
      var before := OrphanFinding(l, kind, role, s.now.value, opt.orphanGrace, v);
      var after := match Treated(r, kind, s.now.value, v)
                   case None => None
                   case Some(w) => OrphanFinding(l, kind, role, t.now.value, opt.orphanGrace, w);
      after == match before case None => None case Some(y) => Stage(r, y)
  {
    assert Expected(s, opt, RoleOf(kind), v, Block) ==> v.blockedSince.None?;
  }

  lemma {:induction false} FilterMapTwice<A, B, C>(f: A -> Option<B>, g: B -> Option<C>, h: A -> Option<C>, s: seq<A>)
    requires forall i | 0 <= i < |s| :: h(s[i]) == match f(s[i]) case None => None case Some(y) => g(y)
    ensures FilterMap(g, FilterMap(f, s)) == FilterMap(h, s)
  {
    if s != [] {
      var n := |s| - 1;
      FilterMapTwice(f, g, h, s[..n]);
      assert h(s[n]) == match f(s[n]) case None => None case Some(y) => g(y);
      if f(s[n]).Some? {
        FilterMapConcat(g, FilterMap(f, s[..n]), [f(s[n]).value]);
        FilterMapOne(g, f(s[n]).value);
      }
    }
  }

  /** What the sweep knows about its findings: each is about its own object, and a claim without a
      Lease is only reported when every orphan was. */
  predicate SweepFindings(s: Snapshot, opt: Options, r: set<Finding>)
    requires s.now.Some?
  {
    && (forall kind: Kind, v | v in ViewsOf(s, kind) && !IsSandboxKind(kind) :: OnlyOwnFindings(s, opt, r, kind, v))
    && ((exists x | x in r :: IsSandboxKind(x.kind)) ==> forall y | y in AllOrphans(s, opt) :: y in r)
  }

  lemma ListThroughSweep(s: Snapshot, opt: Options, t: Snapshot, r: set<Finding>, kind: Kind)
    requires s.now.Some? && t.now.Some? && OwnersOf(t.sandboxes) == OwnersOf(s.sandboxes) && !IsSandboxKind(kind)
    requires t.now.value - s.now.value >= opt.orphanGrace > 0 && MarksAreOld(s, opt) && SweepFindings(s, opt, r)
    requires ViewsOf(t, kind) == TreatedAll(r, kind, s.now.value, ViewsOf(s, kind))
    requires forall y | y in Orphans(s, opt, kind, RoleOf(kind), ViewsOf(s, kind)) :: y in AllOrphans(s, opt)
    ensures
      Orphans(t, opt, kind, RoleOf(kind), ViewsOf(t, kind))
      == FilterMap(y => Stage(r, y), Orphans(s, opt, kind, RoleOf(kind), ViewsOf(s, kind)))
  {
    var l, role, views := OwnersOf(s.sandboxes), RoleOf(kind), ViewsOf(s, kind);
    var f := v => OrphanFinding(l, kind, role, s.now.value, opt.orphanGrace, v);
    var f' := v => OrphanFinding(l, kind, role, t.now.value, opt.orphanGrace, v);
    var treat := v => Treated(r, kind, s.now.value, v);
    var stage := y => Stage(r, y);
    var whole := v => match f(v) case None => None case Some(y) => stage(y);
    forall i | 0 <= i < |views|
      ensures whole(views[i]) == match treat(views[i]) case None => None case Some(w) => f'(w)
    {
      var v := views[i];
      assert v in views;
      FilterMapOrigin(f, views, Finding(kind, Block, v.namespace, v.name));
      ViewThroughSweep(s, opt, t, r, kind, v);
    }
    FilterMapTwice(treat, f', whole, views);
    FilterMapTwice(f, stage, whole, views);
  }

  // ---- What a sweep gets to ----

  lemma OwnFindingsOnly(s: Snapshot, options: Options, kind: Kind, v: View)
    requires s.now.Some? && UniqueNames(s) && !IsSandboxKind(kind) && v in ViewsOf(s, kind)
    ensures OnlyOwnFindings(s, WithDefaults(options), ToSet(Classified(s, options)), kind, v)
  {
    var opt, r := WithDefaults(options), ToSet(Classified(s, options));
    forall action: Action | Finding(kind, action, v.namespace, v.name) in r
      ensures Expected(s, opt, RoleOf(kind), v, action)
    {
      var y := Finding(kind, action, v.namespace, v.name);
      InAllFindings(s, options, y);
      WhereFound(s, opt, y);
      var u := OriginExpected(s, opt, y);
      SameName(ViewsOf(s, kind), u, v);
    }
  }

  lemma SameName(views: seq<View>, u: View, v: View)
    requires UniqueViews(views) && u in views && v in views && u.namespace == v.namespace && u.name == v.name
    ensures u == v
  {
  }

  lemma OriginExpected(s: Snapshot, opt: Options, y: Finding) returns (v: View)
    requires s.now.Some? && !IsSandboxKind(y.kind) && y in Orphans(s, opt, y.kind, RoleOf(y.kind), ViewsOf(s, y.kind))
    ensures v in ViewsOf(s, y.kind) && v.namespace == y.namespace && v.name == y.name
    ensures Expected(s, opt, RoleOf(y.kind), v, y.action)
  {
    var f := v => OrphanFinding(OwnersOf(s.sandboxes), y.kind, RoleOf(y.kind), s.now.value, opt.orphanGrace, v);
    FilterMapOrigin(f, ViewsOf(s, y.kind), y);
    var i :| 0 <= i < |ViewsOf(s, y.kind)| && f(ViewsOf(s, y.kind)[i]) == Some(y);
    v := ViewsOf(s, y.kind)[i];
  }

  lemma OrphanKinds(s: Snapshot, opt: Options, y: Finding)
    requires s.now.Some? && y in AllOrphans(s, opt)
    ensures !IsSandboxKind(y.kind)
  {
    if y in Orphans(s, opt, OrphanLease, ROLE_LEASE, s.leases) {
      OrphansOfKind(s, opt, OrphanLease, ROLE_LEASE, s.leases, y);
    } else if y in Orphans(s, opt, OrphanNetworkPolicy, ROLE_NETPOL, s.netpols) {
      OrphansOfKind(s, opt, OrphanNetworkPolicy, ROLE_NETPOL, s.netpols, y);
    } else if y in Orphans(s, opt, OrphanVolume, ROLE_VOLUME, s.volumes) {
      OrphansOfKind(s, opt, OrphanVolume, ROLE_VOLUME, s.volumes, y);
    } else {
      OrphansOfKind(s, opt, OrphanPod, ROLE_SANDBOX, s.pods, y);
    }
  }

  /** The sweep gets to the first orphans, as many as the cap lets through; anomalies of sandboxes
      come after all of them. */
  lemma SweepGetsToFirst(s: Snapshot, options: Options, y: Finding)
    requires s.now.Some?
    ensures
      var opt := WithDefaults(options);
      && (!IsSandboxKind(y.kind) ==> (y in Classified(s, options) <==> y in Take(AllOrphans(s, opt), opt.maxFindings)))
      && (IsSandboxKind(y.kind) && y in Classified(s, options) ==> |AllOrphans(s, opt)| < opt.maxFindings)
  {
    var opt := WithDefaults(options);
    var orphans, anomalies := AllOrphans(s, opt), Anomalies(s, opt);
    var cut := Take(AllFindings(s, opt), opt.maxFindings);
    StableSort.SortPermutes((a: Finding, b: Finding) => FindingLe(a, b), cut);
    StableSort.SameElements(SortFindings(cut), cut);
    TakeOfTwo(orphans, anomalies, opt.maxFindings, y);
    if y in orphans {
      OrphanKinds(s, opt, y);
    }
    if y in anomalies {
      AnomaliesOfKind(s, opt, y);
    }
  }

  lemma TakeOfTwo(a: seq<Finding>, b: seq<Finding>, n: nat, y: Finding)
    ensures y in Take(a + b, n) ==> y in Take(a, n) || (y in b && |a| < n)
    ensures y in Take(a, n) ==> y in Take(a + b, n) && y in a
  {
    assert Take(a, n) <= Take(a + b, n);
    assert Take(a, n) <= a;
    if |a| >= n {
      assert Take(a + b, n) == Take(a, n);
    }
  }

  lemma FindingsOfSweep(s: Snapshot, options: Options)
    requires s.now.Some? && UniqueNames(s)
    ensures SweepFindings(s, WithDefaults(options), ToSet(Classified(s, options)))
  {
    var opt, r := WithDefaults(options), ToSet(Classified(s, options));
    forall kind: Kind, v | v in ViewsOf(s, kind) && !IsSandboxKind(kind)
      ensures OnlyOwnFindings(s, opt, r, kind, v)
    {
      OwnFindingsOnly(s, options, kind, v);
    }
    if x :| x in r && IsSandboxKind(x.kind) {
      SweepGetsToFirst(s, options, x);
      forall y | y in AllOrphans(s, opt)
        ensures y in r
      {
        OrphanKinds(s, opt, y);
        SweepGetsToFirst(s, options, y);
      }
    }
  }

  /** What becomes of orphans by the next sweep. */
  function MovedOn(s: Snapshot, options: Options, orphans: seq<Finding>): seq<Finding> {
    FilterMap(y => Stage(ToSet(Classified(s, options)), y), orphans)
  }

  lemma KindMovesOn(s: Snapshot, options: Options, t: Snapshot, kind: Kind)
    requires NextSweep(s, options, t) && UniqueNames(s) && MarksAreOld(s, WithDefaults(options)) && !IsSandboxKind(kind)
    ensures
      var opt := WithDefaults(options);
      Orphans(t, opt, kind, RoleOf(kind), ViewsOf(t, kind))
      == MovedOn(s, options, Orphans(s, opt, kind, RoleOf(kind), ViewsOf(s, kind)))
  {
    FindingsOfSweep(s, options);
    ListThroughSweep(s, WithDefaults(options), t, ToSet(Classified(s, options)), kind);
  }

  /** The orphans of the next sweep are those of this one, moved on a stage as far as it got. */
  lemma OrphansMoveOn(s: Snapshot, options: Options, t: Snapshot)
    requires NextSweep(s, options, t) && UniqueNames(s) && MarksAreOld(s, WithDefaults(options))
    ensures
      AllOrphans(t, WithDefaults(options))
      == MovedOn(s, options, AllOrphans(s, WithDefaults(options)))
  {
    var opt := WithDefaults(options);
    KindMovesOn(s, options, t, OrphanLease);
    KindMovesOn(s, options, t, OrphanNetworkPolicy);
    KindMovesOn(s, options, t, OrphanVolume);
    KindMovesOn(s, options, t, OrphanPod);
    FourLists(s, options, Orphans(s, opt, OrphanLease, ROLE_LEASE, s.leases),
              Orphans(s, opt, OrphanNetworkPolicy, ROLE_NETPOL, s.netpols),
              Orphans(s, opt, OrphanVolume, ROLE_VOLUME, s.volumes), PodOrphans(s, opt));
  }

  lemma FourLists(s: Snapshot, options: Options, a: seq<Finding>, b: seq<Finding>, c: seq<Finding>, d: seq<Finding>)
    ensures
      MovedOn(s, options, a + b + c + d)
      == MovedOn(s, options, a) + MovedOn(s, options, b) + MovedOn(s, options, c) + MovedOn(s, options, d)
  {
    var f := y => Stage(ToSet(Classified(s, options)), y);
    FilterMapConcat(f, a, b);
    FilterMapConcat(f, a + b, c);
    FilterMapConcat(f, a + b + c, d);
  }

  // ---- Counting ----

  function CountIn(r: set<Finding>, orphans: seq<Finding>): nat {
    if orphans == [] then 0
    else CountIn(r, orphans[..|orphans| - 1]) + if orphans[|orphans| - 1] in r then 1 else 0
  }

  predicate OnlyOrphanActions(orphans: seq<Finding>) {
    forall i | 0 <= i < |orphans| :: orphans[i].action.Block? || orphans[i].action.DeleteObject?
  }

  /** Every stage costs one. */
  lemma {:induction false} StagesCostOne(r: set<Finding>, orphans: seq<Finding>)
    requires OnlyOrphanActions(orphans)
    ensures Weight(FilterMap(y => Stage(r, y), orphans)) + CountIn(r, orphans) == Weight(orphans)
  {
    if orphans != [] {
      var n := |orphans| - 1;
      var stage := y => Stage(r, y);
      StagesCostOne(r, orphans[..n]);
      var rest := FilterMap(stage, orphans[..n]);
      if stage(orphans[n]).Some? {
        assert (rest + [stage(orphans[n]).value])[..|rest|] == rest;
      }
    }
  }

  lemma {:induction false} CountOfPrefix(r: set<Finding>, orphans: seq<Finding>, m: nat)
    requires forall i | 0 <= i < |orphans| :: orphans[i] in r <==> i < m
    ensures CountIn(r, orphans) == if |orphans| <= m then |orphans| else m
  {
    if orphans != [] {
      CountOfPrefix(r, orphans[..|orphans| - 1], m);
    }
  }

  predicate NoDuplicates(f: seq<Finding>) {
    forall i, j | 0 <= i < j < |f| :: f[i] != f[j]
  }

  lemma CountedOnce(f: seq<Finding>)
    requires forall y | y in f :: multiset(f)[y] <= 1
    ensures NoDuplicates(f)
  {
    forall i, j | 0 <= i < j < |f|
      ensures f[i] != f[j]
    {
      assert f == f[..j] + f[j..];
      assert f[i] in f[..j] && f[j] in f[j..] && f[i] in f;
      assert multiset(f)[f[i]] == multiset(f[..j])[f[i]] + multiset(f[j..])[f[i]];
    }
  }

  lemma OrphansAreDifferent(s: Snapshot, opt: Options)
    requires s.now.Some? && UniqueNames(s)
    ensures NoDuplicates(AllOrphans(s, opt)) && OnlyOrphanActions(AllOrphans(s, opt))
  {
    var orphans := AllOrphans(s, opt);
    forall y | y in orphans
      ensures multiset(orphans)[y] <= 1 && (y.action.Block? || y.action.DeleteObject?)
    {
      OrphanKinds(s, opt, y);
      WhereFound(s, opt, y);
      var v := OriginExpected(s, opt, y);
      var i :| 0 <= i < |ViewsOf(s, y.kind)| && ViewsOf(s, y.kind)[i] == v;
      OrphansOnce(s, opt, y.kind, RoleOf(y.kind), ViewsOf(s, y.kind), i, y.action);
      CountByKind(s, opt, y);
      assert multiset(AllFindings(s, opt))[y] == multiset(orphans)[y] + multiset(Anomalies(s, opt))[y];
    }
    CountedOnce(orphans);
    forall i | 0 <= i < |orphans|
      ensures orphans[i].action.Block? || orphans[i].action.DeleteObject?
    {
      assert orphans[i] in orphans;
    }
  }

  function Min(a: nat, b: nat): nat {
    if a < b then a else b
  }

  /** One sweep takes exactly as many stages off the orphans as the cap allows. */
  lemma SweepCosts(s: Snapshot, options: Options, t: Snapshot)
    requires NextSweep(s, options, t) && UniqueNames(s) && MarksAreOld(s, WithDefaults(options))
    ensures
      var opt := WithDefaults(options);
      Weight(AllOrphans(t, opt)) + Min(opt.maxFindings, |AllOrphans(s, opt)|) == Weight(AllOrphans(s, opt))
  {
    var opt, r := WithDefaults(options), ToSet(Classified(s, options));
    var orphans := AllOrphans(s, opt);
    OrphansMoveOn(s, options, t);
    OrphansAreDifferent(s, opt);
    StagesCostOne(r, orphans);
    forall i | 0 <= i < |orphans|
      ensures orphans[i] in r <==> i < opt.maxFindings
    {
      assert orphans[i] in orphans;
      OrphanKinds(s, opt, orphans[i]);
      SweepGetsToFirst(s, options, orphans[i]);
      InPrefix(orphans, i, opt.maxFindings);
    }
    CountOfPrefix(r, orphans, opt.maxFindings);
  }

  lemma InPrefix(f: seq<Finding>, i: nat, n: nat)
    requires NoDuplicates(f) && i < |f|
    ensures f[i] in Take(f, n) <==> i < n
  {
    if i < n {
      assert Take(f, n)[i] == f[i];
    }
  }

  // ---- Runs of sweeps ----

  lemma SweptView(s: Snapshot, options: Options, t: Snapshot, kind: Kind, v: View) returns (u: View)
    requires s.now.Some? && SweptInto(s, options, t) && v in ViewsOf(t, kind)
    ensures u in ViewsOf(s, kind) && (v == u || (u.blockedSince.None? && v == u.(blockedSince := s.now)))
  {
    var r := ToSet(Classified(s, options));
    assert ViewsOf(t, kind) == TreatedAll(r, kind, s.now.value, ViewsOf(s, kind));
    var g := x => Treated(r, kind, s.now.value, x);
    FilterMapOrigin(g, ViewsOf(s, kind), v);
    var i :| 0 <= i < |ViewsOf(s, kind)| && g(ViewsOf(s, kind)[i]) == Some(v);
    u := ViewsOf(s, kind)[i];
  }

  lemma NextIsOrderly(s: Snapshot, options: Options, t: Snapshot)
    requires NextSweep(s, options, t) && UniqueNames(s) && UniqueSandboxes(t.sandboxes)
    requires MarksAreOld(s, WithDefaults(options))
    ensures UniqueNames(t) && MarksAreOld(t, WithDefaults(options))
  {
    var r, now := ToSet(Classified(s, options)), s.now.value;
    TreatedAreUnique(r, OrphanLease, now, s.leases);
    TreatedAreUnique(r, OrphanNetworkPolicy, now, s.netpols);
    TreatedAreUnique(r, OrphanVolume, now, s.volumes);
    TreatedAreUnique(r, OrphanPod, now, s.pods);
    forall kind: Kind, v | v in ViewsOf(t, kind) && v.blockedSince.Some?
      ensures t.now.value - v.blockedSince.value >= WithDefaults(options).orphanGrace
    {
      var u := SweptView(s, options, t, kind, v);
    }
  }

  predicate Named(views: seq<View>, namespace: string, name: string) {
    exists i | 0 <= i < |views| :: views[i].namespace == namespace && views[i].name == name
  }

  lemma {:induction false} TreatedAreUnique(r: set<Finding>, kind: Kind, now: int, views: seq<View>)
    requires UniqueViews(views)
    ensures UniqueViews(TreatedAll(r, kind, now, views))
    ensures forall v | v in TreatedAll(r, kind, now, views) :: Named(views, v.namespace, v.name)
  {
    if views != [] {
      var n := |views| - 1;
      TreatedAreUnique(r, kind, now, views[..n]);
      var w := Treated(r, kind, now, views[n]);
      var rest := TreatedAll(r, kind, now, views[..n]);
      forall v | v in rest
        ensures Named(views, v.namespace, v.name) && (v.namespace != views[n].namespace || v.name != views[n].name)
      {
        assert Named(views[..n], v.namespace, v.name);
        var i :| 0 <= i < n && views[..n][i].namespace == v.namespace && views[..n][i].name == v.name;
        assert views[i].namespace == v.namespace;
      }
    }
  }

  predicate IsSweepRun(run: seq<Snapshot>, options: Options) {
    && run != [] && run[0].now.Some? && UniqueNames(run[0]) && MarksAreOld(run[0], WithDefaults(options))
    && (forall i | 0 <= i < |run| :: UniqueSandboxes(run[i].sandboxes))
    && forall i | 0 <= i < |run| - 1 :: NextSweep(run[i], options, run[i + 1])
  }

  /** With a fixed set of owners and sweeps at least the grace apart, all orphans are gone after at
      most as many sweeps as there are stages left, whatever the cap. */
  lemma {:induction false} OrphansAreRemoved(run: seq<Snapshot>, options: Options, n: nat)
    requires IsSweepRun(run, options) && n < |run|
    ensures run[n].now.Some? && UniqueNames(run[n]) && MarksAreOld(run[n], WithDefaults(options))
    ensures
      var opt := WithDefaults(options);
      AllOrphans(run[n], opt) == [] || Weight(AllOrphans(run[n], opt)) + n <= Weight(AllOrphans(run[0], opt))
    ensures n >= Weight(AllOrphans(run[0], WithDefaults(options))) ==> AllOrphans(run[n], WithDefaults(options)) == []
  {
    var opt := WithDefaults(options);
    if n > 0 {
      OrphansAreRemoved(run, options, n - 1);
      assert NextSweep(run[n - 1], options, run[n]);
      NextIsOrderly(run[n - 1], options, run[n]);
      SweepCosts(run[n - 1], options, run[n]);
      WeightOfSome(AllOrphans(run[n], opt));
    } else {
      WeightOfSome(AllOrphans(run[0], opt));
    }
  }

  lemma WeightOfSome(orphans: seq<Finding>)
    ensures orphans != [] ==> Weight(orphans) > 0
  {
  }
}
