/** What the findings of a sweep mean: each is about one object, each object that should be
    reported is reported once, and the order of the cluster's lists does not matter. */
module ClassifyLaws {
  import opened Api
  import opened Lists
  import opened Classify
  import StableSort

  // ---- The order of findings ----

  lemma {:induction false} StringsCompare(a: string, b: string)
    ensures StringLe(a, b) || StringLe(b, a)
    ensures StringLe(a, b) && StringLe(b, a) ==> a == b
  {
    if a != [] && b != [] && a[0] == b[0] {
      StringsCompare(a[1..], b[1..]);
      assert a == [a[0]] + a[1..] && b == [b[0]] + b[1..];
    }
  }

  lemma {:induction false} StringsChain(a: string, b: string, c: string)
    requires StringLe(a, b) && StringLe(b, c)
    ensures StringLe(a, c)
  {
    if a != [] && b != [] && c != [] && a[0] == b[0] && b[0] == c[0] {
      StringsChain(a[1..], b[1..], c[1..]);
    }
  }

  lemma StringsOrder()
    ensures forall a: string, b: string :: StringLe(a, b) || StringLe(b, a)
    ensures forall a: string, b: string :: StringLe(a, b) && StringLe(b, a) ==> a == b
    ensures forall a: string, b: string, c: string :: StringLe(a, b) && StringLe(b, c) ==> StringLe(a, c)
  {
    forall a: string, b: string
      ensures (StringLe(a, b) || StringLe(b, a)) && (StringLe(a, b) && StringLe(b, a) ==> a == b)
    {
      StringsCompare(a, b);
    }
    forall a: string, b: string, c: string | StringLe(a, b) && StringLe(b, c)
      ensures StringLe(a, c)
    {
      StringsChain(a, b, c);
    }
  }

  lemma FindingsCompare(a: Finding, b: Finding)
    ensures FindingLe(a, b) || FindingLe(b, a)
    ensures
      FindingLe(a, b) && FindingLe(b, a) ==>
        KindName(a.kind) == KindName(b.kind) && a.namespace == b.namespace && a.name == b.name
  {
    StringsOrder();
  }

  lemma FindingsChain(a: Finding, b: Finding, c: Finding)
    requires FindingLe(a, b) && FindingLe(b, c)
    ensures FindingLe(a, c)
  {
    StringsOrder();
  }

  lemma FindingsOrder()
    ensures StableSort.Orders((a: Finding, b: Finding) => FindingLe(a, b))
  {
    forall a: Finding, b: Finding
      ensures FindingLe(a, b) || FindingLe(b, a)
    {
      FindingsCompare(a, b);
    }
    forall a: Finding, b: Finding, c: Finding | FindingLe(a, b) && FindingLe(b, c)
      ensures FindingLe(a, c)
    {
      FindingsChain(a, b, c);
    }
  }

  lemma KindNamesDiffer(a: Kind, b: Kind)
    requires KindName(a) == KindName(b)
    ensures a == b
  {
    // The names differ in length or in one letter.
    assert KindName(OrphanPod)[7] == 'p' && KindName(OrphanLease)[7] == 'l';
    assert KindName(OrphanVolume)[7] == 'v' && KindName(OrphanNetworkPolicy)[7] == 'n';
  }

  predicate SortedFindings(f: seq<Finding>) {
    StableSort.Sorted((a: Finding, b: Finding) => FindingLe(a, b), f)
  }

  // ---- Unique names ----

  predicate UniqueViews(views: seq<View>) {
    forall i, j | 0 <= i < j < |views| :: views[i].namespace != views[j].namespace || views[i].name != views[j].name
  }

  predicate UniqueSandboxes(sandboxes: seq<SandboxView>) {
    forall i, j | 0 <= i < j < |sandboxes| ::
      sandboxes[i].namespace != sandboxes[j].namespace || sandboxes[i].name != sandboxes[j].name
  }

  predicate UniqueNames(s: Snapshot) {
    UniqueViews(s.leases) && UniqueViews(s.netpols) && UniqueViews(s.volumes) && UniqueViews(s.pods)
    && UniqueSandboxes(s.sandboxes)
  }

  predicate IsSandboxKind(k: Kind) {
    k.StuckTerminating? || k.StuckPending? || k.StockWithoutPod? || k.NodeLost? || k.ClaimWithoutLease?
  }

  /** Ownership is a matter of the sandboxes there are, in whatever order: a UID that is not empty, or
      a label that is not empty in the object's own namespace, has to match. */
  lemma OwnedMeans(sandboxes: seq<SandboxView>, v: View)
    ensures
      Owned(OwnersOf(sandboxes), v) <==>
      exists s | s in sandboxes ::
        || (v.ownerUid != "" && s.uid == v.ownerUid)
        || (v.sandboxLabel != "" && Key(s.namespace, s.name) == Key(v.namespace, v.sandboxLabel))
  {
  }

  /** Each anomaly by itself: what it takes, and what must not be the case for it to be the first. */
  lemma AnomalyIsExact(c: Context, s: SandboxView)
    ensures
      var key, a := Key(s.namespace, s.name), Anomaly(c, s);
      var young := !IsStuckPending(c, s);
      && (a == Some((StuckTerminating, ForceFinalize)) <==>
            s.deleting && s.deletingSince.Some? && s.deletingSince.value + c.opt.stuckTerminatingGrace < c.now)
      && (a == Some((StuckPending, MarkFailed)) <==>
            !s.deleting && s.phase in {NoPhase, Pending, Provisioning} && s.createdAt.Some?
            && s.createdAt.value + c.opt.pendingGrace < c.now)
      && (a == Some((StockWithoutPod, MarkFailed)) <==> !s.deleting && s.phase.Ready? && key !in c.withPod)
      && (a == Some((NodeLost, MarkFailed)) <==> !s.deleting && young && !s.phase.Ready? && OnLostNode(c, s))
      && (a == Some((ClaimWithoutLease, Block)) <==>
            !s.deleting && young && !s.phase.Ready? && !OnLostNode(c, s) && s.hasClaim && key !in c.withLease)
      && (a.Some? ==> IsSandboxKind(a.value.0))
  {
  }

  // ---- One list ----

  lemma OrphansOfKind(s: Snapshot, opt: Options, kind: Kind, role: string, views: seq<View>, y: Finding)
    requires s.now.Some? && y in Orphans(s, opt, kind, role, views)
    ensures y.kind == kind
  {
    FilterMapOrigin(v => OrphanFinding(OwnersOf(s.sandboxes), kind, role, s.now.value, opt.orphanGrace, v), views, y);
  }

  lemma AnomaliesOfKind(s: Snapshot, opt: Options, y: Finding)
    requires s.now.Some? && y in Anomalies(s, opt)
    ensures IsSandboxKind(y.kind)
  {
    FilterMapOrigin(x => SandboxFinding(ContextOf(s, opt), x), s.sandboxes, y);
  }

  /** The finding to expect about a view, whatever its action. */
  predicate Expected(s: Snapshot, opt: Options, role: string, v: View, action: Action)
    requires s.now.Some?
  {
    v.role == role && !Owned(OwnersOf(s.sandboxes), v)
        && action == Bounded(v.blockedSince, s.now.value, opt.orphanGrace)
  }

  lemma OrphansOnce(s: Snapshot, opt: Options, kind: Kind, role: string, views: seq<View>, i: nat, action: Action)
    requires s.now.Some? && UniqueViews(views) && i < |views|
    ensures
      multiset(Orphans(s, opt, kind, role, views))[Finding(kind, action, views[i].namespace, views[i].name)]
      == if Expected(s, opt, role, views[i], action) then 1 else 0
  {
    var f := v => OrphanFinding(OwnersOf(s.sandboxes), kind, role, s.now.value, opt.orphanGrace, v);
    var y := Finding(kind, action, views[i].namespace, views[i].name);
    FilterMapOnce(f, views, y);
    assert Expected(s, opt, role, views[i], action) ==> f(views[i]) == Some(y);
    assert forall j | 0 <= j < |views| && f(views[j]) == Some(y) :: j == i;
  }

  lemma AnomaliesOnce(s: Snapshot, opt: Options, i: nat, kind: Kind, action: Action)
    requires s.now.Some? && UniqueSandboxes(s.sandboxes) && i < |s.sandboxes|
    ensures
      multiset(Anomalies(s, opt))[Finding(kind, action, s.sandboxes[i].namespace, s.sandboxes[i].name)]
      == if Anomaly(ContextOf(s, opt), s.sandboxes[i]) == Some((kind, action)) then 1 else 0
  {
    var f := x => SandboxFinding(ContextOf(s, opt), x);
    var y := Finding(kind, action, s.sandboxes[i].namespace, s.sandboxes[i].name);
    FilterMapOnce(f, s.sandboxes, y);
    assert Anomaly(ContextOf(s, opt), s.sandboxes[i]) == Some((kind, action)) ==> f(s.sandboxes[i]) == Some(y);
    assert forall j | 0 <= j < |s.sandboxes| && f(s.sandboxes[j]) == Some(y) :: j == i;
  }

  // ---- The whole result ----

  predicate BelowCap(s: Snapshot, options: Options) {
    s.now.Some? && |AllFindings(s, WithDefaults(options))| <= WithDefaults(options).maxFindings
  }

  lemma BelowCapIsComplete(s: Snapshot, options: Options)
    requires BelowCap(s, options)
    ensures multiset(Classified(s, options)) == multiset(AllFindings(s, WithDefaults(options)))
    ensures Classified(s, options) == SortFindings(AllFindings(s, WithDefaults(options)))
  {
    StableSort.SortPermutes((a: Finding, b: Finding) => FindingLe(a, b), AllFindings(s, WithDefaults(options)));
  }

  function ViewsOf(s: Snapshot, kind: Kind): seq<View> {
    match kind
    case OrphanPod => s.pods
    case OrphanLease => s.leases
    case OrphanNetworkPolicy => s.netpols
    case OrphanVolume => s.volumes
    case _ => []
  }

  function RoleOf(kind: Kind): string {
    match kind
    case OrphanPod => ROLE_SANDBOX
    case OrphanLease => ROLE_LEASE
    case OrphanNetworkPolicy => ROLE_NETPOL
    case _ => ROLE_VOLUME
  }

  /** Findings of a kind come from one list only. */
  lemma CountByKind(s: Snapshot, opt: Options, y: Finding)
    requires s.now.Some?
    ensures
      multiset(AllFindings(s, opt))[y]
      == if IsSandboxKind(y.kind) then multiset(Anomalies(s, opt))[y]
         else multiset(Orphans(s, opt, y.kind, RoleOf(y.kind), ViewsOf(s, y.kind)))[y]
  {
    var l, n, v, p := Orphans(s, opt, OrphanLease, ROLE_LEASE, s.leases),
      Orphans(s, opt, OrphanNetworkPolicy, ROLE_NETPOL, s.netpols),
      Orphans(s, opt, OrphanVolume, ROLE_VOLUME, s.volumes), PodOrphans(s, opt);
    var a := Anomalies(s, opt);
    CountInFive(l, n, v, p, a, y);
    NotInOthers(s, opt, OrphanLease, ROLE_LEASE, s.leases, y);
    NotInOthers(s, opt, OrphanNetworkPolicy, ROLE_NETPOL, s.netpols, y);
    NotInOthers(s, opt, OrphanVolume, ROLE_VOLUME, s.volumes, y);
    NotInOthers(s, opt, OrphanPod, ROLE_SANDBOX, s.pods, y);
    if !IsSandboxKind(y.kind) && y in a {
      AnomaliesOfKind(s, opt, y);
    }
  }

  lemma CountInFive(l: seq<Finding>, n: seq<Finding>, v: seq<Finding>, p: seq<Finding>, a: seq<Finding>, y: Finding)
    ensures
      multiset(l + n + v + p + a)[y]
      == multiset(l)[y] + multiset(n)[y] + multiset(v)[y] + multiset(p)[y] + multiset(a)[y]
  {
  }

  lemma NotInOthers(s: Snapshot, opt: Options, kind: Kind, role: string, views: seq<View>, y: Finding)
    requires s.now.Some?
    ensures y.kind != kind ==> multiset(Orphans(s, opt, kind, role, views))[y] == 0
  {
    if y in Orphans(s, opt, kind, role, views) {
      OrphansOfKind(s, opt, kind, role, views, y);
    }
  }

  /** Below the cap, every managed object without an owner is reported once, with the action its
      mark calls for; any other object of the four lists is not reported at all. */
  lemma OrphansAreReportedOnce(s: Snapshot, options: Options, kind: Kind, i: nat, action: Action)
    requires BelowCap(s, options) && UniqueNames(s)
    requires !IsSandboxKind(kind) && i < |ViewsOf(s, kind)|
    ensures
      var v := ViewsOf(s, kind)[i];
      multiset(Classified(s, options))[Finding(kind, action, v.namespace, v.name)]
      == if Expected(s, WithDefaults(options), RoleOf(kind), v, action) then 1 else 0
  {
    var opt, v := WithDefaults(options), ViewsOf(s, kind)[i];
    BelowCapIsComplete(s, options);
    CountByKind(s, opt, Finding(kind, action, v.namespace, v.name));
    OrphansOnce(s, opt, kind, RoleOf(kind), ViewsOf(s, kind), i, action);
  }

  /** Below the cap, a sandbox is reported for the first thing that is wrong with it and for nothing
      else. */
  lemma SandboxesAreReportedOnce(s: Snapshot, options: Options, i: nat, kind: Kind, action: Action)
    requires BelowCap(s, options) && UniqueNames(s) && IsSandboxKind(kind) && i < |s.sandboxes|
    ensures
      var x := s.sandboxes[i];
      multiset(Classified(s, options))[Finding(kind, action, x.namespace, x.name)]
      == if Anomaly(ContextOf(s, WithDefaults(options)), x) == Some((kind, action)) then 1 else 0
  {
    var opt, x := WithDefaults(options), s.sandboxes[i];
    BelowCapIsComplete(s, options);
    CountByKind(s, opt, Finding(kind, action, x.namespace, x.name));
    AnomaliesOnce(s, opt, i, kind, action);
  }

  /** Every finding, below the cap or not, is about an object of the snapshot. */
  lemma FindingsAreAboutObjects(s: Snapshot, options: Options, y: Finding)
    requires y in Classified(s, options)
    ensures
      if IsSandboxKind(y.kind) then
        exists x | x in s.sandboxes :: x.namespace == y.namespace && x.name == y.name
      else
        exists v | v in ViewsOf(s, y.kind) ::
          && v.namespace == y.namespace && v.name == y.name && v.role == RoleOf(y.kind)
          && !Owned(OwnersOf(s.sandboxes), v)
  {
    var opt := WithDefaults(options);
    InAllFindings(s, options, y);
    CountByKind(s, opt, y);
    if IsSandboxKind(y.kind) {
      var i := OriginSandbox(s, opt, y);
    } else {
      var i := OriginUnowned(s, opt, y);
    }
  }

  lemma OriginUnowned(s: Snapshot, opt: Options, y: Finding) returns (v: View)
    requires s.now.Some? && !IsSandboxKind(y.kind) && y in Orphans(s, opt, y.kind, RoleOf(y.kind), ViewsOf(s, y.kind))
    ensures v in ViewsOf(s, y.kind) && v.namespace == y.namespace && v.name == y.name
    ensures v.role == RoleOf(y.kind) && !Owned(OwnersOf(s.sandboxes), v)
  {
    var f := v => OrphanFinding(OwnersOf(s.sandboxes), y.kind, RoleOf(y.kind), s.now.value, opt.orphanGrace, v);
    FilterMapOrigin(f, ViewsOf(s, y.kind), y);
    var i :| 0 <= i < |ViewsOf(s, y.kind)| && f(ViewsOf(s, y.kind)[i]) == Some(y);
    v := ViewsOf(s, y.kind)[i];
  }

  lemma InAllFindings(s: Snapshot, options: Options, y: Finding)
    requires y in Classified(s, options)
    ensures s.now.Some? && y in AllFindings(s, WithDefaults(options))
  {
    var opt := WithDefaults(options);
    var cut := Take(AllFindings(s, opt), opt.maxFindings);
    StableSort.SortPermutes((a: Finding, b: Finding) => FindingLe(a, b), cut);
    StableSort.SameElements(SortFindings(cut), cut);
  }

  // ---- The order of the lists ----

  predicate Permuted(s: Snapshot, t: Snapshot) {
    && s.now == t.now && s.nodeReady == t.nodeReady
    && multiset(s.sandboxes) == multiset(t.sandboxes) && multiset(s.pods) == multiset(t.pods)
    && multiset(s.leases) == multiset(t.leases) && multiset(s.netpols) == multiset(t.netpols)
    && multiset(s.volumes) == multiset(t.volumes)
  }

  lemma SameIndex(s: Snapshot, t: Snapshot, opt: Options)
    requires Permuted(s, t) && s.now.Some?
    ensures OwnersOf(s.sandboxes) == OwnersOf(t.sandboxes) && ContextOf(s, opt) == ContextOf(t, opt)
  {
    StableSort.SameElements(s.sandboxes, t.sandboxes);
    StableSort.SameElements(s.pods, t.pods);
    StableSort.SameElements(s.leases, t.leases);
  }

  lemma SameOrphans(s: Snapshot, t: Snapshot, opt: Options, kind: Kind, role: string, a: seq<View>, b: seq<View>)
    requires s.now == t.now && s.now.Some? && OwnersOf(s.sandboxes) == OwnersOf(t.sandboxes)
        && multiset(a) == multiset(b)
    ensures multiset(Orphans(s, opt, kind, role, a)) == multiset(Orphans(t, opt, kind, role, b))
  {
    FilterMapPermutes(v => OrphanFinding(OwnersOf(s.sandboxes), kind, role, s.now.value, opt.orphanGrace, v), a, b);
  }

  lemma SameFindings(s: Snapshot, t: Snapshot, opt: Options)
    requires Permuted(s, t) && s.now.Some?
    ensures multiset(AllFindings(s, opt)) == multiset(AllFindings(t, opt))
    ensures |AllFindings(s, opt)| == |AllFindings(t, opt)|
  {
    SameIndex(s, t, opt);
    SameOrphans(s, t, opt, OrphanLease, ROLE_LEASE, s.leases, t.leases);
    SameOrphans(s, t, opt, OrphanNetworkPolicy, ROLE_NETPOL, s.netpols, t.netpols);
    SameOrphans(s, t, opt, OrphanVolume, ROLE_VOLUME, s.volumes, t.volumes);
    SameOrphans(s, t, opt, OrphanPod, ROLE_SANDBOX, s.pods, t.pods);
    FilterMapPermutes(x => SandboxFinding(ContextOf(s, opt), x), s.sandboxes, t.sandboxes);
    StableSort.SameElements(AllFindings(s, opt), AllFindings(t, opt));
  }

  lemma FindingsDoNotTie(s: Snapshot, opt: Options)
    requires s.now.Some? && UniqueNames(s)
    ensures StableSort.NoTies((a: Finding, b: Finding) => FindingLe(a, b), AllFindings(s, opt))
  {
    var all := AllFindings(s, opt);
    forall a, b | a in all && b in all && FindingLe(a, b) && FindingLe(b, a)
      ensures a == b
    {
      FindingsCompare(a, b);
      KindNamesDiffer(a.kind, b.kind);
      SameObjectSameFinding(s, opt, a, b);
    }
  }

  lemma OriginView(s: Snapshot, opt: Options, kind: Kind, role: string, views: seq<View>, y: Finding) returns (i: nat)
    requires s.now.Some? && y in Orphans(s, opt, kind, role, views)
    ensures i < |views| && views[i].namespace == y.namespace && views[i].name == y.name
    ensures y == Finding(kind, Bounded(views[i].blockedSince, s.now.value, opt.orphanGrace), y.namespace, y.name)
  {
    var f := v => OrphanFinding(OwnersOf(s.sandboxes), kind, role, s.now.value, opt.orphanGrace, v);
    FilterMapOrigin(f, views, y);
    i :| 0 <= i < |views| && f(views[i]) == Some(y);
  }

  lemma OriginSandbox(s: Snapshot, opt: Options, y: Finding) returns (i: nat)
    requires s.now.Some? && y in Anomalies(s, opt)
    ensures i < |s.sandboxes| && s.sandboxes[i].namespace == y.namespace && s.sandboxes[i].name == y.name
    ensures Anomaly(ContextOf(s, opt), s.sandboxes[i]) == Some((y.kind, y.action))
  {
    var f := x => SandboxFinding(ContextOf(s, opt), x);
    FilterMapOrigin(f, s.sandboxes, y);
    i :| 0 <= i < |s.sandboxes| && f(s.sandboxes[i]) == Some(y);
  }

  lemma SameObjectSameFinding(s: Snapshot, opt: Options, a: Finding, b: Finding)
    requires s.now.Some? && UniqueNames(s) && a in AllFindings(s, opt) && b in AllFindings(s, opt)
    requires a.kind == b.kind && a.namespace == b.namespace && a.name == b.name
    ensures a == b
  {
    CountByKind(s, opt, a);
    CountByKind(s, opt, b);
    if IsSandboxKind(a.kind) {
      var i := OriginSandbox(s, opt, a);
      var j := OriginSandbox(s, opt, b);
      SameSandbox(s.sandboxes, i, j);
    } else {
      var i := OriginView(s, opt, a.kind, RoleOf(a.kind), ViewsOf(s, a.kind), a);
      var j := OriginView(s, opt, a.kind, RoleOf(a.kind), ViewsOf(s, a.kind), b);
      SameView(ViewsOf(s, a.kind), i, j);
    }
  }

  lemma SameSandbox(sandboxes: seq<SandboxView>, i: nat, j: nat)
    requires UniqueSandboxes(sandboxes) && i < |sandboxes| && j < |sandboxes|
    requires sandboxes[i].namespace == sandboxes[j].namespace && sandboxes[i].name == sandboxes[j].name
    ensures i == j
  {
  }

  lemma SameView(views: seq<View>, i: nat, j: nat)
    requires UniqueViews(views) && i < |views| && j < |views|
    requires views[i].namespace == views[j].namespace && views[i].name == views[j].name
    ensures i == j
  {
  }

  /** Below the cap, with names unique in each list, the result depends only on what is in the
      lists, not on the order in which the API server returned them. */
  lemma ListOrderDoesNotMatter(s: Snapshot, t: Snapshot, options: Options)
    requires BelowCap(s, options) && UniqueNames(s) && Permuted(s, t)
    ensures Classified(s, options) == Classified(t, options)
  {
    var opt := WithDefaults(options);
    SameFindings(s, t, opt);
    BelowCapIsComplete(s, options);
    BelowCapIsComplete(t, options);
    FindingsOrder();
    FindingsDoNotTie(s, opt);
    StableSort.SortIgnoresOrder((a: Finding, b: Finding) => FindingLe(a, b), AllFindings(s, opt), AllFindings(t, opt));
  }

  // ---- Where the order is lost ----

  function Stray(name: string, role: string): View {
    View("pool", name, "", role, "", None)
  }

  /** One stray volume and two stray Pods, with a cap of two findings. */
  function CutSnapshot(): Snapshot {
    Snapshot(Some(0), [], [Stray("p1", ROLE_SANDBOX), Stray("p2", ROLE_SANDBOX)], [], [],
             [Stray("v", ROLE_VOLUME)], map[])
  }

  lemma FilterMapTwo<A, B>(f: A -> Option<B>, x: A, y: A)
    requires f(x).Some? && f(y).Some?
    ensures FilterMap(f, [x, y]) == [f(x).value, f(y).value]
  {
    assert [x, y] == [x] + [y];
    FilterMapConcat(f, [x], [y]);
    FilterMapOne(f, x);
    FilterMapOne(f, y);
  }

  lemma StrayFinding(kind: Kind, role: string, name: string)
    ensures
      OrphanFinding(OwnersOf([]), kind, role, 0, 300, Stray(name, role)) == Some(Finding(kind, Block, "pool", name))
  {
  }

  lemma CutLeftovers(opt: Options)
    requires opt.orphanGrace == 300
    ensures Leftovers(CutSnapshot(), opt) == [Finding(OrphanVolume, Block, "pool", "v")]
  {
    StrayFinding(OrphanVolume, ROLE_VOLUME, "v");
    FilterMapOne(v => OrphanFinding(OwnersOf([]), OrphanVolume, ROLE_VOLUME, 0, 300, v), Stray("v", ROLE_VOLUME));
  }

  lemma CutPods(opt: Options)
    requires opt.orphanGrace == 300
    ensures
      PodOrphans(CutSnapshot(), opt)
          == [Finding(OrphanPod, Block, "pool", "p1"), Finding(OrphanPod, Block, "pool", "p2")]
  {
    StrayFinding(OrphanPod, ROLE_SANDBOX, "p1");
    StrayFinding(OrphanPod, ROLE_SANDBOX, "p2");
    FilterMapTwo(v => OrphanFinding(OwnersOf([]), OrphanPod, ROLE_SANDBOX, 0, 300, v),
                 Stray("p1", ROLE_SANDBOX), Stray("p2", ROLE_SANDBOX));
  }

  /** The list that is cut off while Pods are looked at is handed out as it was collected. */
  lemma CutAmongPodsIsUnsorted(options: Options)
    requires options == Options(300, 600, 1800, 2)
    ensures !SortedFindings(Classified(CutSnapshot(), options))
  {
    var opt := WithDefaults(options);
    CutLeftovers(opt);
    CutPods(opt);
    var r := Classified(CutSnapshot(), options);
    assert |r| == 2 && r[0].kind.OrphanVolume? && r[1].kind.OrphanPod?;
    VolumeAfterPod(r[0], r[1]);
  }

  lemma VolumeAfterPod(volume: Finding, pod: Finding)
    requires volume.kind.OrphanVolume? && pod.kind.OrphanPod?
    ensures !FindingLe(volume, pod)
  {
    var prefix := "orphan_";
    assert KindName(OrphanVolume) == prefix + "volume" && KindName(OrphanPod) == prefix + "pod";
    StringLePrefix(prefix, "volume", "pod");
  }

  lemma {:induction false} StringLePrefix(prefix: string, a: string, b: string)
    ensures StringLe(prefix + a, prefix + b) == StringLe(a, b)
  {
    if prefix == [] {
      assert prefix + a == a && prefix + b == b;
    } else {
      StringLePrefix(prefix[1..], a, b);
      assert (prefix + a)[1..] == prefix[1..] + a && (prefix + b)[1..] == prefix[1..] + b;
    }
  }

  // ---- Exactly when the result is sorted ----

  /** The cap is hit while Pods are looked at. */
  predicate CutAmongPods(s: Snapshot, opt: Options)
    requires s.now.Some?
  {
    PodOrphans(s, opt) != [] && |Leftovers(s, opt) + PodOrphans(s, opt)| > opt.maxFindings
  }

  predicate NameLe(a: Finding, b: Finding) {
    if a.namespace != b.namespace then StringLe(a.namespace, b.namespace) else StringLe(a.name, b.name)
  }

  predicate NamesInOrder(f: seq<Finding>) {
    forall i, j | 0 <= i < j < |f| :: NameLe(f[i], f[j])
  }

  function RoomAfter(n: nat, max: nat): nat {
    if n >= max then 0 else max - n
  }

  /** Up to the cap no volume is followed by a Pod, and the findings about each kind of object come by
      namespace and name. */
  predicate FourInOrder(l: seq<Finding>, n: seq<Finding>, v: seq<Finding>, p: seq<Finding>, max: nat) {
    && (v == [] || |l| + |n| + |v| >= max)
    && NamesInOrder(Take(l, max)) && NamesInOrder(Take(n, RoomAfter(|l|, max)))
    && NamesInOrder(Take(v, RoomAfter(|l| + |n|, max))) && NamesInOrder(Take(p, RoomAfter(|l| + |n| + |v|, max)))
  }

  /** The objects found are in order as the lists give them. */
  predicate InOrderAsTheyCome(s: Snapshot, opt: Options)
    requires s.now.Some? && opt.maxFindings >= 0
  {
    FourInOrder(Orphans(s, opt, OrphanLease, ROLE_LEASE, s.leases),
                Orphans(s, opt, OrphanNetworkPolicy, ROLE_NETPOL, s.netpols),
                Orphans(s, opt, OrphanVolume, ROLE_VOLUME, s.volumes), PodOrphans(s, opt), opt.maxFindings)
  }

  lemma TakeConcat(a: seq<Finding>, b: seq<Finding>, m: nat)
    ensures Take(a + b, m) == Take(a, m) + Take(b, RoomAfter(|a|, m))
  {
  }

  predicate AllOf(f: seq<Finding>, kind: Kind) {
    forall i | 0 <= i < |f| :: f[i].kind == kind
  }

  lemma OrphansAreOf(s: Snapshot, opt: Options, kind: Kind, role: string, views: seq<View>)
    requires s.now.Some?
    ensures AllOf(Orphans(s, opt, kind, role, views), kind)
  {
    var f := Orphans(s, opt, kind, role, views);
    forall i | 0 <= i < |f|
      ensures f[i].kind == kind
    {
      OrphansOfKind(s, opt, kind, role, views, f[i]);
    }
  }

  lemma TakenAreOf(f: seq<Finding>, kind: Kind, n: nat)
    requires AllOf(f, kind)
    ensures AllOf(Take(f, n), kind)
  {
  }

  /** Leases before network policies before Pods before volumes. */
  function Rank(k: Kind): nat {
    match k
    case OrphanLease => 0
    case OrphanNetworkPolicy => 1
    case OrphanPod => 2
    case _ => 3
  }

  function Suffix(k: Kind): string {
    match k
    case OrphanLease => "lease"
    case OrphanNetworkPolicy => "netpol"
    case OrphanPod => "pod"
    case _ => "volume"
  }

  predicate IsOrphanKind(k: Kind) {
    k.OrphanLease? || k.OrphanNetworkPolicy? || k.OrphanPod? || k.OrphanVolume?
  }

  lemma OrphanName(k: Kind)
    requires IsOrphanKind(k)
    ensures KindName(k) == "orphan_" + Suffix(k)
  {
  }

  lemma KindsInOrder(a: Kind, b: Kind)
    requires IsOrphanKind(a) && IsOrphanKind(b) && a != b
    ensures KindName(a) != KindName(b)
    ensures StringLe(KindName(a), KindName(b)) <==> Rank(a) < Rank(b)
  {
    OrphanName(a);
    OrphanName(b);
    StringLePrefix("orphan_", Suffix(a), Suffix(b));
    SuffixesInOrder(a, b);
    if KindName(a) == KindName(b) {
      KindNamesDiffer(a, b);
    }
  }

  lemma SuffixesInOrder(a: Kind, b: Kind)
    requires IsOrphanKind(a) && IsOrphanKind(b) && a != b
    ensures StringLe(Suffix(a), Suffix(b)) <==> Rank(a) < Rank(b)
  {
    assert Suffix(a)[0] != Suffix(b)[0];
  }

  lemma OneKind(f: seq<Finding>, kind: Kind)
    requires AllOf(f, kind)
    ensures SortedFindings(f) <==> NamesInOrder(f)
  {
  }

  predicate AllBefore(f: seq<Finding>, g: seq<Finding>) {
    forall i, j | 0 <= i < |f| && 0 <= j < |g| :: FindingLe(f[i], g[j])
  }

  lemma SortedConcat(f: seq<Finding>, g: seq<Finding>)
    requires AllBefore(f, g)
    ensures SortedFindings(f + g) <==> SortedFindings(f) && SortedFindings(g)
  {
    var all := f + g;
    if SortedFindings(all) {
      forall i, j | 0 <= i < j < |g|
        ensures FindingLe(g[i], g[j])
      {
        assert all[|f| + i] == g[i] && all[|f| + j] == g[j];
      }
      assert forall i | 0 <= i < |f| :: all[i] == f[i];
    }
  }

  lemma KindsBefore(f: seq<Finding>, a: Kind, g: seq<Finding>, b: Kind)
    requires AllOf(f, a) && AllOf(g, b) && IsOrphanKind(a) && IsOrphanKind(b) && Rank(a) < Rank(b)
    ensures AllBefore(f, g)
  {
    KindsInOrder(a, b);
  }

  lemma BothBefore(f: seq<Finding>, g: seq<Finding>, h: seq<Finding>)
    requires AllBefore(f, h) && AllBefore(g, h)
    ensures AllBefore(f + g, h)
  {
  }

  lemma ThreeKinds(l: seq<Finding>, n: seq<Finding>, x: seq<Finding>, kind: Kind)
    requires AllOf(l, OrphanLease) && AllOf(n, OrphanNetworkPolicy) && AllOf(x, kind)
    requires kind.OrphanPod? || kind.OrphanVolume?
    ensures SortedFindings(l + n + x) <==> NamesInOrder(l) && NamesInOrder(n) && NamesInOrder(x)
  {
    KindsBefore(l, OrphanLease, n, OrphanNetworkPolicy);
    KindsBefore(l, OrphanLease, x, kind);
    KindsBefore(n, OrphanNetworkPolicy, x, kind);
    BothBefore(l, n, x);
    SortedConcat(l, n);
    SortedConcat(l + n, x);
    OneKind(l, OrphanLease);
    OneKind(n, OrphanNetworkPolicy);
    OneKind(x, kind);
  }

  lemma NotSorted(f: seq<Finding>, i: nat, j: nat)
    requires i < j < |f| && !FindingLe(f[i], f[j])
    ensures !SortedFindings(f)
  {
  }

  lemma FourKinds(l: seq<Finding>, n: seq<Finding>, v: seq<Finding>, p: seq<Finding>)
    requires AllOf(l, OrphanLease) && AllOf(n, OrphanNetworkPolicy) && AllOf(v, OrphanVolume) && AllOf(p, OrphanPod)
    ensures
      SortedFindings(l + n + v + p)
      <==> (v == [] || p == []) && NamesInOrder(l) && NamesInOrder(n) && NamesInOrder(v) && NamesInOrder(p)
  {
    if v == [] {
      assert l + n + v + p == l + n + p;
      ThreeKinds(l, n, p, OrphanPod);
    } else if p == [] {
      assert l + n + v + p == l + n + v;
      ThreeKinds(l, n, v, OrphanVolume);
    } else {
      VolumeAfterPod(v[0], p[0]);
      var i, j := |l| + |n|, |l| + |n| + |v|;
      assert (l + n + v + p)[i] == v[0] && (l + n + v + p)[j] == p[0];
      NotSorted(l + n + v + p, i, j);
    }
  }

  lemma CutInFour(l: seq<Finding>, n: seq<Finding>, v: seq<Finding>, p: seq<Finding>, max: nat)
    ensures
      Take(l + n + v + p, max)
      == Take(l, max) + Take(n, RoomAfter(|l|, max)) + Take(v, RoomAfter(|l| + |n|, max))
         + Take(p, RoomAfter(|l| + |n| + |v|, max))
  {
    TakeConcat(l, n, max);
    TakeConcat(l + n, v, max);
    TakeConcat(l + n + v, p, max);
  }

  lemma CutSortedIff(l: seq<Finding>, n: seq<Finding>, v: seq<Finding>, p: seq<Finding>, max: nat)
    requires AllOf(l, OrphanLease) && AllOf(n, OrphanNetworkPolicy) && AllOf(v, OrphanVolume) && AllOf(p, OrphanPod)
    requires p != [] && |l| + |n| + |v| + |p| > max
    ensures SortedFindings(Take(l + n + v + p, max)) <==> FourInOrder(l, n, v, p, max)
  {
    CutInFour(l, n, v, p, max);
    TakenAreOf(l, OrphanLease, max);
    TakenAreOf(n, OrphanNetworkPolicy, RoomAfter(|l|, max));
    TakenAreOf(v, OrphanVolume, RoomAfter(|l| + |n|, max));
    TakenAreOf(p, OrphanPod, RoomAfter(|l| + |n| + |v|, max));
    FourKinds(Take(l, max), Take(n, RoomAfter(|l|, max)), Take(v, RoomAfter(|l| + |n|, max)),
              Take(p, RoomAfter(|l| + |n| + |v|, max)));
  }

  lemma CutResultSortedIff(s: Snapshot, opt: Options)
    requires s.now.Some? && opt.maxFindings > 0 && CutAmongPods(s, opt)
    ensures
      SortedFindings(Take(Leftovers(s, opt) + PodOrphans(s, opt), opt.maxFindings)) <==> InOrderAsTheyCome(s, opt)
  {
    OrphansAreOf(s, opt, OrphanLease, ROLE_LEASE, s.leases);
    OrphansAreOf(s, opt, OrphanNetworkPolicy, ROLE_NETPOL, s.netpols);
    OrphansAreOf(s, opt, OrphanVolume, ROLE_VOLUME, s.volumes);
    OrphansAreOf(s, opt, OrphanPod, ROLE_SANDBOX, s.pods);
    CutSortedIff(Orphans(s, opt, OrphanLease, ROLE_LEASE, s.leases),
                 Orphans(s, opt, OrphanNetworkPolicy, ROLE_NETPOL, s.netpols),
                 Orphans(s, opt, OrphanVolume, ROLE_VOLUME, s.volumes), PodOrphans(s, opt), opt.maxFindings);
  }

  /** The result is sorted if and only if the cap was not hit while Pods were looked at, or the objects
      found up to it happen to be in order as the lists give them. */
  lemma SortedIff(s: Snapshot, options: Options)
    ensures
      SortedFindings(Classified(s, options)) <==>
      s.now.None? || !CutAmongPods(s, WithDefaults(options)) || InOrderAsTheyCome(s, WithDefaults(options))
  {
    var opt := WithDefaults(options);
    if s.now.Some? {
      if CutAmongPods(s, opt) {
        CutResultSortedIff(s, opt);
      } else {
        FindingsOrder();
        StableSort.SortSorts((a: Finding, b: Finding) => FindingLe(a, b), Take(AllFindings(s, opt), opt.maxFindings));
      }
    }
  }
}
