/** internal/sweeper/classify.go: what a snapshot of the cluster says is leaked or stuck.
    A zero time is None. */
module Classify {
  import opened Api
  import opened Lists
  import StableSort

  datatype Kind =
    | OrphanPod
    | OrphanLease
    | OrphanNetworkPolicy
    | OrphanVolume
    | StuckTerminating
    | StuckPending
    | StockWithoutPod
    | NodeLost
    | ClaimWithoutLease

  /** The string a Kind is, which is what findings are ordered by. */
  function KindName(k: Kind): string {
    match k
    case OrphanPod => "orphan_pod"
    case OrphanLease => "orphan_lease"
    case OrphanNetworkPolicy => "orphan_netpol"
    case OrphanVolume => "orphan_volume"
    case StuckTerminating => "stuck_terminating"
    case StuckPending => "stuck_pending"
    case StockWithoutPod => "stock_without_pod"
    case NodeLost => "node_lost"
    case ClaimWithoutLease => "claim_without_lease"
  }

  datatype Action = Block | DeleteObject | ForceFinalize | MarkFailed

  datatype Finding = Finding(kind: Kind, action: Action, namespace: string, name: string)

  datatype SandboxView = SandboxView(
    namespace: string,
    name: string,
    uid: string,
    phase: Phase,
    deleting: bool,
    deletingSince: Option<int>,
    createdAt: Option<int>,
    hasClaim: bool,
    nodeName: string)

  /** A Pod, Lease, NetworkPolicy or volume. */
  datatype View = View(
    namespace: string,
    name: string,
    ownerUid: string,
    role: string,
    sandboxLabel: string,
    blockedSince: Option<int>)

  datatype Snapshot = Snapshot(
    now: Option<int>,
    sandboxes: seq<SandboxView>,
    pods: seq<View>,
    leases: seq<View>,
    netpols: seq<View>,
    volumes: seq<View>,
    nodeReady: map<string, bool>)

  datatype Options = Options(orphanGrace: int, stuckTerminatingGrace: int, pendingGrace: int, maxFindings: int)

  const ROLE_SANDBOX := "sandbox"
  const ROLE_NETPOL := "sandbox-netpol"
  const ROLE_VOLUME := "sandbox-volume"
  const ROLE_LEASE := "lease"

  function PositiveOr(v: int, default: int): int {
    if v <= 0 then default else v
  }

  function WithDefaults(o: Options): (r: Options)
    ensures r.orphanGrace > 0 && r.stuckTerminatingGrace > 0 && r.pendingGrace > 0 && r.maxFindings > 0
  {
    Options(PositiveOr(o.orphanGrace, 300), PositiveOr(o.stuckTerminatingGrace, 600),
            PositiveOr(o.pendingGrace, 1800), PositiveOr(o.maxFindings, 200))
  }

  function Key(namespace: string, name: string): string {
    namespace + "/" + name
  }

  // ---- Ownership ----

  /** ownerLookup: which UIDs and which keys belong to a live sandbox. */
  datatype Owners = Owners(uids: set<string>, keys: set<string>)

  function OwnersOf(sandboxes: seq<SandboxView>): Owners {
    Owners(set s | s in sandboxes && s.uid != "" :: s.uid, set s | s in sandboxes :: Key(s.namespace, s.name))
  }

  /** Either kind of evidence is enough. */
  predicate Owned(l: Owners, v: View) {
    || (v.ownerUid != "" && v.ownerUid in l.uids)
    || (v.sandboxLabel != "" && Key(v.namespace, v.sandboxLabel) in l.keys)
  }

  method NewOwnerLookup(sandboxes: seq<SandboxView>) returns (l: Owners)
    ensures l == OwnersOf(sandboxes)
  {
    var uids, keys := {}, {};
    for i := 0 to |sandboxes|
      invariant uids == OwnersOf(sandboxes[..i]).uids && keys == OwnersOf(sandboxes[..i]).keys
    {
      var s := sandboxes[i];
      if s.uid != "" {
        uids := uids + {s.uid};
      }
      keys := keys + {Key(s.namespace, s.name)};
      assert sandboxes[..i + 1] == sandboxes[..i] + [s];
    }
    assert sandboxes[..|sandboxes|] == sandboxes;
    l := Owners(uids, keys);
  }

  // ---- Findings about one object ----

  /** bounded: first a mark, and a deletion only when the mark is old enough. */
  function Bounded(blockedSince: Option<int>, now: int, grace: int): Action {
    if blockedSince.None? || now - blockedSince.value < grace then Block else DeleteObject
  }

  function OrphanFinding(l: Owners, kind: Kind, role: string, now: int, grace: int, v: View): Option<Finding> {
    if v.role != role || Owned(l, v) then None
    else Some(Finding(kind, Bounded(v.blockedSince, now, grace), v.namespace, v.name))
  }

  /** What the findings about sandboxes depend on besides the sandbox. */
  datatype Context = Context(now: int, opt: Options, withLease: set<string>, withPod: set<string>,
      nodeReady: map<string, bool>)

  predicate IsStuckTerminating(c: Context, s: SandboxView) {
    s.deleting && s.deletingSince.Some? && c.now - s.deletingSince.value > c.opt.stuckTerminatingGrace
  }

  predicate IsStuckPending(c: Context, s: SandboxView) {
    && (s.phase.Pending? || s.phase.Provisioning? || s.phase.NoPhase?)
    && !s.deleting && s.createdAt.Some? && c.now - s.createdAt.value > c.opt.pendingGrace
  }

  predicate OnLostNode(c: Context, s: SandboxView) {
    s.nodeName != "" && (s.nodeName !in c.nodeReady || !c.nodeReady[s.nodeName])
  }

  /** The first thing that is wrong with a sandbox, in the order the checks are made. */
  function Anomaly(c: Context, s: SandboxView): Option<(Kind, Action)> {
    if IsStuckTerminating(c, s) then Some((StuckTerminating, ForceFinalize))
    else if IsStuckPending(c, s) then Some((StuckPending, MarkFailed))
    else if s.deleting then None
    else if s.phase.Ready? then
      if Key(s.namespace, s.name) in c.withPod then None else Some((StockWithoutPod, MarkFailed))
    else if OnLostNode(c, s) then Some((NodeLost, MarkFailed))
    else if s.hasClaim && Key(s.namespace, s.name) !in c.withLease then Some((ClaimWithoutLease, Block))
    else None
  }

  function SandboxFinding(c: Context, s: SandboxView): Option<Finding> {
    match Anomaly(c, s)
    case None => None
    case Some((kind, action)) => Some(Finding(kind, action, s.namespace, s.name))
  }

  function Labelled(views: seq<View>): set<string> {
    set v | v in views && v.sandboxLabel != "" :: Key(v.namespace, v.sandboxLabel)
  }

  // ---- All findings, before the cap ----

  function Orphans(s: Snapshot, opt: Options, kind: Kind, role: string, views: seq<View>): seq<Finding>
    requires s.now.Some?
  {
    FilterMap(v => OrphanFinding(OwnersOf(s.sandboxes), kind, role, s.now.value, opt.orphanGrace, v), views)
  }

  function ContextOf(s: Snapshot, opt: Options): Context
    requires s.now.Some?
  {
    Context(s.now.value, opt, Labelled(s.leases), Labelled(s.pods), s.nodeReady)
  }

  function Leftovers(s: Snapshot, opt: Options): seq<Finding>
    requires s.now.Some?
  {
    Orphans(s, opt, OrphanLease, ROLE_LEASE, s.leases)
    + Orphans(s, opt, OrphanNetworkPolicy, ROLE_NETPOL, s.netpols)
    + Orphans(s, opt, OrphanVolume, ROLE_VOLUME, s.volumes)
  }

  function PodOrphans(s: Snapshot, opt: Options): seq<Finding>
    requires s.now.Some?
  {
    Orphans(s, opt, OrphanPod, ROLE_SANDBOX, s.pods)
  }

  function Anomalies(s: Snapshot, opt: Options): seq<Finding>
    requires s.now.Some?
  {
    FilterMap(x => SandboxFinding(ContextOf(s, opt), x), s.sandboxes)
  }

  function AllFindings(s: Snapshot, opt: Options): seq<Finding>
    requires s.now.Some?
  {
    Leftovers(s, opt) + PodOrphans(s, opt) + Anomalies(s, opt)
  }

  // ---- The order ----

  /** Go's < on strings, or equal. */
  predicate StringLe(a: string, b: string) {
    if a == [] then true
    else if b == [] then false
    else a[0] < b[0] || (a[0] == b[0] && StringLe(a[1..], b[1..]))
  }

  predicate FindingLe(a: Finding, b: Finding) {
    if KindName(a.kind) != KindName(b.kind) then StringLe(KindName(a.kind), KindName(b.kind))
    else if a.namespace != b.namespace then StringLe(a.namespace, b.namespace)
    else StringLe(a.name, b.name)
  }

  function SortFindings(f: seq<Finding>): seq<Finding> {
    StableSort.Sort((a: Finding, b: Finding) => FindingLe(a, b), f)
  }

  function Take(f: seq<Finding>, n: nat): seq<Finding> {
    if |f| <= n then f else f[..n]
  }

  /** The result of Classify: the first findings up to the cap, sorted, unless the cap was hit
      while Pods were looked at. */
  function Classified(s: Snapshot, options: Options): seq<Finding> {
    var opt := WithDefaults(options);
    if s.now.None? then []
    else
      var upToPods := Leftovers(s, opt) + PodOrphans(s, opt);
      if PodOrphans(s, opt) != [] && |upToPods| > opt.maxFindings then Take(upToPods, opt.maxFindings)
      else SortFindings(Take(AllFindings(s, opt), opt.maxFindings))
  }

  // ---- The loops ----

  /** The list before the cap, with what one loop has found so far. */
  function Collected(before: seq<Finding>, found: seq<Finding>, max: nat): seq<Finding> {
    Take(before + found, max)
  }

  lemma CollectOne(before: seq<Finding>, found: seq<Finding>, f: Finding, max: nat)
    ensures |Collected(before, found, max)| >= max <==> |before + found| >= max
    ensures
      Collected(before, found + [f], max)
      == if |before + found| >= max then Collected(before, found, max) else Collected(before, found, max) + [f]
  {
    assert before + (found + [f]) == (before + found) + [f];
  }

  lemma CollectRest(before: seq<Finding>, found: seq<Finding>, rest: seq<Finding>, max: nat)
    requires |before + found| >= max
    ensures Collected(before, found + rest, max) == Collected(before, found, max)
  {
    assert before + (found + rest) == (before + found) + rest;
  }

  lemma FilterMapSplit<A>(f: A -> Option<Finding>, s: seq<A>, i: nat)
    requires i <= |s|
    ensures FilterMap(f, s) == FilterMap(f, s[..i]) + FilterMap(f, s[i..])
  {
    FilterMapConcat(f, s[..i], s[i..]);
    assert s == s[..i] + s[i..];
  }

  /** The cap is hit at element i, so nothing that comes later is collected. */
  lemma CapHit<A>(f: A -> Option<Finding>, s: seq<A>, i: nat, before: seq<Finding>, max: nat)
    requires i < |s| && f(s[i]).Some? && |before + FilterMap(f, s[..i])| >= max
    ensures Collected(before, FilterMap(f, s), max) == Collected(before, FilterMap(f, s[..i]), max)
    ensures FilterMap(f, s) != [] && |before + FilterMap(f, s)| > max
  {
    FilterMapSplit(f, s, i);
    CollectRest(before, FilterMap(f, s[..i]), FilterMap(f, s[i..]), max);
    FilterMapOrigin(f, s[i..], f(s[i]).value);
    assert f(s[i..][0]) == f(s[i]);
    assert |FilterMap(f, s[i..])| > 0;
  }

  lemma CollectNext<A>(f: A -> Option<Finding>, s: seq<A>, i: nat, before: seq<Finding>, max: nat)
    requires i < |s|
    ensures
      var soFar := Collected(before, FilterMap(f, s[..i]), max);
      Collected(before, FilterMap(f, s[..i + 1]), max)
      == if f(s[i]).None? || |before + FilterMap(f, s[..i])| >= max then soFar else soFar + [f(s[i]).value]
    ensures |Collected(before, FilterMap(f, s[..i]), max)| >= max <==> |before + FilterMap(f, s[..i])| >= max
    ensures f(s[i]).None? ==> FilterMap(f, s[..i + 1]) == FilterMap(f, s[..i])
    ensures |before + FilterMap(f, s[..i + 1])| <= |before + FilterMap(f, s[..i])| + 1
  {
    FilterMapPrefix(f, s, i);
    if f(s[i]).Some? {
      CollectOne(before, FilterMap(f, s[..i]), f(s[i]).value, max);
    } else {
      CollectOne(before, FilterMap(f, s[..i]), Finding(OrphanPod, Block, "", ""), max);
    }
  }

  /** checkOrphans, and the loop over Pods: collects until the cap is hit. */
  method CheckOrphans(out: seq<Finding>, ghost before: seq<Finding>, l: Owners, kind: Kind, role: string,
                      now: int, grace: int, views: seq<View>, max: nat)
    returns (more: seq<Finding>, full: bool)
    requires out == Take(before, max)
    ensures
      var found := FilterMap(v => OrphanFinding(l, kind, role, now, grace, v), views);
      more == Collected(before, found, max) && (full <==> found != [] && |before + found| > max)
  {
    ghost var f := v => OrphanFinding(l, kind, role, now, grace, v);
    more := out;
    assert before + FilterMap(f, views[..0]) == before;
    for i := 0 to |views|
      invariant more == Collected(before, FilterMap(f, views[..i]), max)
      invariant FilterMap(f, views[..i]) != [] ==> |before + FilterMap(f, views[..i])| <= max
    {
      CollectNext(f, views, i, before, max);
      var v := views[i];
      if v.role == role && !Owned(l, v) {
        if |more| >= max {
          CapHit(f, views, i, before, max);
          return more, true;
        }
        more := more + [Finding(kind, Bounded(v.blockedSince, now, grace), v.namespace, v.name)];
      }
    }
    assert views[..|views|] == views;
    full := false;
  }

  method LabelledLoop(views: seq<View>) returns (keys: set<string>)
    ensures keys == Labelled(views)
  {
    keys := {};
    for i := 0 to |views|
      invariant keys == Labelled(views[..i])
    {
      assert views[..i + 1] == views[..i] + [views[i]];
      if views[i].sandboxLabel != "" {
        keys := keys + {Key(views[i].namespace, views[i].sandboxLabel)};
      }
    }
    assert views[..|views|] == views;
  }

  method CheckSandboxes(out: seq<Finding>, ghost before: seq<Finding>, c: Context, sandboxes: seq<SandboxView>,
      max: nat)
    returns (more: seq<Finding>)
    requires out == Take(before, max)
    ensures more == Collected(before, FilterMap(x => SandboxFinding(c, x), sandboxes), max)
  {
    ghost var f := x => SandboxFinding(c, x);
    more := out;
    assert before + FilterMap(f, sandboxes[..0]) == before;
    for i := 0 to |sandboxes|
      invariant more == Collected(before, FilterMap(f, sandboxes[..i]), max)
    {
      CollectNext(f, sandboxes, i, before, max);
      var found := SandboxFinding(c, sandboxes[i]);
      if found.Some? {
        if |more| >= max {
          CapHit(f, sandboxes, i, before, max);
          return;
        }
        more := more + [found.value];
      }
    }
    assert sandboxes[..|sandboxes|] == sandboxes;
  }

  method ClassifySnapshot(s: Snapshot, options: Options) returns (out: seq<Finding>)
    ensures out == Classified(s, options)
  {
    var opt := WithDefaults(options);
    if s.now.None? {
      return [];
    }
    var now, max := s.now.value, opt.maxFindings;
    var owners := NewOwnerLookup(s.sandboxes);
    var full: bool;
    out, full := CheckOrphans([], [], owners, OrphanLease, ROLE_LEASE, now, opt.orphanGrace, s.leases, max);
    ghost var found := Orphans(s, opt, OrphanLease, ROLE_LEASE, s.leases);
    assert [] + found == found;
    out, full := CheckOrphans(out, found, owners, OrphanNetworkPolicy, ROLE_NETPOL, now, opt.orphanGrace,
        s.netpols, max);
    found := found + Orphans(s, opt, OrphanNetworkPolicy, ROLE_NETPOL, s.netpols);
    out, full := CheckOrphans(out, found, owners, OrphanVolume, ROLE_VOLUME, now, opt.orphanGrace, s.volumes, max);
    found := Leftovers(s, opt);
    out, full := CheckOrphans(out, found, owners, OrphanPod, ROLE_SANDBOX, now, opt.orphanGrace, s.pods, max);
    if full {
      return;
    }
    var withLease := LabelledLoop(s.leases);
    var withPod := LabelledLoop(s.pods);
    out := CheckSandboxes(out, found + PodOrphans(s, opt), Context(now, opt, withLease, withPod, s.nodeReady),
        s.sandboxes, max);
    out := SortFindings(out);
  }
}
