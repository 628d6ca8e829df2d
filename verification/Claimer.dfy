/** internal/claim/claim.go: binding one piece of stock exclusively to one session. */
module Claimer {
  import opened Api
  import opened Protocol
  import opened Safety
  import opened Freeze
  import opened Cluster
  import StableSort

  const DEFAULT_MAX_ATTEMPTS := 16
  const ROLE_SANDBOX := "sandbox"

  datatype Request = Request(
    pool: string,
    tenant: string,
    sessionId: string,
    principal: string,
    requestId: string,
    priorityClass: string,
    hardDeadline: Option<int>)

  datatype Error =
    | NoError
    | Invalid
    | PoolExhausted // every candidate turned out to be unavailable
    | Contended // the budget ran out first: there may be stock left
    | Vanished // a candidate was deleted under the patch: neither a conflict nor a success

  datatype Result = Result(sandbox: Option<Cached>, attempts: nat, conflicts: nat, idempotent: bool, err: Error)

  // ---- The request ----

  predicate IsAlphaNumeric(c: char) {
    'a' <= c <= 'z' || 'A' <= c <= 'Z' || '0' <= c <= '9'
  }

  /** A label value: at most 63 characters, letters and digits at both ends, `-_.` allowed inside. */
  predicate IsLabelValue(s: string) {
    && |s| <= 63
    && (s != "" ==> IsAlphaNumeric(s[0]) && IsAlphaNumeric(s[|s| - 1]))
    && forall i | 0 <= i < |s| :: IsAlphaNumeric(s[i]) || s[i] == '-' || s[i] == '_' || s[i] == '.'
  }

  predicate IsValid(req: Request) {
    req.pool != "" && req.tenant != "" && (req.requestId != "" ==> IsLabelValue(req.requestId))
  }

  function ClaimFor(req: Request): Claim {
    Claim(req.tenant, req.sessionId, req.principal, req.requestId, req.priorityClass, req.hardDeadline)
  }

  function Limit(maxAttempts: int): nat {
    if maxAttempts > 0 then maxAttempts else DEFAULT_MAX_ATTEMPTS
  }

  // ---- Candidates ----

  predicate Selected(s: Sandbox, req: Request) {
    s.labels.pool == req.pool && Listed(s) && s.labels.role == ROLE_SANDBOX
  }

  function Select(copies: seq<Cached>, req: Request): seq<Cached> {
    if copies == [] then []
    else (if Selected(copies[0].content, req) then [copies[0]] else []) + Select(copies[1..], req)
  }

  predicate IsSameTenant(s: Sandbox, tenant: string) {
    tenant != "" && s.labels.tenant == tenant
  }

  /** Same tenant first, then oldest first. */
  predicate NotAfter(tenant: string, a: Cached, b: Cached) {
    var sa, sb := IsSameTenant(a.content, tenant), IsSameTenant(b.content, tenant);
    if sa != sb then sa else a.content.createdAt <= b.content.createdAt
  }

  function Candidates(copies: seq<Cached>, req: Request): seq<Cached> {
    StableSort.Sort((a: Cached, b: Cached) => NotAfter(req.tenant, a, b), Select(copies, req))
  }

  lemma {:induction false} SelectSelects(copies: seq<Cached>, req: Request)
    ensures forall c | c in Select(copies, req) :: c in copies && Selected(c.content, req)
  {
    if copies != [] {
      SelectSelects(copies[1..], req);
    }
  }

  lemma CandidatesAreGenuine(w: World, copies: seq<Cached>, req: Request)
    requires AllGenuine(w, copies)
    ensures AllGenuine(w, Candidates(copies, req))
    ensures forall c | c in Candidates(copies, req) :: Selected(c.content, req)
  {
    var le := (a: Cached, b: Cached) => NotAfter(req.tenant, a, b);
    SelectSelects(copies, req);
    StableSort.SortPermutes(le, Select(copies, req));
    StableSort.SameElements(Select(copies, req), Candidates(copies, req));
    forall i | 0 <= i < |Candidates(copies, req)|
      ensures Genuine(w, Candidates(copies, req)[i])
    {
      assert Candidates(copies, req)[i] in Candidates(copies, req);
    }
  }

  /** The candidates come out oldest first, whatever the tenant: stock never carries a tenant
      label, so the preference for the same tenant never applies to a candidate. */
  lemma CandidatesAreFifo(w: World, copies: seq<Cached>, req: Request)
    requires WorldInv(w) && AllGenuine(w, copies)
    ensures
      var list := Candidates(copies, req);
      forall i, j | 0 <= i < j < |list| :: list[i].content.createdAt <= list[j].content.createdAt
  {
    var list := Candidates(copies, req);
    var le := (a: Cached, b: Cached) => NotAfter(req.tenant, a, b);
    CandidatesAreGenuine(w, copies, req);
    StableSort.SortSorts(le, Select(copies, req));
    forall i | 0 <= i < |list|
      ensures !IsSameTenant(list[i].content, req.tenant)
    {
      assert list[i] in list && Genuine(w, list[i]);
      StockHasNoTenant(w[list[i].name], list[i].read);
    }
    forall i, j | 0 <= i < j < |list|
      ensures list[i].content.createdAt <= list[j].content.createdAt
    {
      assert le(list[i], list[j]);
    }
  }

  lemma StockHasNoTenant(x: Object, read: nat)
    requires FreezeInv(x) && read < |x.versions| && Listed(x.versions[read])
    ensures x.versions[read].labels.tenant == ""
  {
    assert WellFormed(x.versions[read]);
  }

  // ---- Outcomes ----

  /** Somebody else's write came first. */
  predicate Overtaken(w: World, c: Cached) {
    c.name in w && c.read + 1 < |w[c.name].versions|
  }

  predicate OutOfReach(w: World, c: Cached) {
    !Claimable(c.content) || Overtaken(w, c)
  }

  /** The copy is the version this request's patch committed, on stock that was selected for it. */
  predicate JustBound(w: World, c: Cached, req: Request) {
    && Genuine(w, c) && c.read > 0
    && var before := w[c.name].versions[c.read - 1];
       && Selected(before, req) && Claimable(before)
       && c.content == Bound(before, ClaimFor(req))
  }

  predicate FoundAgain(w: World, c: Cached, req: Request) {
    && Genuine(w, c)
    && req.requestId != ""
    && c.content.labels.requestId == req.requestId && c.content.labels.tenant == req.tenant
  }

  function ClaimableCount(list: seq<Cached>, n: nat): nat
    requires n <= |list|
  {
    if n == 0 then 0 else ClaimableCount(list, n - 1) + if Claimable(list[n - 1].content) then 1 else 0
  }

  lemma GenuineForever(v: World, w: World, copies: seq<Cached>)
    requires Extends(v, w) && AllGenuine(v, copies)
    ensures AllGenuine(w, copies)
  {
    forall i | 0 <= i < |copies|
      ensures Genuine(w, copies[i])
    {
      assert Genuine(v, copies[i]);
      assert v[copies[i].name].versions <= w[copies[i].name].versions;
    }
  }

  lemma OvertakenForever(v: World, w: World, list: seq<Cached>, n: nat)
    requires Extends(v, w) && n <= |list|
    requires forall j | 0 <= j < n :: OutOfReach(v, list[j])
    ensures forall j | 0 <= j < n :: OutOfReach(w, list[j])
  {
    forall j | 0 <= j < n
      ensures OutOfReach(w, list[j])
    {
      assert OutOfReach(v, list[j]);
    }
  }

  lemma ExtendsFurther(u: World, v: World, w: World)
    requires Extends(u, v) && Extends(v, w)
    ensures Extends(u, w)
  {
  }

  /** The patch of a claimer whose copy was still current. */
  lemma BindCommits(w: World, c: Cached, req: Request)
    requires Genuine(w, c) && AnswerTo(w[c.name], c.read).Committed?
    requires Selected(c.content, req) && Claimable(c.content)
    ensures CanAct(w, On(c.name, Bind(c.read, ClaimFor(req))))
    ensures
      JustBound(Do(w, On(c.name, Bind(c.read, ClaimFor(req)))), BoundCopy(c, req), req)
  {
    var s := Bound(c.content, ClaimFor(req));
    assert s.spec.claim != c.content.spec.claim;
    var x := w[c.name];
    assert Apply(x, Bind(c.read, ClaimFor(req))).versions == x.versions + [s];
  }

  function BoundCopy(c: Cached, req: Request): Cached {
    Cached(c.name, c.read + 1, Bound(c.content, ClaimFor(req)))
  }

  lemma BindCanAct(w: World, c: Cached, req: Request)
    requires Genuine(w, c) && Selected(c.content, req) && Claimable(c.content)
    ensures CanAct(w, On(c.name, Bind(c.read, ClaimFor(req))))
  {
  }

  /** bind, against a server others are writing to at the same time. */
  method TryBind(server: ApiServer, candidate: Cached, req: Request) returns (answer: Answer)
    requires server.Valid() && Genuine(server.objects, candidate)
    requires Selected(candidate.content, req) && Claimable(candidate.content)
    modifies server
    ensures server.Valid() && old(server.acts) <= server.acts && Extends(old(server.objects), server.objects)
    ensures answer.Committed? ==> JustBound(server.objects, BoundCopy(candidate, req), req)
    ensures answer.Conflict? ==> Overtaken(server.objects, candidate)
  {
    server.Interfere();
    StillGenuine(old(server.objects), server.objects, candidate);
    ghost var current := server.objects;
    BindCanAct(server.objects, candidate, req);
    answer := server.Write(candidate.name, Bind(candidate.read, ClaimFor(req)));
    ExtendsFurther(old(server.objects), current, server.objects);
    if answer.Committed? {
      BindCommits(current, candidate, req);
    }
  }

  lemma StillGenuine(v: World, w: World, c: Cached)
    requires Extends(v, w) && Genuine(v, c)
    ensures Genuine(w, c)
  {
    assert v[c.name].versions <= w[c.name].versions;
  }

  /** A sandbox that was bound, or created, for this very request. */
  predicate Matches(s: Sandbox, req: Request) {
    req.requestId != "" && s.labels.requestId == req.requestId && s.labels.tenant == req.tenant
  }

  /** The first copy that matches, or none if none does. */
  predicate IsFirstMatch(copies: seq<Cached>, req: Request, found: Option<Cached>) {
    match found
    case None => forall c | c in copies :: !Matches(c.content, req)
    case Some(c) =>
      exists i | 0 <= i < |copies| ::
        copies[i] == c && Matches(c.content, req) && forall j | 0 <= j < i :: !Matches(copies[j].content, req)
  }

  method FindByRequestId(copies: seq<Cached>, req: Request) returns (found: Option<Cached>)
    ensures IsFirstMatch(copies, req, found)
  {
    if req.requestId == "" {
      return None;
    }
    for i := 0 to |copies|
      invariant forall j | 0 <= j < i :: !Matches(copies[j].content, req)
    {
      var s := copies[i].content;
      if s.labels.requestId == req.requestId && s.labels.tenant == req.tenant {
        return Some(copies[i]);
      }
    }
    return None;
  }

  /** The first n candidates were examined: all are out of reach, and every claimable one cost an
      attempt that ended in a conflict. */
  predicate Examined(w: World, list: seq<Cached>, n: nat, attempts: nat, conflicts: nat)
    requires n <= |list|
  {
    && (forall j | 0 <= j < n :: OutOfReach(w, list[j]))
    && attempts == conflicts == ClaimableCount(list, n)
  }

  lemma ExaminedOneMore(w: World, list: seq<Cached>, n: nat, attempts: nat)
    requires n < |list| && Examined(w, list, n, attempts, attempts) && OutOfReach(w, list[n])
    ensures
      var more := attempts + if Claimable(list[n].content) then 1 else 0;
      Examined(w, list, n + 1, more, more)
  {
  }

  /** One attempt in the loop below; what was out of reach before stays so. */
  method TryNext(server: ApiServer, list: seq<Cached>, k: nat, req: Request, ghost attempts: nat)
    returns (answer: Answer)
    requires server.Valid() && AllGenuine(server.objects, list) && k < |list|
    requires Selected(list[k].content, req) && Claimable(list[k].content)
    requires Examined(server.objects, list, k, attempts, attempts)
    modifies server
    ensures server.Valid() && old(server.acts) <= server.acts && Extends(old(server.objects), server.objects)
    ensures AllGenuine(server.objects, list)
    ensures Examined(server.objects, list, k, attempts, attempts)
    ensures answer.Committed? ==> JustBound(server.objects, BoundCopy(list[k], req), req)
    ensures answer.Conflict? ==> Examined(server.objects, list, k + 1, attempts + 1, attempts + 1)
  {
    assert Genuine(server.objects, list[k]);
    answer := TryBind(server, list[k], req);
    GenuineForever(old(server.objects), server.objects, list);
    OvertakenForever(old(server.objects), server.objects, list, k);
    if answer.Conflict? {
      ExaminedOneMore(server.objects, list, k, attempts);
    }
  }

  /** What the loop of Claim tells: a success is the candidate examined last, bound by this very
      patch, and every candidate before it is out of reach; an exhausted list was examined to its
      end, a spent budget leaves candidates unexamined. */
  predicate Told(w: World, list: seq<Cached>, req: Request, limit: nat, res: Result, examined: nat)
    requires examined <= |list|
  {
    && !res.idempotent && res.attempts <= limit
    && (res.err.NoError? <==> res.sandbox.Some?)
    && match res.err
       case NoError =>
         && 0 < examined
         && res.sandbox.value == BoundCopy(list[examined - 1], req)
         && JustBound(w, res.sandbox.value, req)
         && res.attempts == res.conflicts + 1
         && Examined(w, list, examined - 1, res.conflicts, res.conflicts)
       case PoolExhausted => examined == |list| && Examined(w, list, examined, res.attempts, res.conflicts)
       case Contended =>
         examined < |list| && Examined(w, list, examined, res.attempts, res.conflicts) && res.attempts == limit
       case Vanished => 0 < examined && res.attempts == res.conflicts + 1
       case Invalid => false
  }

  /** One turn of the loop below. */
  method TryOne(server: ApiServer, list: seq<Cached>, k: nat, req: Request, limit: nat, lost: nat)
    returns (res: Option<Result>, lostNow: nat)
    requires server.Valid() && AllGenuine(server.objects, list) && k < |list| && lost < limit
    requires Selected(list[k].content, req)
    requires Examined(server.objects, list, k, lost, lost)
    modifies server
    ensures server.Valid() && old(server.acts) <= server.acts && Extends(old(server.objects), server.objects)
    ensures AllGenuine(server.objects, list)
    ensures
      if res.Some? then Told(server.objects, list, req, limit, res.value, k + 1)
      else lostNow <= limit && Examined(server.objects, list, k + 1, lostNow, lostNow)
  {
    if !Claimable(list[k].content) {
      ExaminedOneMore(server.objects, list, k, lost);
      return None, lost;
    }
    var answer := TryNext(server, list, k, req, lost);
    match answer {
      case Committed =>
        return Some(Result(Some(BoundCopy(list[k], req)), lost + 1, lost, false, NoError)), lost;
      case NotFound =>
        return Some(Result(None, lost + 1, lost, false, Vanished)), lost;
      case Conflict =>
        return None, lost + 1;
    }
  }

  /** The loop of Claim: one candidate after the other, until one is bound, all are examined or
      the budget is spent. */
  method TryCandidates(server: ApiServer, list: seq<Cached>, req: Request, limit: nat)
    returns (res: Result, examined: nat)
    requires server.Valid() && AllGenuine(server.objects, list) && limit > 0
    requires forall i | 0 <= i < |list| :: Selected(list[i].content, req)
    modifies server
    ensures server.Valid() && old(server.acts) <= server.acts && Extends(old(server.objects), server.objects)
    ensures examined <= |list| && Told(server.objects, list, req, limit, res, examined)
  {
    var lost: nat := 0; // attempts so far, each of which ended in a conflict
    examined := 0;
    while examined < |list| && lost < limit
      invariant server.Valid() && old(server.acts) <= server.acts && Extends(old(server.objects), server.objects)
      invariant 0 <= examined <= |list|
      invariant Examined(server.objects, list, examined, lost, lost) && lost <= limit
      invariant AllGenuine(server.objects, list)
      decreases |list| - examined
    {
      ghost var before := server.objects;
      var end: Option<Result>;
      end, lost := TryOne(server, list, examined, req, limit, lost);
      ExtendsFurther(old(server.objects), before, server.objects);
      examined := examined + 1;
      if end.Some? {
        return end.value, examined;
      }
    }
    res := Result(None, lost, lost, false, if examined < |list| then Contended else PoolExhausted);
  }

  /** One claim, with other clients acting before every read and every write. known and copies are
      the two lists it read. A sandbox found under the same request is handed out again; otherwise a
      success is a version this request committed on ready, unclaimed stock; an exhausted pool means
      that every listed candidate is out of reach; contention means that the budget went into lost
      races with candidates still unexamined. */
  method ClaimStock(server: ApiServer, req: Request, maxAttempts: int)
    returns (res: Result, list: seq<Cached>, examined: nat, known: seq<Cached>, copies: seq<Cached>)
    requires server.Valid()
    modifies server
    ensures server.Valid() && old(server.acts) <= server.acts && Extends(old(server.objects), server.objects)
    ensures res.err.Invalid? <==> !IsValid(req)
    ensures !IsValid(req) ==> server.objects == old(server.objects)
    ensures AllGenuine(server.objects, known) && AllGenuine(server.objects, copies)
    ensures IsValid(req) ==> (res.idempotent <==> exists c | c in known :: Matches(c.content, req))
    ensures
      res.idempotent ==>
        res.err.NoError? && res.sandbox.Some? && res.sandbox.value in known
            && FoundAgain(server.objects, res.sandbox.value, req)
    ensures
      IsValid(req) && !res.idempotent ==>
        list == Candidates(copies, req) && examined <= |list|
            && Told(server.objects, list, req, Limit(maxAttempts), res, examined)
  {
    list, examined, known, copies := [], 0, [], [];
    if !IsValid(req) {
      res := Result(None, 0, 0, false, Invalid);
      return;
    }

    server.Interfere();
    known := server.ReadCache();
    var existing := FindByRequestId(known, req);
    if existing.Some? {
      res := Result(existing, 0, 0, true, NoError);
      return;
    }

    ghost var before := server.objects;
    server.Interfere();
    ExtendsFurther(old(server.objects), before, server.objects);
    GenuineForever(before, server.objects, known);
    copies := server.ReadCache();
    CandidatesAreGenuine(server.objects, copies, req);
    list := Candidates(copies, req);
    assert forall i | 0 <= i < |list| :: list[i] in list;
    before := server.objects;
    res, examined := TryCandidates(server, list, req, Limit(maxAttempts));
    ExtendsFurther(old(server.objects), before, server.objects);
    GenuineForever(before, server.objects, known);
    GenuineForever(before, server.objects, copies);
  }
}
