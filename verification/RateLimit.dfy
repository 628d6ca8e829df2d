/** internal/gateway/limits.go: one token bucket per tenant, in a map of bounded size from which
    idle buckets are evicted. Times are seconds and tokens are reals. */
module RateLimit {

  const DEFAULT_CREATE_PER_SECOND := 10.0
  const DEFAULT_CREATE_BURST := 30.0
  const MAX_BUCKETS: nat := 4096
  const IDLE_SECONDS := 600.0

  datatype Quota = Quota(maxCreatePerSecond: real, burst: real)

  function WithDefaults(q: Quota): (r: Quota)
    ensures r.burst >= r.maxCreatePerSecond > 0.0
  {
    var rate := if q.maxCreatePerSecond <= 0.0 then DEFAULT_CREATE_PER_SECOND else q.maxCreatePerSecond;
    var burst := if q.burst <= 0.0 then DEFAULT_CREATE_BURST else q.burst;
    Quota(rate, if burst < rate then rate else burst)
  }

  datatype Bucket = Bucket(tokens: real, last: real)

  /** Empty: the bucket has no token; Full: there is no room for a bucket. Both are refusals. */
  datatype Answer = Granted | Empty(wait: real) | Full
  {
    function Wait(): real {
      match this
      case Granted => 0.0
      case Empty(w) => w
      case Full => 1.0
    }
  }

  function Min(a: real, b: real): real {
    if a < b then a else b
  }

  /** What the rate adds between two instants. */
  function Earned(q: Quota, since: real, now: real): real {
    (now - since) * q.maxCreatePerSecond
  }

  function Refilled(b: Bucket, q: Quota, now: real): Bucket {
    if now - b.last > 0.0 then Bucket(Min(q.burst, b.tokens + Earned(q, b.last, now)), now) else b
  }

  type Buckets = map<string, Bucket>

  function Cleared(m: Buckets, now: real): Buckets {
    map k | k in m && now - m[k].last <= IDLE_SECONDS :: m[k]
  }

  /** The map in which the tenant's bucket is looked for: idle buckets go only to make room. */
  function Room(m: Buckets, maxBuckets: nat, tenant: string, now: real): Buckets {
    if tenant in m || |m| < maxBuckets then m else Cleared(m, now)
  }

  function BucketOf(m: Buckets, tenant: string, q: Quota, now: real): Bucket {
    Refilled(if tenant in m then m[tenant] else Bucket(q.burst, now), q, now)
  }

  predicate HasRoom(m: Buckets, maxBuckets: nat, tenant: string) {
    tenant in m || |m| < maxBuckets
  }

  /** There is no room for the tenant: the map is full of buckets none of which is idle. */
  predicate Crowded(m: Buckets, maxBuckets: nat, tenant: string, now: real) {
    tenant !in m && |m| >= maxBuckets && forall k | k in m :: now - m[k].last <= IDLE_SECONDS
  }

  function AnswerFor(b: Bucket, q: Quota): Answer
    requires q.maxCreatePerSecond > 0.0
  {
    if b.tokens >= 1.0 then Granted else Empty((1.0 - b.tokens) / q.maxCreatePerSecond + 1.0)
  }

  /** What Allow answers and what it leaves in the map; q has its defaults. */
  function Reply(m: Buckets, maxBuckets: nat, tenant: string, q: Quota, now: real): Answer
    requires q.maxCreatePerSecond > 0.0
  {
    var room := Room(m, maxBuckets, tenant, now);
    if HasRoom(room, maxBuckets, tenant) then AnswerFor(BucketOf(room, tenant, q, now), q) else Full
  }

  function After(m: Buckets, maxBuckets: nat, tenant: string, q: Quota, now: real): Buckets
    requires q.maxCreatePerSecond > 0.0
  {
    var room := Room(m, maxBuckets, tenant, now);
    if !HasRoom(room, maxBuckets, tenant) then room
    else
      var b := BucketOf(room, tenant, q, now);
      room[tenant := if b.tokens >= 1.0 then b.(tokens := b.tokens - 1.0) else b]
  }

  class RateLimiter {
    var buckets: Buckets
    const maxBuckets: nat

    ghost predicate Valid()
      reads this
    {
      |buckets| <= maxBuckets
    }

    constructor ()
      ensures Valid() && buckets == map[] && maxBuckets == MAX_BUCKETS
    {
      buckets, maxBuckets := map[], MAX_BUCKETS;
    }

    method EvictStale(now: real)
      modifies this
      ensures buckets == Cleared(old(buckets), now)
    {
      var left := buckets.Keys;
      while left != {}
        invariant left <= buckets.Keys <= old(buckets).Keys
        invariant
          forall k | k in old(buckets) ::
            k in buckets <==> k in left || now - old(buckets)[k].last <= IDLE_SECONDS
        invariant forall k | k in buckets :: buckets[k] == old(buckets)[k]
      {
        var k :| k in left;
        left := left - {k};
        if now - buckets[k].last > IDLE_SECONDS {
          buckets := buckets - {k};
        }
      }
    }

    /** Finds or makes the tenant's bucket; without room there is none. */
    method Admit(tenant: string, q: Quota, now: real) returns (ok: bool)
      modifies this
      ensures
        var room := Room(old(buckets), maxBuckets, tenant, now);
        && ok == HasRoom(room, maxBuckets, tenant)
        && buckets == if ok && tenant !in room then room[tenant := Bucket(q.burst, now)] else room
    {
      if tenant !in buckets {
        if |buckets| >= maxBuckets {
          EvictStale(now);
          if |buckets| >= maxBuckets {
            return false;
          }
        }
        buckets := buckets[tenant := Bucket(q.burst, now)];
      }
      return true;
    }

    method Allow(tenant: string, quota: Quota, now: real) returns (allowed: bool, wait: real)
      requires Valid()
      modifies this
      ensures Valid()
      ensures buckets == After(old(buckets), maxBuckets, tenant, WithDefaults(quota), now)
      ensures
        var answer := Reply(old(buckets), maxBuckets, tenant, WithDefaults(quota), now);
        allowed == answer.Granted? && wait == answer.Wait()
    {
      var q := WithDefaults(quota);
      OneCallKeepsSize(buckets, maxBuckets, tenant, q, now);
      var ok := Admit(tenant, q, now);
      if !ok {
        return false, 1.0;
      }
      var b := buckets[tenant];
      if now - b.last > 0.0 {
        b := Bucket(Min(q.burst, b.tokens + Earned(q, b.last, now)), now);
        buckets := buckets[tenant := b];
      }
      if b.tokens >= 1.0 {
        buckets := buckets[tenant := b.(tokens := b.tokens - 1.0)];
        return true, 0.0;
      }
      return false, (1.0 - b.tokens) / q.maxCreatePerSecond + 1.0;
    }
  }

  // ---- What a tenant has ----

  /** The tokens the tenant could draw on at an instant: a tenant without a bucket has a full one. */
  function Available(m: Buckets, tenant: string, q: Quota, now: real): real {
    if tenant in m then Min(q.burst, m[tenant].tokens + Earned(q, m[tenant].last, now)) else q.burst
  }

  predicate Sane(q: Quota) {
    q.burst >= q.maxCreatePerSecond > 0.0
  }

  /** An idle bucket is full again before it may be evicted. */
  predicate FullBeforeIdle(q: Quota) {
    IDLE_SECONDS * q.maxCreatePerSecond >= q.burst
  }

  /** A bucket holds between nothing and the burst, and was touched in the past. */
  predicate Fits(m: Buckets, tenant: string, q: Quota, now: real) {
    tenant in m ==> 0.0 <= m[tenant].tokens <= q.burst && m[tenant].last <= now
  }

  lemma EarnedAdds(q: Quota, a: real, b: real, c: real)
    ensures Earned(q, a, b) + Earned(q, b, c) == Earned(q, a, c)
  {
  }

  lemma EarnedGrows(q: Quota, a: real, b: real, c: real)
    requires b <= c && q.maxCreatePerSecond > 0.0
    ensures Earned(q, a, b) <= Earned(q, a, c)
    ensures Earned(q, b, c) >= 0.0
  {
    EarnedAdds(q, a, b, c);
  }

  lemma AvailableFits(m: Buckets, tenant: string, q: Quota, now: real)
    requires Sane(q) && Fits(m, tenant, q, now)
    ensures 0.0 <= Available(m, tenant, q, now) <= q.burst
  {
    if tenant in m {
      EarnedGrows(q, m[tenant].last, m[tenant].last, now);
    }
  }

  /** Time alone refills at the rate, up to the burst. */
  lemma AvailableGrows(m: Buckets, tenant: string, q: Quota, now: real, later: real)
    requires Sane(q) && Fits(m, tenant, q, now) && now <= later
    ensures
      Available(m, tenant, q, later) == Min(q.burst, Available(m, tenant, q, now) + Earned(q, now, later))
  {
    EarnedGrows(q, now, now, later);
    if tenant in m {
      EarnedAdds(q, m[tenant].last, now, later);
    }
  }

  /** Evicting idle buckets takes nothing away and gives nothing: they were full. */
  lemma EvictionIsInvisible(m: Buckets, tenant: string, q: Quota, now: real)
    requires Sane(q) && FullBeforeIdle(q) && Fits(m, tenant, q, now)
    ensures Fits(Cleared(m, now), tenant, q, now)
    ensures Available(Cleared(m, now), tenant, q, now) == Available(m, tenant, q, now)
  {
    if tenant in m && now - m[tenant].last > IDLE_SECONDS {
      EarnedGrows(q, m[tenant].last, m[tenant].last + IDLE_SECONDS, now);
    }
  }

  lemma RoomIsInvisible(m: Buckets, maxBuckets: nat, caller: string, tenant: string, q: Quota, now: real)
    requires Sane(q) && FullBeforeIdle(q) && Fits(m, tenant, q, now)
    ensures Fits(Room(m, maxBuckets, caller, now), tenant, q, now)
    ensures Available(Room(m, maxBuckets, caller, now), tenant, q, now) == Available(m, tenant, q, now)
  {
    EvictionIsInvisible(m, tenant, q, now);
  }

  /** A refilled bucket holds just what is available. */
  lemma BucketHoldsAvailable(m: Buckets, tenant: string, q: Quota, now: real)
    requires Sane(q) && Fits(m, tenant, q, now)
    ensures BucketOf(m, tenant, q, now) == Bucket(Available(m, tenant, q, now), now)
  {
  }

  /** Room can be made unless every bucket of a full map was in use lately. */
  lemma RoomUnlessCrowded(m: Buckets, maxBuckets: nat, tenant: string, now: real)
    requires |m| <= maxBuckets
    ensures HasRoom(Room(m, maxBuckets, tenant, now), maxBuckets, tenant) <==> !Crowded(m, maxBuckets, tenant, now)
  {
    ClearedKeepsAllOrFewer(m, now);
  }

  lemma ClearedKeepsAllOrFewer(m: Buckets, now: real)
    ensures |Cleared(m, now)| < |m| || (Cleared(m, now) == m && forall k | k in m :: now - m[k].last <= IDLE_SECONDS)
    ensures (forall k | k in m :: now - m[k].last <= IDLE_SECONDS) ==> Cleared(m, now) == m
  {
    var c := Cleared(m, now);
    FewerKeys(c.Keys, m.Keys);
    assert |c.Keys| == |c| && |m.Keys| == |m|;
  }

  lemma FewerKeys(some: set<string>, all: set<string>)
    requires some <= all
    ensures some == all || |some| < |all|
  {
    assert all == some + (all - some);
  }

  /** One call, seen by the tenant that makes it: with room for its bucket a token is granted exactly
      when there is one, without room never; and the call costs exactly what it grants. */
  lemma {:induction false} CallByTenant(m: Buckets, maxBuckets: nat, tenant: string, q: Quota, now: real)
    requires |m| <= maxBuckets && Sane(q) && FullBeforeIdle(q) && Fits(m, tenant, q, now)
    ensures
      var answer, n := Reply(m, maxBuckets, tenant, q, now), After(m, maxBuckets, tenant, q, now);
      var has, crowded := Available(m, tenant, q, now), Crowded(m, maxBuckets, tenant, now);
      && Fits(n, tenant, q, now)
      && (answer.Full? <==> crowded)
      && (answer.Granted? <==> !crowded && has >= 1.0)
      && (answer.Empty? ==> answer.wait == (1.0 - has) / q.maxCreatePerSecond + 1.0)
      && Available(n, tenant, q, now) == has - if answer.Granted? then 1.0 else 0.0
  {
    var room := Room(m, maxBuckets, tenant, now);
    RoomUnlessCrowded(m, maxBuckets, tenant, now);
    RoomIsInvisible(m, maxBuckets, tenant, tenant, q, now);
    if HasRoom(room, maxBuckets, tenant) {
      BucketHoldsAvailable(room, tenant, q, now);
      AvailableFits(m, tenant, q, now);
    }
  }

  /** One call, seen by any other tenant: nothing. */
  lemma CallByOther(m: Buckets, maxBuckets: nat, caller: string, r: Quota, tenant: string, q: Quota, now: real)
    requires caller != tenant && r.maxCreatePerSecond > 0.0
    requires Sane(q) && FullBeforeIdle(q) && Fits(m, tenant, q, now)
    ensures Fits(After(m, maxBuckets, caller, r, now), tenant, q, now)
    ensures Available(After(m, maxBuckets, caller, r, now), tenant, q, now) == Available(m, tenant, q, now)
  {
    RoomIsInvisible(m, maxBuckets, caller, tenant, q, now);
  }

  // ---- Runs ----

  datatype Call = Call(tenant: string, quota: Quota, now: real)

  function RunAfter(maxBuckets: nat, calls: seq<Call>): Buckets {
    if calls == [] then map[]
    else
      var c := calls[|calls| - 1];
      After(RunAfter(maxBuckets, calls[..|calls| - 1]), maxBuckets, c.tenant, WithDefaults(c.quota), c.now)
  }

  /** The answer to call i. */
  function AnswerAt(maxBuckets: nat, calls: seq<Call>, i: nat): Answer
    requires i < |calls|
  {
    Reply(RunAfter(maxBuckets, calls[..i]), maxBuckets, calls[i].tenant, WithDefaults(calls[i].quota), calls[i].now)
  }

  predicate TimesRise(calls: seq<Call>) {
    forall i, j | 0 <= i < j < |calls| :: calls[i].now <= calls[j].now
  }

  predicate QuotaIs(calls: seq<Call>, tenant: string, q: Quota) {
    forall i | 0 <= i < |calls| && calls[i].tenant == tenant :: WithDefaults(calls[i].quota) == q
  }

  function Cost(maxBuckets: nat, calls: seq<Call>, i: nat, tenant: string): nat
    requires i < |calls|
  {
    if calls[i].tenant == tenant && AnswerAt(maxBuckets, calls, i).Granted? then 1 else 0
  }

  function Costs(maxBuckets: nat, calls: seq<Call>, tenant: string): seq<nat> {
    seq(|calls|, i requires 0 <= i < |calls| => Cost(maxBuckets, calls, i, tenant))
  }

  function Sum(costs: seq<nat>): nat {
    if costs == [] then 0 else Sum(costs[..|costs| - 1]) + costs[|costs| - 1]
  }

  /** How often the tenant was granted a token in calls i to j. */
  function Grants(maxBuckets: nat, calls: seq<Call>, tenant: string, i: nat, j: nat): nat
    requires i <= j <= |calls|
  {
    Sum(Costs(maxBuckets, calls, tenant)[i..j])
  }

  lemma RunUpTo(maxBuckets: nat, calls: seq<Call>, i: nat)
    requires i < |calls|
    ensures
      RunAfter(maxBuckets, calls[..i + 1])
      == After(RunAfter(maxBuckets, calls[..i]), maxBuckets, calls[i].tenant, WithDefaults(calls[i].quota),
          calls[i].now)
  {
    assert calls[..i + 1][..i] == calls[..i];
  }

  /** The map never outgrows its bound. */
  lemma {:induction false} SizeIsBounded(maxBuckets: nat, calls: seq<Call>)
    ensures |RunAfter(maxBuckets, calls)| <= maxBuckets
  {
    if calls != [] {
      var c, before := calls[|calls| - 1], calls[..|calls| - 1];
      SizeIsBounded(maxBuckets, before);
      OneCallKeepsSize(RunAfter(maxBuckets, before), maxBuckets, c.tenant, WithDefaults(c.quota), c.now);
    }
  }

  lemma OneCallKeepsSize(m: Buckets, maxBuckets: nat, tenant: string, q: Quota, now: real)
    requires |m| <= maxBuckets && q.maxCreatePerSecond > 0.0
    ensures |After(m, maxBuckets, tenant, q, now)| <= maxBuckets
  {
    var room := Room(m, maxBuckets, tenant, now);
    ClearedIsSmaller(m, now);
    if HasRoom(room, maxBuckets, tenant) {
      OneCallAddsOne(room, After(m, maxBuckets, tenant, q, now), tenant);
    }
  }

  lemma OneCallAddsOne(room: Buckets, n: Buckets, tenant: string)
    requires n.Keys == room.Keys + {tenant}
    ensures |n| == |room| + if tenant in room then 0 else 1
  {
    assert |n.Keys| == |n| && |room.Keys| == |room|;
    assert tenant in room ==> n.Keys == room.Keys;
  }

  lemma ClearedIsSmaller(m: Buckets, now: real)
    ensures |Cleared(m, now)| <= |m|
  {
    var c := Cleared(m, now);
    assert c.Keys <= m.Keys;
    assert m.Keys == c.Keys + (m.Keys - c.Keys);
    assert |c.Keys| == |c| && |m.Keys| == |m|;
  }

  /** One call, whoever makes it, as the tenant sees it. */
  lemma OneCall(maxBuckets: nat, calls: seq<Call>, i: nat, tenant: string, q: Quota)
    requires i < |calls| && Sane(q) && FullBeforeIdle(q) && QuotaIs(calls, tenant, q)
    requires Fits(RunAfter(maxBuckets, calls[..i]), tenant, q, calls[i].now)
    ensures Fits(RunAfter(maxBuckets, calls[..i + 1]), tenant, q, calls[i].now)
    ensures
      Available(RunAfter(maxBuckets, calls[..i + 1]), tenant, q, calls[i].now)
      == Available(RunAfter(maxBuckets, calls[..i]), tenant, q, calls[i].now)
         - if calls[i].tenant == tenant && AnswerAt(maxBuckets, calls, i).Granted? then 1.0 else 0.0
  {
    RunUpTo(maxBuckets, calls, i);
    SizeIsBounded(maxBuckets, calls[..i]);
    var m, c := RunAfter(maxBuckets, calls[..i]), calls[i];
    if c.tenant == tenant {
      CallByTenant(m, maxBuckets, tenant, q, c.now);
    } else {
      CallByOther(m, maxBuckets, c.tenant, WithDefaults(c.quota), tenant, q, c.now);
    }
  }

  /** The run is one the bounds below are about: monotone time, a fixed quota of the tenant. */
  predicate Steady(calls: seq<Call>, tenant: string, q: Quota) {
    TimesRise(calls) && Sane(q) && QuotaIs(calls, tenant, q)
  }

  /** Moreover what the tenant has does not depend on evictions. */
  predicate Fair(calls: seq<Call>, tenant: string, q: Quota) {
    Steady(calls, tenant, q) && FullBeforeIdle(q)
  }

  lemma CallKeepsFits(m: Buckets, maxBuckets: nat, c: Call, tenant: string, q: Quota)
    requires Sane(q) && (c.tenant == tenant ==> WithDefaults(c.quota) == q) && Fits(m, tenant, q, c.now)
    ensures Fits(After(m, maxBuckets, c.tenant, WithDefaults(c.quota), c.now), tenant, q, c.now)
  {
    var room := Room(m, maxBuckets, c.tenant, c.now);
    if c.tenant == tenant && HasRoom(room, maxBuckets, tenant) {
      BucketHoldsAvailable(room, tenant, q, c.now);
      AvailableFits(room, tenant, q, c.now);
    }
  }

  /** Tokens always stay between nothing and the burst. */
  lemma {:induction false} TokensFit(maxBuckets: nat, calls: seq<Call>, i: nat, tenant: string, q: Quota, now: real)
    requires i <= |calls| && Steady(calls, tenant, q)
    requires i > 0 ==> calls[i - 1].now <= now
    ensures Fits(RunAfter(maxBuckets, calls[..i]), tenant, q, now)
  {
    if i > 0 {
      var c := calls[i - 1];
      TokensFit(maxBuckets, calls, i - 1, tenant, q, c.now);
      RunUpTo(maxBuckets, calls, i - 1);
      CallKeepsFits(RunAfter(maxBuckets, calls[..i - 1]), maxBuckets, c, tenant, q);
    }
  }

  /** What the tenant has at an instant after the first n calls. */
  function Has(maxBuckets: nat, calls: seq<Call>, n: nat, tenant: string, q: Quota, now: real): real
    requires n <= |calls|
  {
    Available(RunAfter(maxBuckets, calls[..n]), tenant, q, now)
  }

  lemma HasIsPaid(maxBuckets: nat, calls: seq<Call>, i: nat, tenant: string, q: Quota)
    requires i < |calls| && Fair(calls, tenant, q)
    ensures
      Has(maxBuckets, calls, i + 1, tenant, q, calls[i].now)
      == Has(maxBuckets, calls, i, tenant, q, calls[i].now) - Cost(maxBuckets, calls, i, tenant) as real
  {
    TokensFit(maxBuckets, calls, i, tenant, q, calls[i].now);
    OneCall(maxBuckets, calls, i, tenant, q);
  }

  lemma HasGrows(maxBuckets: nat, calls: seq<Call>, n: nat, tenant: string, q: Quota, now: real, later: real)
    requires 0 < n <= |calls| && Steady(calls, tenant, q) && calls[n - 1].now <= now <= later
    ensures
      Has(maxBuckets, calls, n, tenant, q, later)
          == Min(q.burst, Has(maxBuckets, calls, n, tenant, q, now) + Earned(q, now, later))
  {
    TokensFit(maxBuckets, calls, n, tenant, q, now);
    AvailableGrows(RunAfter(maxBuckets, calls[..n]), tenant, q, now, later);
  }

  lemma HasFits(maxBuckets: nat, calls: seq<Call>, n: nat, tenant: string, q: Quota, now: real)
    requires n <= |calls| && Steady(calls, tenant, q) && (n > 0 ==> calls[n - 1].now <= now)
    ensures 0.0 <= Has(maxBuckets, calls, n, tenant, q, now) <= q.burst
  {
    TokensFit(maxBuckets, calls, n, tenant, q, now);
    AvailableFits(RunAfter(maxBuckets, calls[..n]), tenant, q, now);
  }

  /** What was available before calls i to j and what time added, less what they were granted and what is
      available after them. */
  function Lapsed(maxBuckets: nat, calls: seq<Call>, tenant: string, q: Quota, i: nat, j: nat): real
    requires i < j <= |calls|
  {
    Has(maxBuckets, calls, i, tenant, q, calls[i].now) + Earned(q, calls[i].now, calls[j - 1].now)
    - Grants(maxBuckets, calls, tenant, i, j) as real - Has(maxBuckets, calls, j, tenant, q, calls[j - 1].now)
  }

  /** What was granted is paid: tokens lapse at a full bucket, but none come from nowhere. */
  lemma {:induction false} GrantsArePaid(maxBuckets: nat, calls: seq<Call>, tenant: string, q: Quota, i: nat, j: nat)
    requires i < j <= |calls| && Fair(calls, tenant, q)
    ensures Lapsed(maxBuckets, calls, tenant, q, i, j) >= 0.0
  {
    if i + 1 < j {
      GrantsArePaid(maxBuckets, calls, tenant, q, i, j - 1);
      PaidOnceMore(maxBuckets, calls, tenant, q, i, j);
    } else {
      PaidOnce(maxBuckets, calls, tenant, q, i, j);
    }
  }

  lemma PaidOnce(maxBuckets: nat, calls: seq<Call>, tenant: string, q: Quota, i: nat, j: nat)
    requires j == i + 1 && i < |calls| && Fair(calls, tenant, q)
    ensures Lapsed(maxBuckets, calls, tenant, q, i, j) >= 0.0
  {
    NoGrantsYet(maxBuckets, calls, tenant, i);
    OneMoreGrant(maxBuckets, calls, tenant, i, j);
    HasIsPaid(maxBuckets, calls, i, tenant, q);
    EarnedAdds(q, calls[i].now, calls[i].now, calls[i].now);
  }

  lemma PaidOnceMore(maxBuckets: nat, calls: seq<Call>, tenant: string, q: Quota, i: nat, j: nat)
    requires i + 1 < j <= |calls| && Fair(calls, tenant, q)
    requires Lapsed(maxBuckets, calls, tenant, q, i, j - 1) >= 0.0
    ensures Lapsed(maxBuckets, calls, tenant, q, i, j) >= 0.0
  {
    OneMoreGrant(maxBuckets, calls, tenant, i, j);
    OneMoreIsPaid(maxBuckets, calls, j, tenant, q);
    EarnedAdds(q, calls[i].now, calls[j - 2].now, calls[j - 1].now);
    PaidSum(Grants(maxBuckets, calls, tenant, i, j - 1), Cost(maxBuckets, calls, j - 1, tenant),
            Has(maxBuckets, calls, i, tenant, q, calls[i].now),
            Has(maxBuckets, calls, j - 1, tenant, q, calls[j - 2].now),
            Has(maxBuckets, calls, j, tenant, q, calls[j - 1].now),
            Earned(q, calls[i].now, calls[j - 2].now), Earned(q, calls[j - 2].now, calls[j - 1].now));
  }

  lemma NoGrantsYet(maxBuckets: nat, calls: seq<Call>, tenant: string, i: nat)
    requires i <= |calls|
    ensures Grants(maxBuckets, calls, tenant, i, i) == 0
  {
    assert Costs(maxBuckets, calls, tenant)[i..i] == [];
  }

  lemma PaidSum(grants: nat, cost: nat, first: real, before: real, after: real, earned: real, more: real)
    requires grants as real + before <= first + earned && after + cost as real <= before + more
    ensures (grants + cost) as real + after <= first + (earned + more)
  {
  }

  lemma SumOneMore(costs: seq<nat>, i: nat, j: nat)
    requires i < j <= |costs|
    ensures Sum(costs[i..j]) == Sum(costs[i..j - 1]) + costs[j - 1]
  {
    assert costs[i..j][..j - 1 - i] == costs[i..j - 1];
  }

  lemma OneMoreGrant(maxBuckets: nat, calls: seq<Call>, tenant: string, i: nat, j: nat)
    requires i < j <= |calls|
    ensures
      Grants(maxBuckets, calls, tenant, i, j)
          == Grants(maxBuckets, calls, tenant, i, j - 1) + Cost(maxBuckets, calls, j - 1, tenant)
  {
    SumOneMore(Costs(maxBuckets, calls, tenant), i, j);
  }

  lemma OneMoreIsPaid(maxBuckets: nat, calls: seq<Call>, j: nat, tenant: string, q: Quota)
    requires 1 < j <= |calls| && Fair(calls, tenant, q)
    ensures
      Has(maxBuckets, calls, j, tenant, q, calls[j - 1].now) + Cost(maxBuckets, calls, j - 1, tenant) as real
      <= Has(maxBuckets, calls, j - 1, tenant, q, calls[j - 2].now)
         + Earned(q, calls[j - 2].now, calls[j - 1].now)
  {
    HasIsPaid(maxBuckets, calls, j - 1, tenant, q);
    HasGrows(maxBuckets, calls, j - 1, tenant, q, calls[j - 2].now, calls[j - 1].now);
  }

  /** In any stretch of calls, a tenant is granted at most its burst plus what its rate adds over
      the time the stretch takes, whatever other tenants do and however often buckets are evicted. */
  lemma WindowIsBounded(maxBuckets: nat, calls: seq<Call>, tenant: string, q: Quota, i: nat, j: nat)
    requires i < j <= |calls| && Fair(calls, tenant, q)
    ensures
      Grants(maxBuckets, calls, tenant, i, j) as real <= q.burst + Earned(q, calls[i].now, calls[j - 1].now)
  {
    GrantsArePaid(maxBuckets, calls, tenant, q, i, j);
    HasFits(maxBuckets, calls, i, tenant, q, calls[i].now);
    HasFits(maxBuckets, calls, j, tenant, q, calls[j - 1].now);
  }

  // ---- Waiting ----

  /** Others' calls leave a waiting tenant what time adds. */
  lemma {:induction false} WaitingRefills(maxBuckets: nat, calls: seq<Call>, tenant: string, q: Quota, i: nat, j: nat)
    requires i < j < |calls| && Fair(calls, tenant, q)
    requires forall k | i < k < j :: calls[k].tenant != tenant
    ensures
      Has(maxBuckets, calls, j, tenant, q, calls[j].now)
      == Min(q.burst, Has(maxBuckets, calls, i + 1, tenant, q, calls[i].now) + Earned(q, calls[i].now, calls[j].now))
  {
    var before, now := calls[j - 1].now, calls[j].now;
    HasGrows(maxBuckets, calls, j, tenant, q, before, now);
    if i + 1 < j {
      WaitingRefills(maxBuckets, calls, tenant, q, i, j - 1);
      HasIsPaid(maxBuckets, calls, j - 1, tenant, q);
      EarnedAdds(q, calls[i].now, before, now);
      EarnedGrows(q, before, before, now);
    }
  }

  lemma AnswerTells(maxBuckets: nat, calls: seq<Call>, i: nat, tenant: string, q: Quota)
    requires i < |calls| && calls[i].tenant == tenant && Fair(calls, tenant, q)
    ensures
      var answer, has := AnswerAt(maxBuckets, calls, i), Has(maxBuckets, calls, i, tenant, q, calls[i].now);
      && (answer.Granted? ==> has >= 1.0)
      && (answer.Empty? ==> has < 1.0 && answer.wait == (1.0 - has) / q.maxCreatePerSecond + 1.0)
  {
    TokensFit(maxBuckets, calls, i, tenant, q, calls[i].now);
    SizeIsBounded(maxBuckets, calls[..i]);
    CallByTenant(RunAfter(maxBuckets, calls[..i]), maxBuckets, tenant, q, calls[i].now);
  }

  /** A tenant whose bucket was empty, and who comes back after the time it was told, is granted a
      token unless there is no room for its bucket. */
  lemma WaitIsEnough(maxBuckets: nat, calls: seq<Call>, i: nat, j: nat, tenant: string, q: Quota)
    requires i < j < |calls| && Fair(calls, tenant, q) && q.burst >= 1.0
    requires calls[i].tenant == tenant == calls[j].tenant && AnswerAt(maxBuckets, calls, i).Empty?
    requires forall k | i < k < j :: calls[k].tenant != tenant
    requires calls[j].now >= calls[i].now + AnswerAt(maxBuckets, calls, i).wait
    ensures AnswerAt(maxBuckets, calls, j).Granted? || AnswerAt(maxBuckets, calls, j).Full?
  {
    AnswerTells(maxBuckets, calls, i, tenant, q);
    HasIsPaid(maxBuckets, calls, i, tenant, q);
    WaitingRefills(maxBuckets, calls, tenant, q, i, j);
    EarnedBack(Has(maxBuckets, calls, i, tenant, q, calls[i].now), q, calls[i].now, calls[j].now);
    AnswerTells(maxBuckets, calls, j, tenant, q);
  }

  lemma EarnedBack(has: real, q: Quota, since: real, now: real)
    requires q.maxCreatePerSecond > 0.0 && now - since >= (1.0 - has) / q.maxCreatePerSecond + 1.0
    ensures has + Earned(q, since, now) >= 1.0
  {
    var short := (1.0 - has) / q.maxCreatePerSecond;
    assert Earned(q, since, since + short) == 1.0 - has;
    EarnedGrows(q, since, since + short, now);
  }

  /** With a burst below one token nobody is ever granted anything, however long they wait. */
  lemma BurstBelowOneNeverGrants(maxBuckets: nat, calls: seq<Call>, i: nat, q: Quota)
    requires i < |calls| && Steady(calls, calls[i].tenant, q) && q.burst < 1.0
    ensures !AnswerAt(maxBuckets, calls, i).Granted?
  {
    var tenant, now := calls[i].tenant, calls[i].now;
    TokensFit(maxBuckets, calls, i, tenant, q, now);
    var room := Room(RunAfter(maxBuckets, calls[..i]), maxBuckets, tenant, now);
    BucketHoldsAvailable(room, tenant, q, now);
    AvailableFits(room, tenant, q, now);
  }

  // ---- Eviction against no bound at all ----

  lemma {:induction false} NoMoreBucketsThanCalls(maxBuckets: nat, calls: seq<Call>)
    ensures |RunAfter(maxBuckets, calls)| <= |calls|
  {
    if calls != [] {
      var c, before := calls[|calls| - 1], calls[..|calls| - 1];
      NoMoreBucketsThanCalls(maxBuckets, before);
      var m := RunAfter(maxBuckets, before);
      var room := Room(m, maxBuckets, c.tenant, c.now);
      ClearedIsSmaller(m, c.now);
      if HasRoom(room, maxBuckets, c.tenant) {
        OneCallAddsOne(room, RunAfter(maxBuckets, calls), c.tenant);
      }
    }
  }

  /** With as many places as there are calls the map is as good as unbounded. */
  lemma UnboundedIsNeverFull(calls: seq<Call>, i: nat)
    requires i < |calls|
    ensures !AnswerAt(|calls|, calls, i).Full?
    ensures Room(RunAfter(|calls|, calls[..i]), |calls|, calls[i].tenant, calls[i].now) == RunAfter(|calls|, calls[..i])
  {
    NoMoreBucketsThanCalls(|calls|, calls[..i]);
  }

  predicate NeverTurnedAway(maxBuckets: nat, calls: seq<Call>, n: nat, tenant: string)
    requires n <= |calls|
  {
    forall i | 0 <= i < n && calls[i].tenant == tenant :: !AnswerAt(maxBuckets, calls, i).Full?
  }

  lemma {:induction false} SameHas(maxBuckets: nat, calls: seq<Call>, n: nat, tenant: string, q: Quota, now: real)
    requires n <= |calls| && Fair(calls, tenant, q) && NeverTurnedAway(maxBuckets, calls, n, tenant)
    requires n > 0 ==> calls[n - 1].now <= now
    ensures Has(maxBuckets, calls, n, tenant, q, now) == Has(|calls|, calls, n, tenant, q, now)
  {
    if n > 0 {
      var before := calls[n - 1].now;
      SameHas(maxBuckets, calls, n - 1, tenant, q, before);
      SameCost(maxBuckets, calls, n - 1, tenant, q);
      HasIsPaid(maxBuckets, calls, n - 1, tenant, q);
      HasIsPaid(|calls|, calls, n - 1, tenant, q);
      HasGrows(maxBuckets, calls, n, tenant, q, before, now);
      HasGrows(|calls|, calls, n, tenant, q, before, now);
    }
  }

  lemma SameCost(maxBuckets: nat, calls: seq<Call>, i: nat, tenant: string, q: Quota)
    requires i < |calls| && Fair(calls, tenant, q)
        && (calls[i].tenant == tenant ==> !AnswerAt(maxBuckets, calls, i).Full?)
    requires Has(maxBuckets, calls, i, tenant, q, calls[i].now) == Has(|calls|, calls, i, tenant, q, calls[i].now)
    ensures Cost(maxBuckets, calls, i, tenant) == Cost(|calls|, calls, i, tenant)
    ensures calls[i].tenant == tenant ==> AnswerAt(maxBuckets, calls, i) == AnswerAt(|calls|, calls, i)
  {
    UnboundedIsNeverFull(calls, i);
    if calls[i].tenant == tenant {
      AnswerTells(maxBuckets, calls, i, tenant, q);
      AnswerTells(|calls|, calls, i, tenant, q);
    }
  }

  /** Until the tenant is first turned away for lack of room, it gets from the bounded, evicting map
      exactly the answers an unbounded map would give, waiting times included. */
  lemma EvictionChangesNoAnswer(maxBuckets: nat, calls: seq<Call>, n: nat, tenant: string, q: Quota)
    requires n <= |calls| && Fair(calls, tenant, q) && NeverTurnedAway(maxBuckets, calls, n, tenant)
    ensures
      forall i | 0 <= i < n && calls[i].tenant == tenant ::
        AnswerAt(maxBuckets, calls, i) == AnswerAt(|calls|, calls, i)
  {
    forall i | 0 <= i < n && calls[i].tenant == tenant
      ensures AnswerAt(maxBuckets, calls, i) == AnswerAt(|calls|, calls, i)
    {
      SameHas(maxBuckets, calls, i, tenant, q, calls[i].now);
      SameCost(maxBuckets, calls, i, tenant, q);
    }
  }

  // ---- Exactly when the bound holds ----

  /** In any stretch of any run the tenant is granted at most its burst plus what its rate adds. */
  ghost predicate BoundHolds(maxBuckets: nat, q: Quota) {
    forall calls: seq<Call>, tenant: string, i: nat, j: nat
      | i < j <= |calls| && TimesRise(calls) && QuotaIs(calls, tenant, q) ::
      Grants(maxBuckets, calls, tenant, i, j) as real <= q.burst + Earned(q, calls[i].now, calls[j - 1].now)
  }

  lemma {:induction false} NothingGranted(
      maxBuckets: nat, calls: seq<Call>, tenant: string, q: Quota, i: nat, j: nat)
    requires i <= j <= |calls| && Steady(calls, tenant, q) && q.burst < 1.0
    ensures Grants(maxBuckets, calls, tenant, i, j) == 0
  {
    if i == j {
      NoGrantsYet(maxBuckets, calls, tenant, i);
    } else {
      NothingGranted(maxBuckets, calls, tenant, q, i, j - 1);
      OneMoreGrant(maxBuckets, calls, tenant, i, j);
      if calls[j - 1].tenant == tenant {
        BurstBelowOneNeverGrants(maxBuckets, calls, j - 1, q);
      }
    }
  }

  lemma BoundIsKept(maxBuckets: nat, calls: seq<Call>, tenant: string, q: Quota, i: nat, j: nat)
    requires i < j <= |calls| && Steady(calls, tenant, q) && (q.burst < 1.0 || FullBeforeIdle(q))
    ensures Grants(maxBuckets, calls, tenant, i, j) as real <= q.burst + Earned(q, calls[i].now, calls[j - 1].now)
  {
    if FullBeforeIdle(q) {
      WindowIsBounded(maxBuckets, calls, tenant, q, i, j);
    } else {
      NothingGranted(maxBuckets, calls, tenant, q, i, j);
      EarnedGrows(q, calls[i].now, calls[i].now, calls[j - 1].now);
    }
  }

  // The run that breaks it. Other tenants fill the map; tenant "a" spends its burst and the first
  // token after it, idles until a call of tenant "b" evicts it, and does the same once more.

  /** A run of calls, when it ends, what it leaves and what it granted to "a". */
  datatype Stage = Stage(calls: seq<Call>, now: real, m: Buckets, granted: nat)

  ghost predicate Abused(maxBuckets: nat, q: Quota, s: Stage) {
    && TimesRise(s.calls)
    && (forall i | 0 <= i < |s.calls| :: s.calls[i].quota == q)
    && (if s.calls == [] then s.now == 0.0 else s.calls[0].now == 0.0 && s.calls[|s.calls| - 1].now == s.now)
    && RunAfter(maxBuckets, s.calls) == s.m
    && Grants(maxBuckets, s.calls, "a", 0, |s.calls|) == s.granted
  }

  lemma SameCosts(maxBuckets: nat, calls: seq<Call>, c: Call, tenant: string)
    ensures Costs(maxBuckets, calls + [c], tenant)[0..|calls|] == Costs(maxBuckets, calls, tenant)
  {
    forall i | 0 <= i < |calls|
      ensures Cost(maxBuckets, calls + [c], i, tenant) == Cost(maxBuckets, calls, i, tenant)
    {
      assert (calls + [c])[..i] == calls[..i];
    }
  }

  lemma OneMoreCall(maxBuckets: nat, q: Quota, s: Stage, tenant: string, later: real) returns (r: Stage)
    requires Sane(q) && Abused(maxBuckets, q, s)
    requires if s.calls == [] then later == 0.0 else s.now <= later
    ensures Abused(maxBuckets, q, r) && r.calls != [] && r.now == later
    ensures r.m == After(s.m, maxBuckets, tenant, q, later)
    ensures
      var gets := tenant == "a" && Reply(s.m, maxBuckets, tenant, q, later).Granted?;
      r.granted == s.granted + if gets then 1 else 0
  {
    var c := Call(tenant, q, later);
    var longer, n := s.calls + [c], |s.calls|;
    assert longer[..n] == s.calls;
    SameCosts(maxBuckets, s.calls, c, "a");
    OneMoreGrant(maxBuckets, longer, "a", 0, n + 1);
    var costs := Costs(maxBuckets, s.calls, "a");
    assert costs[0..n] == costs;
    r := Stage(longer, later, After(s.m, maxBuckets, tenant, q, later), Grants(maxBuckets, longer, "a", 0, n + 1));
  }

  lemma FreshCall(m: Buckets, maxBuckets: nat, tenant: string, q: Quota, now: real)
    requires tenant !in m && |m| < maxBuckets && Sane(q) && q.burst >= 1.0
    ensures Reply(m, maxBuckets, tenant, q, now).Granted?
    ensures After(m, maxBuckets, tenant, q, now) == m[tenant := Bucket(q.burst - 1.0, now)]
  {
  }

  lemma CallAtOnce(m: Buckets, maxBuckets: nat, tenant: string, q: Quota, now: real)
    requires tenant in m && m[tenant].last == now && m[tenant].tokens >= 1.0 && Sane(q)
    ensures Reply(m, maxBuckets, tenant, q, now).Granted?
    ensures After(m, maxBuckets, tenant, q, now) == m[tenant := Bucket(m[tenant].tokens - 1.0, now)]
  {
  }

  lemma CallInTime(m: Buckets, maxBuckets: nat, tenant: string, q: Quota, now: real)
    requires tenant in m && m[tenant].last < now && Sane(q) && q.burst >= 1.0
    requires m[tenant].tokens + Earned(q, m[tenant].last, now) == 1.0
    ensures Reply(m, maxBuckets, tenant, q, now).Granted?
    ensures After(m, maxBuckets, tenant, q, now) == m[tenant := Bucket(0.0, now)]
  {
  }

  /** The tenants that fill the map. */
  function Filler(k: nat): (r: string)
    ensures |r| == k + 1 && r[0] == 'c'
  {
    seq(k + 1, _ => 'c')
  }

  ghost predicate Filled(m: Buckets, k: nat) {
    |m| == k && forall t | t in m :: m[t].last == 0.0 && 0 < |t| <= k && t[0] == 'c'
  }

  lemma {:induction false} Fill(maxBuckets: nat, q: Quota, k: nat) returns (s: Stage)
    requires k < maxBuckets && Sane(q) && q.burst >= 1.0
    ensures Abused(maxBuckets, q, s) && Filled(s.m, k) && s.now == 0.0 && s.granted == 0
    ensures k > 0 ==> s.calls != []
  {
    if k == 0 {
      s := Stage([], 0.0, map[], 0);
      NoGrantsYet(maxBuckets, [], "a", 0);
    } else {
      var before := Fill(maxBuckets, q, k - 1);
      var tenant := Filler(k - 1);
      FreshCall(before.m, maxBuckets, tenant, q, 0.0);
      s := OneMoreCall(maxBuckets, q, before, tenant, 0.0);
      OneCallAddsOne(before.m, s.m, tenant);
    }
  }

  /** The map with another bucket of "a". */
  function BucketOfA(m: Buckets, tokens: real, last: real): (r: Buckets)
    ensures r.Keys == m.Keys + {"a"} && r["a"] == Bucket(tokens, last)
    ensures forall k | k in m && k != "a" :: r[k] == m[k]
  {
    m["a" := Bucket(tokens, last)]
  }

  lemma TwiceOfA(m: Buckets, tokens: real, last: real, tokens': real, last': real)
    ensures BucketOfA(BucketOfA(m, tokens, last), tokens', last') == BucketOfA(m, tokens', last')
  {
  }

  /** "a" can be granted a token at the instant of the stage and then has so many left. */
  predicate CanSpend(maxBuckets: nat, q: Quota, s: Stage, left: real) {
    if "a" in s.m then s.m["a"] == Bucket(left + 1.0, s.now) else |s.m| < maxBuckets && left + 1.0 == q.burst
  }

  lemma SpendOne(maxBuckets: nat, q: Quota, s: Stage, left: real) returns (r: Stage)
    requires Sane(q) && q.burst >= 1.0 && left >= 0.0 && s.calls != []
    requires Abused(maxBuckets, q, s) && CanSpend(maxBuckets, q, s, left)
    ensures Abused(maxBuckets, q, r) && r.calls != [] && r.now == s.now && r.granted == s.granted + 1
    ensures r.m == BucketOfA(s.m, left, s.now)
  {
    if "a" in s.m {
      CallAtOnce(s.m, maxBuckets, "a", q, s.now);
    } else {
      FreshCall(s.m, maxBuckets, "a", q, s.now);
    }
    r := OneMoreCall(maxBuckets, q, s, "a", s.now);
  }

  /** "a" calls n times at one instant. */
  lemma {:induction false} Spend(maxBuckets: nat, q: Quota, s: Stage, n: nat, left: real) returns (r: Stage)
    requires Sane(q) && 0 < n && q.burst == n as real + left && left >= 0.0 && s.calls != []
    requires Abused(maxBuckets, q, s) && "a" !in s.m && |s.m| < maxBuckets
    ensures Abused(maxBuckets, q, r) && r.calls != [] && r.now == s.now && r.granted == s.granted + n
    ensures r.m == BucketOfA(s.m, left, s.now)
  {
    if n == 1 {
      r := SpendOne(maxBuckets, q, s, left);
    } else {
      var before := Spend(maxBuckets, q, s, n - 1, left + 1.0);
      r := SpendOne(maxBuckets, q, before, left);
      TwiceOfA(s.m, left + 1.0, s.now, left, s.now);
    }
  }

  /** How long a bucket that holds a part of a token takes to hold a whole one. */
  function NextToken(q: Quota, part: real): (t: real)
    requires q.maxCreatePerSecond > 0.0 && part < 1.0
    ensures t > 0.0 && t * q.maxCreatePerSecond == 1.0 - part
  {
    (1.0 - part) / q.maxCreatePerSecond
  }

  lemma EarnedAfter(q: Quota, now: real, t: real)
    ensures Earned(q, now, now + t) == t * q.maxCreatePerSecond
  {
  }

  lemma Later(maxBuckets: nat, q: Quota, s: Stage, t: real) returns (r: Stage)
    requires Sane(q) && q.burst >= 1.0 && s.calls != [] && "a" in s.m && s.m["a"].last == s.now && t > 0.0
    requires s.m["a"].tokens + t * q.maxCreatePerSecond == 1.0
    requires Abused(maxBuckets, q, s)
    ensures Abused(maxBuckets, q, r) && r.calls != [] && r.now == s.now + t && r.granted == s.granted + 1
    ensures r.m == BucketOfA(s.m, 0.0, r.now)
  {
    EarnedAfter(q, s.now, t);
    CallInTime(s.m, maxBuckets, "a", q, s.now + t);
    r := OneMoreCall(maxBuckets, q, s, "a", s.now + t);
  }

  /** ... and once more when the next token is there. */
  lemma Cycle(maxBuckets: nat, q: Quota, s: Stage, n: nat, left: real, t: real) returns (r: Stage)
    requires Sane(q) && 0 < n && q.burst == n as real + left && left >= 0.0 && s.calls != []
    requires t > 0.0 && left + t * q.maxCreatePerSecond == 1.0
    requires Abused(maxBuckets, q, s) && "a" !in s.m && |s.m| < maxBuckets
    ensures Abused(maxBuckets, q, r) && r.calls != [] && r.now == s.now + t && r.granted == s.granted + n + 1
    ensures r.m == BucketOfA(s.m, 0.0, r.now)
  {
    var spent := Spend(maxBuckets, q, s, n, left);
    r := Later(maxBuckets, q, spent, t);
    TwiceOfA(s.m, left, s.now, 0.0, r.now);
  }

  /** With every bucket idle, a call of a new tenant leaves its bucket alone in the map. */
  lemma AllIdle(m: Buckets, maxBuckets: nat, tenant: string, q: Quota, now: real)
    requires |m| == maxBuckets > 0 && tenant !in m && Sane(q) && q.burst >= 1.0
    requires forall k | k in m :: now - m[k].last > IDLE_SECONDS
    ensures After(m, maxBuckets, tenant, q, now) == map[][tenant := Bucket(q.burst - 1.0, now)]
  {
    assert Cleared(m, now) == map[];
    FreshCall(map[], maxBuckets, tenant, q, now);
  }

  /** There is an instant at which the bucket is idle but not full. */
  lemma EvictedTooSoon(burst: real, rate: real) returns (t: real)
    requires rate > 0.0 && IDLE_SECONDS * rate < burst
    ensures IDLE_SECONDS < t && t * rate < burst
  {
    var full := burst / rate;
    assert full * rate == burst;
    assert full > IDLE_SECONDS;
    t := (IDLE_SECONDS + full) / 2.0;
    assert (full - t) * rate > 0.0;
  }

  /** Every bucket idle, one call of "b" leaves nothing but its own. */
  lemma Evict(maxBuckets: nat, q: Quota, s: Stage, idle: real) returns (r: Stage)
    requires Sane(q) && q.burst >= 1.0 && |s.m| == maxBuckets > 0 && "b" !in s.m && s.calls != []
    requires idle > IDLE_SECONDS && forall k | k in s.m :: s.m[k].last <= s.now
    requires Abused(maxBuckets, q, s)
    ensures Abused(maxBuckets, q, r) && r.calls != [] && r.now == s.now + idle && r.granted == s.granted
    ensures |r.m| == 1 && "a" !in r.m
  {
    AllIdle(s.m, maxBuckets, "b", q, s.now + idle);
    r := OneMoreCall(maxBuckets, q, s, "b", s.now + idle);
    OneCallAddsOne(map[], r.m, "b");
  }

  lemma ReadyToEvict(filled: Buckets, k: nat, t: real)
    requires Filled(filled, k) && t > 0.0
    ensures var full := BucketOfA(filled, 0.0, t); |full| == k + 1 && "b" !in full
    ensures var full := BucketOfA(filled, 0.0, t); forall k | k in full :: full[k].last <= t
  {
    OneCallAddsOne(filled, BucketOfA(filled, 0.0, t), "a");
  }

  /** Two cycles with an eviction between them. */
  lemma TwoCycles(maxBuckets: nat, q: Quota, n: nat, left: real, t: real, idle: real) returns (s: Stage)
    requires maxBuckets >= 2 && Sane(q) && 0 < n && q.burst == n as real + left && left >= 0.0
    requires t > 0.0 && left + t * q.maxCreatePerSecond == 1.0 && idle > IDLE_SECONDS
    ensures s.calls != [] && Abused(maxBuckets, q, s) && s.now == t + idle + t && s.granted == 2 * (n + 1)
  {
    var filled := Fill(maxBuckets, q, maxBuckets - 1);
    var first := Cycle(maxBuckets, q, filled, n, left, t);
    ReadyToEvict(filled.m, maxBuckets - 1, t);
    var evicted := Evict(maxBuckets, q, first, idle);
    s := Cycle(maxBuckets, q, evicted, n, left, t);
  }

  /** Two cycles cost two bursts and two tokens, and time added one token each and less than a burst. */
  lemma TooMuch(q: Quota, n: nat, left: real, t: real, idle: real)
    requires left + t * q.maxCreatePerSecond == 1.0 && q.burst == n as real + left
    requires idle * q.maxCreatePerSecond < q.burst
    ensures (2 * (n + 1)) as real > q.burst + Earned(q, 0.0, t + idle + t)
  {
    assert Earned(q, 0.0, t + idle + t)
        == t * q.maxCreatePerSecond + idle * q.maxCreatePerSecond + t * q.maxCreatePerSecond;
  }

  lemma AbuseExceeds(maxBuckets: nat, q: Quota, s: Stage)
    requires Sane(q) && Abused(maxBuckets, q, s) && s.calls != []
    requires s.granted as real > q.burst + Earned(q, 0.0, s.now)
    ensures TimesRise(s.calls) && QuotaIs(s.calls, "a", q)
    ensures
      Grants(maxBuckets, s.calls, "a", 0, |s.calls|) as real
      > q.burst + Earned(q, s.calls[0].now, s.calls[|s.calls| - 1].now)
  {
  }

  lemma WholeTokens(burst: real) returns (n: nat, left: real)
    requires burst >= 1.0
    ensures 0 < n && burst == n as real + left && 0.0 <= left < 1.0
  {
    n := burst.Floor as nat;
    left := burst - n as real;
  }

  lemma BoundIsBroken(maxBuckets: nat, q: Quota) returns (calls: seq<Call>)
    requires maxBuckets >= 2 && Sane(q) && q.burst >= 1.0 && !FullBeforeIdle(q)
    ensures calls != [] && TimesRise(calls) && QuotaIs(calls, "a", q)
    ensures
      Grants(maxBuckets, calls, "a", 0, |calls|) as real
      > q.burst + Earned(q, calls[0].now, calls[|calls| - 1].now)
  {
    var n, left := WholeTokens(q.burst);
    var idle := EvictedTooSoon(q.burst, q.maxCreatePerSecond);
    calls := TooManyGrants(maxBuckets, q, n, left, NextToken(q, left), idle);
  }

  lemma TooManyGrants(maxBuckets: nat, q: Quota, n: nat, left: real, t: real, idle: real) returns (calls: seq<Call>)
    requires maxBuckets >= 2 && Sane(q) && 0 < n && q.burst == n as real + left && left >= 0.0
    requires t > 0.0 && left + t * q.maxCreatePerSecond == 1.0
    requires idle > IDLE_SECONDS && idle * q.maxCreatePerSecond < q.burst
    ensures calls != [] && TimesRise(calls) && QuotaIs(calls, "a", q)
    ensures
      Grants(maxBuckets, calls, "a", 0, |calls|) as real
      > q.burst + Earned(q, calls[0].now, calls[|calls| - 1].now)
  {
    var s := TwoCycles(maxBuckets, q, n, left, t, idle);
    TooMuch(q, n, left, t, idle);
    AbuseExceeds(maxBuckets, q, s);
    calls := s.calls;
  }

  /** The window bound holds of all runs of a limiter with room for two buckets or more if and only
      if the tenant's burst is below one token, or its bucket refills before it counts as idle. */
  lemma WindowBoundIff(maxBuckets: nat, q: Quota)
    requires maxBuckets >= 2 && Sane(q)
    ensures BoundHolds(maxBuckets, q) <==> q.burst < 1.0 || FullBeforeIdle(q)
  {
    if q.burst < 1.0 || FullBeforeIdle(q) {
      forall calls: seq<Call>, tenant: string, i: nat, j: nat
        | i < j <= |calls| && TimesRise(calls) && QuotaIs(calls, tenant, q)
        ensures
          Grants(maxBuckets, calls, tenant, i, j) as real
          <= q.burst + Earned(q, calls[i].now, calls[j - 1].now)
      {
        BoundIsKept(maxBuckets, calls, tenant, q, i, j);
      }
    } else {
      var calls := BoundIsBroken(maxBuckets, q);
      var n := |calls|;
      assert Grants(maxBuckets, calls, "a", 0, n) as real > q.burst + Earned(q, calls[0].now, calls[n - 1].now);
    }
  }
}
