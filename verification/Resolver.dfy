/** internal/isolation/resolver.go: from a wanted isolation level to one the cluster can run now,
    with a cache of what was found out. Every operation is atomic. */
module Resolver {
  import opened Api
  import opened Levels

  datatype Policy = FailFast | FallbackToRunc | PauseScaling

  datatype Reason =
    | OK
    | DefaultRuntime
    | FallbackApplied
    | RuntimeClassMissing
    | NoFallbackAvailable
    | UnknownLevel

  datatype Availability = Availability(
    requestedLevel: string,
    level: string,
    spec: Option<LevelSpec>,
    available: bool,
    degraded: bool,
    reason: Reason)

  datatype Answer = Exists | Missing | ProbeError

  /** The RuntimeClasses of the cluster as the probe sees them at one instant. */
  type Probe = string -> Answer

  datatype Result = Resolved(av: Availability) | Err

  const DEFAULT_CACHE_TTL := 300

  // ---- Candidates ----

  /** The first n fallbacks, as far as they are configured and were not there before. */
  function Chain(c: Config, want: string, fallbacks: seq<string>): seq<string> {
    if fallbacks == [] then [want]
    else
      var before := Chain(c, want, fallbacks[..|fallbacks| - 1]);
      var fb := fallbacks[|fallbacks| - 1];
      if fb in before || fb !in c.levels then before else before + [fb]
  }

  function Candidates(c: Config, want: string, policy: Policy): seq<string>
    requires want in c.levels
  {
    if policy.FallbackToRunc? then Chain(c, want, c.levels[want].fallbacks) else [want]
  }

  method CollectCandidates(c: Config, want: string, policy: Policy) returns (chain: seq<string>)
    requires want in c.levels
    ensures chain == Candidates(c, want, policy)
  {
    chain := [want];
    if !policy.FallbackToRunc? {
      return;
    }
    var fallbacks := c.levels[want].fallbacks;
    var seen := {want};
    for i := 0 to |fallbacks|
      invariant chain == Chain(c, want, fallbacks[..i])
      invariant forall l :: l in seen <==> l in chain
    {
      assert fallbacks[..i + 1][..i] == fallbacks[..i];
      var fb := fallbacks[i];
      if fb !in seen && fb in c.levels {
        seen := seen + {fb};
        chain := chain + [fb];
      }
    }
    assert fallbacks[..|fallbacks|] == fallbacks;
  }

  /** The chain starts with the wanted level, names no level twice, and holds just the configured
      fallbacks besides. */
  lemma {:induction false} ChainIsExact(c: Config, want: string, fallbacks: seq<string>)
    requires want in c.levels
    ensures
      var chain := Chain(c, want, fallbacks);
      && chain != [] && chain[0] == want
      && (forall i, j | 0 <= i < j < |chain| :: chain[i] != chain[j])
      && (forall l :: l in chain <==> l == want || (l in fallbacks && l in c.levels))
  {
    if fallbacks != [] {
      var n := |fallbacks| - 1;
      ChainIsExact(c, want, fallbacks[..n]);
      assert fallbacks == fallbacks[..n] + [fallbacks[n]];
    }
  }

  lemma CandidatesAreConfigured(c: Config, want: string, policy: Policy)
    requires want in c.levels
    ensures forall l | l in Candidates(c, want, policy) :: l in c.levels
    ensures |Candidates(c, want, policy)| >= 1 && Candidates(c, want, policy)[0] == want
  {
    ChainIsExact(c, want, c.levels[want].fallbacks);
  }

  // ---- Resolution ----

  function ProbeLevel(probe: Probe, spec: LevelSpec): Answer {
    if spec.runtimeClassName == "" then Exists else probe(spec.runtimeClassName)
  }

  function LevelAnswer(c: Config, probe: Probe, level: string): Answer {
    if level in c.levels then ProbeLevel(probe, c.levels[level]) else Missing
  }

  function Found(c: Config, want: string, level: string): Availability {
    var spec := if level in c.levels then Some(c.levels[level]) else None;
    Availability(want, level, spec, true, level != want,
                 if level != want then FallbackApplied
                 else if spec.Some? && spec.value.runtimeClassName == "" then DefaultRuntime
                 else OK)
  }

  /** The number of leading candidates that are missing. */
  function MissingPrefix(c: Config, probe: Probe, chain: seq<string>): nat {
    if chain == [] || !LevelAnswer(c, probe, chain[0]).Missing? then 0 else 1 + MissingPrefix(c, probe, chain[1..])
  }

  function ResolveNow(c: Config, probe: Probe, policy: Policy, want: string): Result {
    if want !in c.levels then Resolved(Availability(want, want, None, false, false, UnknownLevel))
    else
      var chain := Candidates(c, want, policy);
      var k := MissingPrefix(c, probe, chain);
      if k < |chain| then
        if LevelAnswer(c, probe, chain[k]).ProbeError? then Err else Resolved(Found(c, want, chain[k]))
      else
        Resolved(Availability(want, want, Some(c.levels[want]), false, false,
                              if |chain| == 1 then RuntimeClassMissing else NoFallbackAvailable))
  }

  lemma {:induction false} PrefixIsMissing(c: Config, probe: Probe, chain: seq<string>)
    ensures
      var k := MissingPrefix(c, probe, chain);
      && k <= |chain| && (forall i | 0 <= i < k :: LevelAnswer(c, probe, chain[i]).Missing?)
      && (k < |chain| ==> !LevelAnswer(c, probe, chain[k]).Missing?)
  {
    if chain != [] && LevelAnswer(c, probe, chain[0]).Missing? {
      PrefixIsMissing(c, probe, chain[1..]);
    }
  }

  lemma PrefixIsUnique(c: Config, probe: Probe, chain: seq<string>, k: nat)
    requires k <= |chain| && forall i | 0 <= i < k :: LevelAnswer(c, probe, chain[i]).Missing?
    requires k < |chain| ==> !LevelAnswer(c, probe, chain[k]).Missing?
    ensures MissingPrefix(c, probe, chain) == k
  {
    PrefixIsMissing(c, probe, chain);
  }

  method ResolveUncached(c: Config, probe: Probe, policy: Policy, want: string) returns (r: Result)
    ensures r == ResolveNow(c, probe, policy, want)
  {
    if want !in c.levels {
      return Resolved(Availability(want, want, None, false, false, UnknownLevel));
    }
    var chain := CollectCandidates(c, want, policy);
    CandidatesAreConfigured(c, want, policy);
    for i := 0 to |chain|
      invariant forall j | 0 <= j < i :: LevelAnswer(c, probe, chain[j]).Missing?
    {
      assert chain[i] in chain;
      var spec := c.levels[chain[i]];
      var answer := ProbeLevel(probe, spec);
      if !answer.Missing? {
        PrefixIsUnique(c, probe, chain, i);
        if answer.ProbeError? {
          return Err;
        }
        var reason :=
          if chain[i] != want then FallbackApplied
          else if spec.runtimeClassName == "" then DefaultRuntime
          else OK;
        return Resolved(Availability(want, chain[i], Some(spec), true, chain[i] != want, reason));
      }
    }
    PrefixIsUnique(c, probe, chain, |chain|);
    return Resolved(Availability(want, want, Some(c.levels[want]), false, false,
                                 if |chain| == 1 then RuntimeClassMissing else NoFallbackAvailable));
  }

  predicate AllMissing(c: Config, probe: Probe, chain: seq<string>, n: nat)
    requires n <= |chain|
  {
    forall i | 0 <= i < n :: LevelAnswer(c, probe, chain[i]).Missing?
  }

  /** What a resolution means: the level it gives is the first of the chain that the cluster can run,
      degraded if and only if it is not the one asked for; none is given only if all are missing;
      and it fails only if a probe failed before any level was found. */
  lemma ResolutionIsFirstAvailable(c: Config, probe: Probe, policy: Policy, want: string)
    requires want in c.levels
    ensures
      var r, chain := ResolveNow(c, probe, policy, want), Candidates(c, want, policy);
      && (r.Resolved? && r.av.available ==>
            && (exists k | 0 <= k < |chain| ::
                  chain[k] == r.av.level && LevelAnswer(c, probe, chain[k]).Exists? && AllMissing(c, probe, chain, k))
            && (r.av.degraded <==> r.av.level != want) && (r.av.degraded ==> policy.FallbackToRunc?)
            && r.av.level in c.levels && r.av.spec == Some(c.levels[r.av.level]))
      && (r.Resolved? && !r.av.available ==>
            && AllMissing(c, probe, chain, |chain|)
            && !r.av.degraded && r.av.level == want)
      && (r.Err? <==>
            exists k | 0 <= k < |chain| ::
              LevelAnswer(c, probe, chain[k]).ProbeError? && AllMissing(c, probe, chain, k))
  {
    var chain := Candidates(c, want, policy);
    CandidatesAreConfigured(c, want, policy);
    PrefixIsMissing(c, probe, chain);
    var k := MissingPrefix(c, probe, chain);
    if k < |chain| {
      assert chain[k] in chain;
    }
    forall j | 0 <= j < |chain| && AllMissing(c, probe, chain, j)
      ensures j <= k
    {
    }
  }

  // ---- The cache ----

  /** A resolution that was really made: when, of what, and what the probe saw. */
  datatype Made = Made(at: int, level: string, probe: Probe, av: Availability)

  /** The entry is what some resolution between the two instants gave. */
  predicate Backed(made: seq<Made>, level: string, av: Availability, since: int, until: int) {
    exists i | 0 <= i < |made| :: made[i].level == level && made[i].av == av && since <= made[i].at <= until
  }

  predicate AllBacked(made: seq<Made>, cache: map<string, Availability>, since: int, until: int) {
    forall l | l in cache :: Backed(made, l, cache[l], since, until)
  }

  lemma BackedLater(made: seq<Made>, longer: seq<Made>, cache: map<string, Availability>, since: int, until: int,
      later: int)
    requires AllBacked(made, cache, since, until) && made <= longer && until <= later
    ensures AllBacked(longer, cache, since, later)
  {
    forall l | l in cache
      ensures Backed(longer, l, cache[l], since, later)
    {
      var i :| 0 <= i < |made| && made[i].level == l && made[i].av == cache[l] && since <= made[i].at <= until;
      assert longer[i] == made[i];
    }
  }

  lemma OneMoreBacked(made: seq<Made>, cache: map<string, Availability>, since: int, m: Made)
    requires AllBacked(made, cache, since, m.at) && since <= m.at
    ensures AllBacked(made + [m], cache[m.level := m.av], since, m.at)
    ensures Backed(made + [m], m.level, m.av, m.at, m.at)
  {
    BackedLater(made, made + [m], cache, since, m.at, m.at);
    assert (made + [m])[|made|] == m;
  }

  class CachingResolver {
    var cfg: Config
    const policy: Policy
    const cacheTtl: int
    var cache: map<string, Availability>
    var cachedAt: Option<int>
    ghost var made: seq<Made> // since the configuration or the probe last changed
    ghost var clock: int // the latest instant this object has seen

    ghost predicate Valid()
      reads this
    {
      && cacheTtl > 0
      && (forall i | 0 <= i < |made| :: ResolveNow(cfg, made[i].probe, policy, made[i].level) == Resolved(made[i].av))
      && (cachedAt.None? ==> cache == map[])
      && (cachedAt.Some? ==>
            cachedAt.value <= clock && AllBacked(made, cache, cachedAt.value, clock))
    }

    constructor (cfg: Config, policy: Policy, ttl: int, now: int)
      ensures Valid() && this.cfg == cfg && this.policy == policy && clock == now && made == []
      ensures cacheTtl == if ttl > 0 then ttl else DEFAULT_CACHE_TTL
    {
      this.cfg, this.policy := cfg, policy;
      cacheTtl := if ttl > 0 then ttl else DEFAULT_CACHE_TTL;
      cache, cachedAt := map[], None;
      made, clock := [], now;
    }

    /** SetConfig, for a configuration that is there. */
    method SetConfig(c: Config)
      requires Valid()
      modifies this
      ensures Valid() && cfg == c && cache == map[] && made == [] && clock == old(clock)
    {
      cfg := c;
      cache, cachedAt := map[], None;
      made := [];
    }

    /** SetProbe: what an earlier probe saw counts no more. */
    method SetProbe()
      requires Valid()
      modifies this
      ensures Valid() && cfg == old(cfg) && cache == map[] && made == [] && clock == old(clock)
    {
      cache, cachedAt := map[], None;
      made := [];
    }

    method Invalidate()
      requires Valid()
      modifies this
      ensures Valid() && cfg == old(cfg) && cache == map[] && made == old(made) && clock == old(clock)
    {
      cache, cachedAt := map[], None;
    }

    predicate Expired(now: int)
      reads this
    {
      cachedAt.None? || now - cachedAt.value > cacheTtl
    }

    /** An answer is what resolving without a cache gave, under this configuration and this probe,
        now or at an instant at most the TTL ago; a failure is passed on and leaves no trace. */
    method Resolve(level: string, probe: Probe, now: int) returns (r: Result)
      requires Valid() && clock <= now
      modifies this
      ensures Valid() && cfg == old(cfg) && clock == now
      ensures r.Resolved? ==> Backed(made, level, r.av, now - cacheTtl, now)
      ensures
        made == old(made)
        || (r.Resolved? && r == ResolveNow(cfg, probe, policy, level)
            && made == old(made) + [Made(now, level, probe, r.av)])
      ensures r.Err? ==> r == ResolveNow(cfg, probe, policy, level) && cache == old(cache) && made == old(made)
      ensures
        if !old(Expired(now)) && level in old(cache) then r == Resolved(old(cache)[level])
            && made == old(made) && cache == old(cache)
        else r == ResolveNow(cfg, probe, policy, level)
      ensures r.Resolved? ==> level in cache && cache[level] == r.av && !Expired(now)
    {
      if cachedAt.Some? {
        BackedLater(made, made, cache, cachedAt.value, clock, now);
      }
      clock := now;
      if !Expired(now) && level in cache {
        assert Backed(made, level, cache[level], cachedAt.value, now);
        return Resolved(cache[level]);
      }
      r := ResolveUncached(cfg, probe, policy, level);
      if r.Err? {
        return;
      }
      if Expired(now) {
        cache, cachedAt := map[], Some(now);
      }
      ghost var m := Made(now, level, probe, r.av);
      OneMoreBacked(made, cache, cachedAt.value, m);
      made := made + [m];
      cache := cache[level := r.av];
    }
  }
}
