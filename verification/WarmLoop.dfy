/** The closed loop of a pool under a constant claim rate and hit ratio: the smoothed demand
    settles, and from then on the stock walks to the target without ever crossing it. */
module WarmLoop {
  import opened Api
  import opened Rounding
  import opened Scaling
  import opened ScalingRuns

  // ---- The smoother ----

  function Mix(alpha: real, x: real, p: real): real {
    alpha * x + (1.0 - alpha) * p
  }

  /** The demand persisted after a round that saw demand x and remembered p. */
  function Smoothed(alpha: real, x: real, p: int): int {
    Round(Mix(alpha, x, p as real))
  }

  function Iterated(alpha: real, x: real, p: int, n: nat): int {
    if n == 0 then p else Smoothed(alpha, x, Iterated(alpha, x, p, n - 1))
  }

  predicate IsAlpha(alpha: real) {
    0.05 <= alpha <= 1.0
  }

  lemma Scale(a: real, u: real, v: real)
    requires a > 0.0
    ensures a * u <= a * v <==> u <= v
  {
    if u <= v {
      assert a * (v - u) >= 0.0;
    } else {
      assert a * (u - v) > 0.0;
    }
  }

  lemma SignOf(a: real, d: real)
    requires a >= 0.0
    ensures d >= 0.0 ==> a * d >= 0.0
    ensures d <= 0.0 ==> a * d <= 0.0
  {
  }

  lemma MixForms(alpha: real, x: real, p: real, d: real, rest: real)
    requires d == x - p && rest == 1.0 - alpha
    ensures Mix(alpha, x, p) == p + alpha * d && Mix(alpha, x, p) == x - rest * d
  {
  }

  lemma MixIsBetween(alpha: real, x: real, p: real) returns (mix: real)
    requires IsAlpha(alpha)
    ensures mix == Mix(alpha, x, p) && mix == p + alpha * (x - p)
    ensures p <= x ==> p <= mix <= x
    ensures x <= p ==> x <= mix <= p
  {
    mix := Mix(alpha, x, p);
    var d, rest := x - p, 1.0 - alpha;
    MixForms(alpha, x, p, d, rest);
    SignOf(alpha, d);
    SignOf(rest, d);
  }

  /** Smoothing moves towards the demand and never beyond it, up to rounding. */
  lemma SmoothingApproaches(alpha: real, x: real, p: int)
    requires IsAlpha(alpha)
    ensures p as real <= x ==> p <= Smoothed(alpha, x, p) <= Round(x)
    ensures x <= p as real ==> Round(x) <= Smoothed(alpha, x, p) <= p
  {
    var q := p as real;
    var mix := MixIsBetween(alpha, x, q);
    RoundOfInteger(p);
    if q <= x {
      RoundIsMonotone(q, mix);
      RoundIsMonotone(mix, x);
    }
    if x <= q {
      RoundIsMonotone(x, mix);
      RoundIsMonotone(mix, q);
    }
  }

  /** Where smoothing stalls: within half a unit of correction, that is within 1/(2*alpha) of the
      demand; the half itself may go either way. */
  lemma {:induction false} StallsNearDemand(alpha: real, x: real, p: int)
    requires IsAlpha(alpha)
    ensures Smoothed(alpha, x, p) == p ==> -0.5 <= alpha * (x - p as real) <= 0.5
    ensures -0.5 < alpha * (x - p as real) < 0.5 ==> Smoothed(alpha, x, p) == p
    ensures Smoothed(alpha, x, p) == p ==> p as real - 1.0 / (2.0 * alpha) <= x <= p as real + 1.0 / (2.0 * alpha)
  {
    var mix := MixIsBetween(alpha, x, p as real);
    RoundIsNear(mix);
    if Smoothed(alpha, x, p) == p {
      DivideOut(alpha, x - p as real);
    }
  }

  lemma DivideOut(alpha: real, d: real)
    requires IsAlpha(alpha) && -0.5 <= alpha * d <= 0.5
    ensures -(1.0 / (2.0 * alpha)) <= d <= 1.0 / (2.0 * alpha)
  {
    var b := 1.0 / (2.0 * alpha);
    assert alpha * b == 0.5;
    assert alpha * -b == -0.5;
    Scale(alpha, d, b);
    Scale(alpha, -b, d);
  }

  /** The smoother is settled after as many rounds as it is away from the rounded demand, and it
      only ever moved towards it. */
  lemma {:induction false} SmootherSettles(alpha: real, x: real, p: int, n: nat)
    requires IsAlpha(alpha)
    ensures
      var q := Iterated(alpha, x, p, n);
      && (p as real <= x ==> p <= q && (q as real <= x || q == Round(x)))
      && (x <= p as real ==> q <= p && (x <= q as real || q == Round(x)))
      && (Smoothed(alpha, x, q) == q || Abs(Round(x) - q) + n <= Abs(Round(x) - p))
  {
    if n > 0 {
      SmootherSettles(alpha, x, p, n - 1);
      var o := Iterated(alpha, x, p, n - 1);
      SmoothingApproaches(alpha, x, o);
      SmoothedIsOnSide(alpha, x, o);
      SmoothingApproaches(alpha, x, Smoothed(alpha, x, o));
    }
  }

  lemma SmoothedIsOnSide(alpha: real, x: real, p: int)
    requires IsAlpha(alpha)
    ensures p as real <= x ==> Smoothed(alpha, x, p) as real <= x || Smoothed(alpha, x, p) == Round(x)
    ensures x <= p as real ==> x <= Smoothed(alpha, x, p) as real || Smoothed(alpha, x, p) == Round(x)
  {
    SmoothingApproaches(alpha, x, p);
    RoundIsNear(x);
  }

  // ---- The loop ----

  /** The pool as the loop sees it: memory and status, and the usable stock. */
  datatype Pool = Pool(s: State, warm: int)

  /** What may differ from one settled round to the next. */
  datatype Tick = Tick(now: int, protectActive: bool)

  /** What stays the same: the spec, the claim rate and the hit ratio. */
  datatype Load = Load(sc: PoolSpec, rate: real, hitRatioPermille: int)

  /** A settled round: nothing in flight, no limit on nodes, a status write that wins. */
  function Sees(l: Load, warm: int, t: Tick): Observation {
    Observation(t.now, warm, 0, 0, l.rate, l.hitRatioPermille, None, 0, 0, -1, t.protectActive)
  }

  function Limit(l: Load, delta: int, t: Tick): int {
    if delta > 0 then LimitUp(l.sc, Sees(l, 0, t)) else MaxReclaim(l.sc)
  }

  /** Everything that was decided is carried out. */
  function RoundOf(l: Load, p: Pool, t: Tick): PoolRound {
    var r := PoolRound(l.sc, Sees(l, p.warm, t), true, 0, Committed);
    r.(moved := Abs(Decided(p.s, r).delta))
  }

  function Ticked(l: Load, p: Pool, t: Tick): Pool {
    var r := RoundOf(l, p, t);
    Pool(Next(p.s, r), p.warm + Moved(p.s, r))
  }

  function TickedAll(l: Load, p: Pool, ticks: seq<Tick>): Pool {
    if ticks == [] then p else Ticked(l, TickedAll(l, p, ticks[..|ticks| - 1]), ticks[|ticks| - 1])
  }

  /** The target while p is the persisted demand. */
  function SettledTarget(l: Load, p: int): int {
    Target(l.sc, Sees(l, 0, Tick(0, false)).(predictedDemand := p))
  }

  function GapOf(l: Load, p: Pool): int {
    SettledTarget(l, p.s.predicted) - p.warm
  }

  predicate SameSide(a: int, b: int) {
    (a >= 0 && 0 <= b <= a) || (a <= 0 && a <= b <= 0)
  }

  /** The pool is neither drained nor paused, and its floor is below its ceiling. */
  predicate Open(l: Load) {
    !Gated(l.sc) && (l.sc.maxWarm <= 0 || l.sc.minWarm <= l.sc.maxWarm)
  }

  /** The demand that a round with p persisted persists in its turn. */
  function NextDemand(l: Load, p: int): int {
    Rounding.Round(Demand(l.sc, Sees(l, 0, Tick(0, false)).(predictedDemand := p)))
  }

  /** The smoother of an open pool is settled. */
  predicate Settled(l: Load, p: Pool) {
    Open(l) && NextDemand(l, p.s.predicted) == p.s.predicted
  }

  /** The last moves were few turns ago, and the next ones go the same way. */
  predicate Quiet(h: seq<ScaleEvent>, up: bool) {
    Sorted(h) && (Reversals(h) <= 1 || (Reversals(h) <= 2 && h[|h| - 1].up == up))
  }

  predicate CooledDown(l: Load, s: State, now: int) {
    && (s.lastAt.Some? ==>
          now - s.lastAt.value >= l.sc.scaleUpCooldown && now - s.lastAt.value >= l.sc.scaleDownCooldown)
    && (s.history != [] ==> s.history[|s.history| - 1].at <= now)
  }

  function Shrunk(gap: int, limit: int): int
    requires limit > 0
  {
    if Abs(gap) <= limit then 0 else if gap > 0 then gap - limit else gap + limit
  }

  predicate InBand(l: Load, p: Pool) {
    WithinHysteresis(GapOf(l, p), SettledTarget(l, p.s.predicted), l.sc.hysteresisPermille)
  }

  function SeenSettled(l: Load, p: Pool, t: Tick): Observation {
    Sees(l, p.warm, t).(predictedDemand := p.s.predicted, lastScaleAt := p.s.lastAt,
      lastScaleDelta := p.s.lastDelta, reversals := RecentReversals(p.s.history, t.now))
  }

  /** What the controller observes in a settled round. */
  lemma SeenWhenSettled(l: Load, p: Pool, t: Tick)
    ensures Seen(p.s, RoundOf(l, p, t)) == SeenSettled(l, p, t)
    ensures Gap(l.sc, SeenSettled(l, p, t)) == GapOf(l, p)
    ensures Target(l.sc, SeenSettled(l, p, t)) == SettledTarget(l, p.s.predicted)
    ensures LimitUp(l.sc, SeenSettled(l, p, t)) == LimitUp(l.sc, Sees(l, 0, t))
  {
    SameTarget(l.sc, SeenSettled(l, p, t), Sees(l, 0, Tick(0, false)).(predictedDemand := p.s.predicted));
  }

  /** The largest admissible move of an open pool with no limit on nodes. */
  lemma LargestMove(sc: PoolSpec, o: Observation, delta: int)
    requires o.inflight == 0 && o.nodeHeadroom < 0 && Target(sc, o) >= sc.minWarm
    requires Admissible(sc, o, delta) && forall e :: Admissible(sc, o, e) ==> Abs(e) <= Abs(delta)
    ensures
      var limit := if Gap(sc, o) > 0 then LimitUp(sc, o) else MaxReclaim(sc);
      limit > 0 && Gap(sc, o) - delta == Shrunk(Gap(sc, o), limit)
  {
    LimitUpIsPositive(sc, o);
    var gap := Gap(sc, o);
    var limit := if gap > 0 then LimitUp(sc, o) else MaxReclaim(sc);
    var best := gap - Shrunk(gap, limit);
    assert Admissible(sc, o, best);
  }

  lemma RecentIsTail(h: seq<ScaleEvent>, now: int)
    requires Sorted(h)
    ensures RecentReversals(h, now) <= Reversals(h)
  {
    var k := KeptIsTail(h, now - OSCILLATION_WINDOW - 1);
    TailReversesLess(h, k);
  }

  /** One round: nothing in the hysteresis band, and outside it the gap to the target of the round
      shrinks by the rate limit or closes. */
  lemma TickShrinksGap(l: Load, p: Pool, t: Tick)
    requires Open(l) && CooledDown(l, p.s, t.now)
    requires Sorted(p.s.history) && Reversals(p.s.history) < MAX_REVERSALS
    ensures
      var limit := Limit(l, GapOf(l, p), t);
      && limit > 0
      && Decided(p.s, RoundOf(l, p, t)).delta
         == if InBand(l, p) then 0 else GapOf(l, p) - Shrunk(GapOf(l, p), limit)
  {
    SeenWhenSettled(l, p, t);
    var o := SeenSettled(l, p, t);
    RecentIsTail(p.s.history, t.now);
    DecisionIsLargestAdmissible(l.sc, o);
    TargetWithinBounds(l.sc, o);
    LimitUpIsPositive(l.sc, o);
    NotCoolingDown(l, p, t);
    var d := DecideScaling(l.sc, o);
    if !InBand(l, p) {
      LargestMove(l.sc, o, d.delta);
    }
  }

  lemma NotCoolingDown(l: Load, p: Pool, t: Tick)
    requires CooledDown(l, p.s, t.now)
    ensures forall dir: Action :: !CoolingDown(l.sc, SeenSettled(l, p, t), dir)
  {
  }

  predicate Good(l: Load, p: Pool, up: bool, now: int) {
    && Settled(l, p) && Quiet(p.s.history, up) && CooledDown(l, p.s, now)
    && (GapOf(l, p) > 0 ==> up) && (GapOf(l, p) < 0 ==> !up)
  }

  lemma LongerIsQuiet(h: seq<ScaleEvent>, e: ScaleEvent)
    requires Quiet(h, e.up) && (h != [] ==> h[|h| - 1].at <= e.at)
    ensures Quiet(h + [e], e.up)
  {
    LongerIsSorted(h, e);
    OneMoreEvent(h, e);
  }

  /** One move in the known direction keeps memory quiet. */
  lemma MoveKeepsQuiet(h: seq<ScaleEvent>, up: bool, now: int)
    requires Quiet(h, up) && (h != [] ==> h[|h| - 1].at <= now)
    ensures
      var kept := Kept(h + [ScaleEvent(now, up)], now - OSCILLATION_WINDOW);
      Quiet(kept, up) && kept != [] && kept[|kept| - 1].at == now
  {
    var longer := h + [ScaleEvent(now, up)];
    LongerIsQuiet(h, ScaleEvent(now, up));
    var k := KeptIsTail(longer, now - OSCILLATION_WINDOW);
    assert longer[|longer| - 1].at > now - OSCILLATION_WINDOW;
    TailIsQuiet(longer, k, up);
  }

  lemma TailIsQuiet(h: seq<ScaleEvent>, k: nat, up: bool)
    requires Quiet(h, up) && k < |h|
    ensures Quiet(h[k..], up) && h[k..][|h[k..]| - 1] == h[|h| - 1]
  {
    TailIsSorted(h, k);
    TailReversesLess(h, k);
  }

  /** A round that carries out everything it decided, and whose status write wins. */
  lemma FullRound(s: State, r: PoolRound)
    requires r.end.Committed? && r.moved == Abs(Decided(s, r).delta)
    ensures
      var d, t := Decided(s, r), Next(s, r);
      && Moved(s, r) == d.delta && t.predicted == d.predictedDemand
      && (d.delta == 0 ==> t.history == s.history && t.events == s.events && t.lastAt == s.lastAt)
      && (d.delta != 0 ==>
            && t.history == Kept(s.history + [ScaleEvent(r.o.now, d.delta > 0)], r.o.now - OSCILLATION_WINDOW)
            && t.events == s.events + [ScaleEvent(r.o.now, d.delta > 0)]
            && t.lastAt == Some(r.o.now))
  {
  }

  predicate Reached(p: Pool, q: Pool, now: int, delta: int) {
    && q.warm == p.warm + delta
    && q.s.predicted == p.s.predicted
    && (delta == 0 ==> q.s.history == p.s.history && q.s.events == p.s.events && q.s.lastAt == p.s.lastAt)
    && (delta != 0 ==>
          && q.s.history == Kept(p.s.history + [ScaleEvent(now, delta > 0)], now - OSCILLATION_WINDOW)
          && q.s.events == p.s.events + [ScaleEvent(now, delta > 0)]
          && q.s.lastAt == Some(now))
  }

  /** What one settled round does to the pool. */
  lemma TickMoves(l: Load, p: Pool, t: Tick)
    requires Settled(l, p)
    ensures Reached(p, Ticked(l, p, t), t.now, Decided(p.s, RoundOf(l, p, t)).delta)
  {
    SeenWhenSettled(l, p, t);
    SameTarget(l.sc, SeenSettled(l, p, t), Sees(l, 0, Tick(0, false)).(predictedDemand := p.s.predicted));
    DemandIsPersisted(l.sc, SeenSettled(l, p, t));
    FullRound(p.s, RoundOf(l, p, t));
  }

  lemma DemandIsPersisted(sc: PoolSpec, o: Observation)
    requires !Gated(sc)
    ensures DecideScaling(sc, o).predictedDemand == Rounding.Round(Demand(sc, o))
  {
  }

  /** Two settled rounds are a cooldown apart. */
  predicate SpacedBy(l: Load, before: int, after: int) {
    after - before >= l.sc.scaleUpCooldown && after - before >= l.sc.scaleDownCooldown && after >= before
  }

  lemma ReachedIsGood(l: Load, p: Pool, q: Pool, now: int, delta: int, up: bool, next: int)
    requires Good(l, p, up, now) && SpacedBy(l, now, next) && Reached(p, q, now, delta)
    requires (delta > 0 ==> up) && (delta < 0 ==> !up)
    requires SameSide(GapOf(l, p), GapOf(l, p) - delta)
    ensures Good(l, q, up, next) && GapOf(l, q) == GapOf(l, p) - delta
    ensures q.s.events == p.s.events || q.s.events == p.s.events + [ScaleEvent(now, up)]
  {
    if delta != 0 {
      MoveKeepsQuiet(p.s.history, up, now);
    }
  }

  /** q is a good successor of p: on the same side of the same target, by exactly the step that
      the limit allows. */
  predicate Advances(l: Load, p: Pool, q: Pool, t: Tick, up: bool, next: int)
    requires Limit(l, GapOf(l, p), t) > 0
  {
    && Good(l, q, up, next)
    && SameSide(GapOf(l, p), GapOf(l, q))
    && q.s.predicted == p.s.predicted
    && (q.s.events == p.s.events || q.s.events == p.s.events + [ScaleEvent(t.now, up)])
    && GapOf(l, q) == if InBand(l, p) then GapOf(l, p) else Shrunk(GapOf(l, p), Limit(l, GapOf(l, p), t))
  }

  lemma ReachedAdvances(l: Load, p: Pool, q: Pool, t: Tick, delta: int, up: bool, next: int)
    requires Good(l, p, up, t.now) && SpacedBy(l, t.now, next) && Reached(p, q, t.now, delta)
    requires Limit(l, GapOf(l, p), t) > 0
    requires delta == if InBand(l, p) then 0 else GapOf(l, p) - Shrunk(GapOf(l, p), Limit(l, GapOf(l, p), t))
    ensures Advances(l, p, q, t, up, next)
  {
    ReachedIsGood(l, p, q, t.now, delta, up, next);
  }

  lemma LimitIsPositive(l: Load, gap: int, t: Tick)
    ensures Limit(l, gap, t) > 0
  {
    LimitUpIsPositive(l.sc, Sees(l, 0, t));
  }

  lemma TickKeepsGood(l: Load, p: Pool, t: Tick, up: bool, next: int)
    requires Good(l, p, up, t.now) && SpacedBy(l, t.now, next)
    ensures Limit(l, GapOf(l, p), t) > 0 && Advances(l, p, Ticked(l, p, t), t, up, next)
  {
    LimitIsPositive(l, GapOf(l, p), t);
    var q, delta := Ticked(l, p, t), Decided(p.s, RoundOf(l, p, t)).delta;
    TickShrinksGap(l, p, t);
    TickMoves(l, p, t);
    ReachedAdvances(l, p, q, t, delta, up, next);
  }

  predicate Spaced(l: Load, ticks: seq<Tick>) {
    forall i | 0 < i < |ticks| :: SpacedBy(l, ticks[i - 1].now, ticks[i].now)
  }

  /** All the events since, one way. */
  predicate OneWay(before: seq<ScaleEvent>, after: seq<ScaleEvent>, up: bool) {
    before <= after && forall i | |before| <= i < |after| :: after[i].up == up
  }

  /** Once demand is settled, over any number of settled rounds a cooldown apart: stock never
      crosses the target and never moves away from it, every recorded move goes the same way, and
      after as many rounds as the gap is wide it is within the hysteresis band. */
  lemma {:induction false} StockWalksToTarget(l: Load, p: Pool, ticks: seq<Tick>, up: bool, next: int)
    requires Spaced(l, ticks)
    requires Good(l, p, up, if ticks == [] then next else ticks[0].now)
    requires ticks != [] ==> SpacedBy(l, ticks[|ticks| - 1].now, next)
    ensures
      var q := TickedAll(l, p, ticks);
      && Good(l, q, up, next)
      && SameSide(GapOf(l, p), GapOf(l, q))
      && OneWay(p.s.events, q.s.events, up)
      && q.s.predicted == p.s.predicted
      && (InBand(l, q) || Abs(GapOf(l, q)) + |ticks| <= Abs(GapOf(l, p)))
    decreases |ticks|
  {
    if ticks != [] {
      var n := |ticks| - 1;
      StockWalksToTarget(l, p, ticks[..n], up, ticks[n].now);
      var o := TickedAll(l, p, ticks[..n]);
      TickKeepsGood(l, o, ticks[n], up, next);
      Progress(l, o, Ticked(l, o, ticks[n]), ticks[n], up, next);
    }
  }

  lemma Progress(l: Load, p: Pool, q: Pool, t: Tick, up: bool, next: int)
    requires Limit(l, GapOf(l, p), t) > 0 && Advances(l, p, q, t, up, next)
    ensures InBand(l, p) ==> InBand(l, q)
    ensures !InBand(l, p) ==> Abs(GapOf(l, q)) < Abs(GapOf(l, p))
  {
  }

  // ---- From any demand ----

  /** What the claim rate uses up while stock is being replenished. */
  function Consumption(l: Load): real {
    l.rate * PositiveOr(l.sc.replenishSeconds, DEFAULT_REPLENISH_SECONDS) as real
  }

  lemma AlphaIsAlpha(sc: PoolSpec)
    ensures IsAlpha(Alpha(sc))
  {
  }

  lemma DemandIsMixed(l: Load, o: Observation)
    requires o.claimRatePerSecond == l.rate
    ensures Demand(l.sc, o) == Mix(Alpha(l.sc), Consumption(l), o.predictedDemand as real)
  {
  }

  /** A round of an open pool persists the smoothed demand. */
  lemma TickSmooths(l: Load, p: Pool, t: Tick)
    requires !Gated(l.sc)
    ensures Ticked(l, p, t).s.predicted == Smoothed(Alpha(l.sc), Consumption(l), p.s.predicted)
  {
    SeenWhenSettled(l, p, t);
    DemandIsMixed(l, SeenSettled(l, p, t));
    DemandIsPersisted(l.sc, SeenSettled(l, p, t));
    FullRound(p.s, RoundOf(l, p, t));
  }

  /** The demand that a run of rounds leaves in the status is the iterated smoother. */
  lemma {:induction false} PredictedIterates(l: Load, p: Pool, ticks: seq<Tick>)
    requires !Gated(l.sc)
    ensures
      TickedAll(l, p, ticks).s.predicted == Iterated(Alpha(l.sc), Consumption(l), p.s.predicted, |ticks|)
  {
    if ticks != [] {
      var n := |ticks| - 1;
      PredictedIterates(l, p, ticks[..n]);
      TickSmooths(l, TickedAll(l, p, ticks[..n]), ticks[n]);
    }
  }

  lemma NextIsSmoothed(l: Load, p: int)
    ensures NextDemand(l, p) == Smoothed(Alpha(l.sc), Consumption(l), p)
  {
    DemandIsMixed(l, Sees(l, 0, Tick(0, false)).(predictedDemand := p));
  }

  /** How many rounds the smoother needs at most. */
  function RoundsToSettle(l: Load, p: Pool): nat {
    Abs(Rounding.Round(Consumption(l)) - p.s.predicted)
  }

  lemma AtDemandIsSettled(alpha: real, x: real, p: int)
    requires IsAlpha(alpha) && p == Rounding.Round(x)
    ensures Smoothed(alpha, x, p) == p
  {
    SmoothingApproaches(alpha, x, p);
  }

  lemma IteratedSettles(alpha: real, x: real, p: int, n: nat)
    requires IsAlpha(alpha) && n >= Abs(Rounding.Round(x) - p)
    ensures Smoothed(alpha, x, Iterated(alpha, x, p, n)) == Iterated(alpha, x, p, n)
  {
    SmootherSettles(alpha, x, p, n);
    var q := Iterated(alpha, x, p, n);
    if Smoothed(alpha, x, q) != q {
      AtDemandIsSettled(alpha, x, q);
    }
  }

  /** After as many rounds as the persisted demand was away from the claim rate's, the smoother is
      settled, and it stays so. */
  lemma SettlesInTime(l: Load, p: Pool, ticks: seq<Tick>)
    requires Open(l) && |ticks| >= RoundsToSettle(l, p)
    ensures Settled(l, TickedAll(l, p, ticks))
  {
    AlphaIsAlpha(l.sc);
    PredictedIterates(l, p, ticks);
    IteratedSettles(Alpha(l.sc), Consumption(l), p.s.predicted, |ticks|);
    NextIsSmoothed(l, TickedAll(l, p, ticks).s.predicted);
  }

  /** A round without a runtime forgets the demand: the smoother starts over from zero. */
  lemma DemandStartsOver(l: Load, p: Pool, r: PoolRound, ticks: seq<Tick>)
    requires !Gated(l.sc) && !r.available && !r.sc.drain && r.end.Committed?
    ensures
      var q := Pool(Next(p.s, r), p.warm + Moved(p.s, r));
      && q.warm == p.warm && q.s.events == p.s.events
      && TickedAll(l, q, ticks).s.predicted == Iterated(Alpha(l.sc), Consumption(l), 0, |ticks|)
  {
    PredictedIterates(l, Pool(Next(p.s, r), p.warm + Moved(p.s, r)), ticks);
  }

  // ---- While the demand is still moving ----

  lemma FeedbackIsPositive(sc: PoolSpec, o: Observation)
    ensures Feedback(sc, o) >= 0.8
  {
  }

  lemma MixIsMonotone(alpha: real, x: real, p: real, q: real)
    requires IsAlpha(alpha) && p <= q
    ensures Mix(alpha, x, p) <= Mix(alpha, x, q)
  {
    SignOf(1.0 - alpha, q - p);
    assert (1.0 - alpha) * (q - p) == (1.0 - alpha) * q - (1.0 - alpha) * p;
  }

  /** WantedStock of a demand. */
  function StockFor(sc: PoolSpec, demand: real, feedback: real): real {
    MaxReal(sc.minWarm as real, demand * feedback)
    + PositiveOr(sc.targetWarmBuffer, DEFAULT_TARGET_WARM_BUFFER) as real
  }

  lemma WantedIs(sc: PoolSpec, o: Observation)
    ensures WantedStock(sc, o) == StockFor(sc, Demand(sc, o), Feedback(sc, o))
  {
  }

  lemma StockIsMonotone(sc: PoolSpec, d: real, e: real, f: real)
    requires f > 0.0 && d <= e
    ensures StockFor(sc, d, f) <= StockFor(sc, e, f)
  {
    assert (e - d) * f >= 0.0;
  }

  lemma WantedIsMonotone(sc: PoolSpec, o: Observation, u: Observation)
    requires Demand(sc, o) <= Demand(sc, u) && Feedback(sc, o) == Feedback(sc, u)
    ensures WantedStock(sc, o) <= WantedStock(sc, u)
  {
    FeedbackIsPositive(sc, o);
    StockIsMonotone(sc, Demand(sc, o), Demand(sc, u), Feedback(sc, o));
    WantedIs(sc, o);
    WantedIs(sc, u);
  }

  lemma TargetFollowsWanted(sc: PoolSpec, o: Observation, u: Observation)
    requires WantedStock(sc, o) <= WantedStock(sc, u)
    ensures Target(sc, o) <= Target(sc, u)
  {
    var a := if ClampedByMaxWarm(sc, o) then sc.maxWarm as real else WantedStock(sc, o);
    var b := if ClampedByMaxWarm(sc, u) then sc.maxWarm as real else WantedStock(sc, u);
    RoundIsMonotone(a, b);
  }

  /** More demand, no smaller a target. */
  lemma TargetIsMonotone(l: Load, p: int, q: int)
    requires p <= q
    ensures SettledTarget(l, p) <= SettledTarget(l, q)
  {
    var o, u := Sees(l, 0, Tick(0, false)).(predictedDemand := p), Sees(l, 0, Tick(0, false)).(predictedDemand := q);
    DemandIsMixed(l, o);
    DemandIsMixed(l, u);
    AlphaIsAlpha(l.sc);
    MixIsMonotone(Alpha(l.sc), Consumption(l), p as real, q as real);
    WantedIsMonotone(l.sc, o, u);
    TargetFollowsWanted(l.sc, o, u);
  }

  /** The demand rises, or falls, towards what the claim rate asks for. */
  predicate Heading(l: Load, p: Pool, rise: bool) {
    var q := p.s.predicted;
    if rise then q as real <= Consumption(l) || q == Rounding.Round(Consumption(l))
    else q as real >= Consumption(l) || q == Rounding.Round(Consumption(l))
  }

  lemma HeadingStays(l: Load, p: Pool, t: Tick, rise: bool)
    requires Open(l) && Heading(l, p, rise)
    ensures Heading(l, Ticked(l, p, t), rise)
    ensures rise ==> p.s.predicted <= Ticked(l, p, t).s.predicted
    ensures !rise ==> p.s.predicted >= Ticked(l, p, t).s.predicted
  {
    var alpha, x, q := Alpha(l.sc), Consumption(l), p.s.predicted;
    AlphaIsAlpha(l.sc);
    TickSmooths(l, p, t);
    SmoothingApproaches(alpha, x, q);
    SmoothedIsOnSide(alpha, x, q);
    if q == Rounding.Round(x) {
      AtDemandIsSettled(alpha, x, q);
    }
  }

  /** Moves against the heading come first, moves along it after them. */
  predicate OneTurn(h: seq<ScaleEvent>, rise: bool) {
    Sorted(h) && forall i, j | 0 <= i < j < |h| :: h[i].up == rise ==> h[j].up == rise
  }

  predicate OnSide(gap: int, rise: bool) {
    if rise then gap >= 0 else gap <= 0
  }

  /** Memory holds at most one turn, and once stock was moved along the heading it stays behind. */
  predicate Following(l: Load, p: Pool, rise: bool, now: int) {
    && Open(l) && Heading(l, p, rise) && CooledDown(l, p.s, now) && OneTurn(p.s.history, rise)
    && (p.s.history != [] && p.s.history[|p.s.history| - 1].up == rise ==> OnSide(GapOf(l, p), rise))
  }

  lemma {:induction false} NoTurn(h: seq<ScaleEvent>, up: bool)
    requires forall i | 0 <= i < |h| :: h[i].up == up
    ensures Reversals(h) == 0
  {
    if |h| >= 2 {
      NoTurn(h[..|h| - 1], up);
    }
  }

  lemma {:induction false} OneTurnReverses(h: seq<ScaleEvent>, rise: bool)
    requires OneTurn(h, rise)
    ensures Reversals(h) <= 1
  {
    if |h| >= 2 {
      var n := |h| - 1;
      if h[n].up == h[n - 1].up {
        OneTurnReverses(h[..n], rise);
      } else {
        NoTurn(h[..n], h[n - 1].up);
      }
    }
  }

  lemma LongerTurnsOnce(h: seq<ScaleEvent>, rise: bool, e: ScaleEvent)
    requires OneTurn(h, rise) && (h != [] ==> h[|h| - 1].at <= e.at)
    requires h != [] && h[|h| - 1].up == rise ==> e.up == rise
    ensures OneTurn(h + [e], rise)
  {
    LongerIsSorted(h, e);
  }

  lemma TailTurnsOnce(h: seq<ScaleEvent>, rise: bool, k: nat)
    requires OneTurn(h, rise) && k <= |h|
    ensures OneTurn(h[k..], rise)
  {
    TailIsSorted(h, k);
    forall i, j | 0 <= i < j < |h[k..]| && h[k..][i].up == rise
      ensures h[k..][j].up == rise
    {
      assert h[k..][i] == h[k + i] && h[k..][j] == h[k + j];
    }
  }

  lemma MoveTurnsOnce(h: seq<ScaleEvent>, rise: bool, e: ScaleEvent)
    requires OneTurn(h, rise) && (h != [] ==> h[|h| - 1].at <= e.at)
    requires h != [] && h[|h| - 1].up == rise ==> e.up == rise
    ensures
      var kept := Kept(h + [e], e.at - OSCILLATION_WINDOW);
      OneTurn(kept, rise) && kept != [] && kept[|kept| - 1] == e
  {
    LongerTurnsOnce(h, rise, e);
    var k := KeptIsTail(h + [e], e.at - OSCILLATION_WINDOW);
    assert (h + [e])[|h|] == e;
    TailTurnsOnce(h + [e], rise, k);
  }

  /** What one round does to memory and stock. */
  lemma TickRecords(l: Load, p: Pool, t: Tick)
    ensures
      var d, q := Decided(p.s, RoundOf(l, p, t)).delta, Ticked(l, p, t);
      && q.warm == p.warm + d
      && (d == 0 ==> q.s.history == p.s.history && q.s.lastAt == p.s.lastAt)
      && (d != 0 ==>
            && q.s.history == Kept(p.s.history + [ScaleEvent(t.now, d > 0)], t.now - OSCILLATION_WINDOW)
            && q.s.lastAt == Some(t.now))
  {
    FullRound(p.s, RoundOf(l, p, t));
  }

  lemma StaysBehind(l: Load, p: Pool, q: Pool, rise: bool, delta: int)
    requires q.warm == p.warm + delta && SameSide(GapOf(l, p), GapOf(l, p) - delta) && OnSide(GapOf(l, p), rise)
    requires if rise then p.s.predicted <= q.s.predicted else q.s.predicted <= p.s.predicted
    ensures OnSide(GapOf(l, q), rise)
  {
    if rise {
      TargetIsMonotone(l, p.s.predicted, q.s.predicted);
    } else {
      TargetIsMonotone(l, q.s.predicted, p.s.predicted);
    }
  }

  lemma StaysCool(l: Load, p: Pool, q: Pool, now: int, next: int)
    requires CooledDown(l, p.s, now) && SpacedBy(l, now, next)
    requires q.s.lastAt == p.s.lastAt || q.s.lastAt == Some(now)
    requires q.s.history == p.s.history || (q.s.history != [] && q.s.history[|q.s.history| - 1].at == now)
    ensures CooledDown(l, q.s, next)
  {
  }

  /** The direction of the move is that of the gap, and it does not overshoot. */
  lemma TickStaysBehind(l: Load, p: Pool, t: Tick, rise: bool)
    requires Open(l) && CooledDown(l, p.s, t.now) && OneTurn(p.s.history, rise)
    ensures
      var gap, delta := GapOf(l, p), Decided(p.s, RoundOf(l, p, t)).delta;
      SameSide(gap, gap - delta) && (delta > 0 ==> gap > 0) && (delta < 0 ==> gap < 0)
  {
    OneTurnReverses(p.s.history, rise);
    TickShrinksGap(l, p, t);
  }

  /** What a move of delta makes of memory and status. */
  predicate Remembers(h: seq<ScaleEvent>, q: State, now: int, delta: int) {
    if delta == 0 then q.history == h
    else q.lastAt == Some(now) && q.history == Kept(h + [ScaleEvent(now, delta > 0)], now - OSCILLATION_WINDOW)
  }

  lemma MemoryTurnsOnce(h: seq<ScaleEvent>, q: State, now: int, delta: int, rise: bool)
    requires OneTurn(h, rise) && Remembers(h, q, now, delta) && (h != [] ==> h[|h| - 1].at <= now)
    requires h != [] && h[|h| - 1].up == rise && delta != 0 ==> (delta > 0) == rise
    ensures OneTurn(q.history, rise)
    ensures delta != 0 ==> q.history != [] && q.history[|q.history| - 1] == ScaleEvent(now, delta > 0)
  {
    if delta != 0 {
      MoveTurnsOnce(h, rise, ScaleEvent(now, delta > 0));
    }
  }

  lemma TickTurnsOnce(l: Load, p: Pool, t: Tick, rise: bool)
    requires Following(l, p, rise, t.now)
    ensures
      var q, delta := Ticked(l, p, t), Decided(p.s, RoundOf(l, p, t)).delta;
      && OneTurn(q.s.history, rise)
      && (if delta == 0 then q.s.history == p.s.history && q.s.lastAt == p.s.lastAt
          else
            && q.s.lastAt == Some(t.now) && q.s.history != []
            && q.s.history[|q.s.history| - 1] == ScaleEvent(t.now, delta > 0))
  {
    TickStaysBehind(l, p, t, rise);
    TickRecords(l, p, t);
    MemoryTurnsOnce(p.s.history, Ticked(l, p, t).s, t.now, Decided(p.s, RoundOf(l, p, t)).delta, rise);
  }

  lemma TickKeepsSide(l: Load, p: Pool, t: Tick, rise: bool)
    requires Following(l, p, rise, t.now) && OnSide(GapOf(l, p), rise)
    ensures OnSide(GapOf(l, Ticked(l, p, t)), rise)
  {
    TickStaysBehind(l, p, t, rise);
    TickRecords(l, p, t);
    HeadingStays(l, p, t, rise);
    StaysBehind(l, p, Ticked(l, p, t), rise, Decided(p.s, RoundOf(l, p, t)).delta);
  }

  lemma TickFollows(l: Load, p: Pool, t: Tick, rise: bool, next: int)
    requires Following(l, p, rise, t.now) && SpacedBy(l, t.now, next)
    ensures Following(l, Ticked(l, p, t), rise, next)
  {
    TickStaysBehind(l, p, t, rise);
    TickTurnsOnce(l, p, t, rise);
    HeadingStays(l, p, t, rise);
    StaysCool(l, p, Ticked(l, p, t), t.now, next);
    if OnSide(GapOf(l, p), rise) {
      TickKeepsSide(l, p, t, rise);
    }
  }

  lemma {:induction false} TicksFollow(l: Load, p: Pool, ticks: seq<Tick>, rise: bool, next: int)
    requires Spaced(l, ticks) && Following(l, p, rise, if ticks == [] then next else ticks[0].now)
    requires ticks != [] ==> SpacedBy(l, ticks[|ticks| - 1].now, next)
    ensures Following(l, TickedAll(l, p, ticks), rise, next)
    decreases |ticks|
  {
    if ticks != [] {
      var n := |ticks| - 1;
      TicksFollow(l, p, ticks[..n], rise, ticks[n].now);
      TickFollows(l, TickedAll(l, p, ticks[..n]), ticks[n], rise, next);
    }
  }

  lemma {:induction false} TickedInTwo(l: Load, p: Pool, first: seq<Tick>, rest: seq<Tick>)
    ensures TickedAll(l, p, first + rest) == TickedAll(l, TickedAll(l, p, first), rest)
  {
    if rest == [] {
      assert first + rest == first;
    } else {
      var n := |rest| - 1;
      TickedInTwo(l, p, first, rest[..n]);
      assert (first + rest)[..|first + rest| - 1] == first + rest[..n];
    }
  }

  lemma FollowingIsGood(l: Load, p: Pool, rise: bool, now: int)
    requires Following(l, p, rise, now) && Settled(l, p)
    ensures Good(l, p, GapOf(l, p) > 0, now)
  {
    OneTurnReverses(p.s.history, rise);
  }

  /** An open pool under a constant load, with any persisted demand and a memory of at most one turn,
      over any number of rounds a cooldown apart. Once the smoother had time to settle, stock no longer
      crosses the target, all further moves go one way, and within as many rounds as the gap was wide
      then it is within the hysteresis band. */
  lemma DemandIsMet(l: Load, p: Pool, first: seq<Tick>, rest: seq<Tick>, rise: bool, next: int)
    requires |first| >= RoundsToSettle(l, p) && rest != []
    requires Spaced(l, first) && Spaced(l, rest) && SpacedBy(l, rest[|rest| - 1].now, next)
    requires first != [] ==> SpacedBy(l, first[|first| - 1].now, rest[0].now)
    requires Following(l, p, rise, if first == [] then rest[0].now else first[0].now)
    ensures
      var q, r := TickedAll(l, p, first), TickedAll(l, p, first + rest);
      && Settled(l, q) && r.s.predicted == q.s.predicted
      && SameSide(GapOf(l, q), GapOf(l, r)) && OneWay(q.s.events, r.s.events, GapOf(l, q) > 0)
      && (InBand(l, r) || Abs(GapOf(l, r)) + |rest| <= Abs(GapOf(l, q)))
  {
    var q := TickedAll(l, p, first);
    TicksFollow(l, p, first, rise, rest[0].now);
    SettlesInTime(l, p, first);
    FollowingIsGood(l, q, rise, rest[0].now);
    StockWalksToTarget(l, q, rest, GapOf(l, q) > 0, next);
    TickedInTwo(l, p, first, rest);
  }

  /** A pool that has just been created is such a pool. */
  lemma FreshPoolFollows(l: Load, warm: int, now: int)
    requires Open(l)
    ensures Following(l, Pool(Fresh(), warm), Consumption(l) >= 0.0, now)
  {
  }
}
