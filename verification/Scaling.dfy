/** internal/controller/pool_scaling.go: how much stock a pool creates or drains in one round.
    DecideScaling is a pure function of the pool's spec and one observation; numbers of sandboxes
    are integers, rates and ratios are reals, times are seconds. */
module Scaling {
  import opened Api
  import opened Rounding
  import Protect

  const FEEDBACK_KP := 2.0
  const MAX_REVERSALS := 3
  const DEFAULT_REPLENISH_SECONDS := 90
  const DEFAULT_MAX_PROVISION := 50
  const DEFAULT_MAX_RECLAIM := 30
  const DEFAULT_TARGET_WARM_BUFFER := 10

  datatype Action = ScaleUp | ScaleDown | ScaleHold

  datatype Reason =
    | NoReason
    | DemandUp
    | DemandDown
    | AtTarget
    | CooldownActive
    | WithinHysteresisBand
    | OscillationDetected
    | ScalingPaused
    | PoolDraining
    | InsufficientNodeCapacity
    | MaxWarmReached
    | MinWarmReached
    | ProtectModeThrottled
    | ProvisioningPending

  datatype PoolSpec = PoolSpec(
    minWarm: int,
    maxWarm: int,
    targetWarmBuffer: int,
    maxProvisionPerSecond: int,
    maxReclaimPerSecond: int,
    replenishSeconds: int,
    targetHitRatioPermille: int,
    scaleUpCooldown: int,
    scaleDownCooldown: int,
    hysteresisPermille: int,
    ewmaAlphaPermille: int,
    pauseScaling: bool,
    drain: bool,
    protect: Protect.ProtectSpec)

  /** hitRatioPermille is negative when unknown, nodeHeadroom when there is no limit. */
  datatype Observation = Observation(
    now: int,
    warm: int,
    inflight: int,
    predictedDemand: int,
    claimRatePerSecond: real,
    hitRatioPermille: int,
    lastScaleAt: Option<int>,
    lastScaleDelta: int,
    reversals: int,
    nodeHeadroom: int,
    protectActive: bool)

  datatype Decision = Decision(
    action: Action,
    target: int,
    delta: int,
    reason: Reason,
    predictedDemand: int,
    suppressed: bool,
    suppressReason: Reason,
    metricsUnavailable: bool)

  // ---- Defaults and small helpers ----

  function PositiveOr(v: int, default: int): int {
    if v > 0 then v else default
  }

  function MaxProvision(sc: PoolSpec): int {
    PositiveOr(sc.maxProvisionPerSecond, DEFAULT_MAX_PROVISION)
  }

  function MaxReclaim(sc: PoolSpec): int {
    PositiveOr(sc.maxReclaimPerSecond, DEFAULT_MAX_RECLAIM)
  }

  function ClampReal(v: real, lo: real, hi: real): real {
    var raised := if v > lo then v else lo;
    if raised < hi then raised else hi
  }

  function Clamp(v: int, lo: int, hi: int): int {
    if v < lo then lo else if v > hi then hi else v
  }

  function Abs(v: int): int {
    if v < 0 then -v else v
  }

  function MaxReal(a: real, b: real): real {
    if a > b then a else b
  }

  function ThrottleScaleUp(limit: int, permille: int): int {
    if permille <= 0 || permille >= 1000 then limit
    else
      var throttled := Ceil(limit as real * permille as real / 1000.0);
      if throttled < 1 then 1 else if throttled > limit then limit else throttled
  }

  /** How many sandboxes one round may create. */
  function LimitUp(sc: PoolSpec, o: Observation): int {
    if o.protectActive then ThrottleScaleUp(MaxProvision(sc), Protect.EffectiveConfig(sc.protect).throttlePermille)
    else MaxProvision(sc)
  }

  // ---- The target ----

  function Alpha(sc: PoolSpec): real {
    ClampReal(sc.ewmaAlphaPermille as real / 1000.0, 0.05, 1.0)
  }

  function Demand(sc: PoolSpec, o: Observation): real {
    var instant := o.claimRatePerSecond * PositiveOr(sc.replenishSeconds, DEFAULT_REPLENISH_SECONDS) as real;
    Alpha(sc) * instant + (1.0 - Alpha(sc)) * o.predictedDemand as real
  }

  function Feedback(sc: PoolSpec, o: Observation): real {
    if o.hitRatioPermille < 0 then 1.0
    else ClampReal(1.0 + FEEDBACK_KP * ((sc.targetHitRatioPermille - o.hitRatioPermille) as real / 1000.0), 0.8, 1.8)
  }

  function WantedStock(sc: PoolSpec, o: Observation): real {
    MaxReal(sc.minWarm as real, Demand(sc, o) * Feedback(sc, o))
    + PositiveOr(sc.targetWarmBuffer, DEFAULT_TARGET_WARM_BUFFER) as real
  }

  predicate ClampedByMaxWarm(sc: PoolSpec, o: Observation) {
    sc.maxWarm > 0 && WantedStock(sc, o) > sc.maxWarm as real
  }

  function Target(sc: PoolSpec, o: Observation): int {
    Round(if ClampedByMaxWarm(sc, o) then sc.maxWarm as real else WantedStock(sc, o))
  }

  // ---- Suppression ----

  predicate WithinHysteresis(delta: int, target: int, permille: int) {
    if delta == 0 then true
    else if permille <= 0 || target <= 0 then false
    else
      var threshold := Ceil(target as real * permille as real / 1000.0);
      Abs(delta) < if threshold < 1 then 1 else threshold
  }

  predicate CoolingDown(sc: PoolSpec, o: Observation, dir: Action) {
    if o.lastScaleAt.None? then false
    else if dir.ScaleUp? && o.lastScaleDelta <= 0 then false
    else if dir.ScaleDown? && o.lastScaleDelta >= 0 then false
    else
      var cd := if dir.ScaleDown? then sc.scaleDownCooldown else sc.scaleUpCooldown;
      cd > 0 && o.now - o.lastScaleAt.value < cd
  }

  function Hold(reason: Reason, demand: int): Decision {
    Decision(ScaleHold, 0, 0, reason, demand, false, NoReason, false)
  }

  function Suppressed(d: Decision, reason: Reason): Decision {
    d.(delta := 0, action := ScaleHold, suppressed := true, suppressReason := reason, reason := reason)
  }

  // ---- The decision ----

  /** Steps 9 to 11: what is left of the gap after node capacity, rate limit and floor. */
  function Trimmed(sc: PoolSpec, o: Observation, d: Decision, gap: int): Decision {
    var cut := gap > 0 && o.nodeHeadroom >= 0 && gap > o.nodeHeadroom;
    var wanted := if cut then o.nodeHeadroom else gap;
    var delta := Clamp(wanted, -MaxReclaim(sc), LimitUp(sc, o));
    var reason :=
      if ClampedByMaxWarm(sc, o) && delta > 0 && delta == wanted then MaxWarmReached
      else if o.protectActive && delta > 0 && delta < wanted then ProtectModeThrottled
      else if cut then InsufficientNodeCapacity
      else AtTarget;
    var atFloor := delta < 0 && o.warm + delta < sc.minWarm;
    var maxShrink := o.warm - sc.minWarm;
    var final :=
      if !atFloor then delta else if maxShrink <= 0 then 0 else if -delta > maxShrink then -maxShrink else delta;
    var why := if atFloor then MinWarmReached else reason;
    d.(delta := final,
       action := if final > 0 then ScaleUp else if final < 0 then ScaleDown else ScaleHold,
       reason :=
         if why.AtTarget? && final > 0 then DemandUp
         else if why.AtTarget? && final < 0 then DemandDown
         else why)
  }

  function DecideScaling(sc: PoolSpec, o: Observation): Decision {
    if sc.drain then Hold(PoolDraining, o.predictedDemand)
    else if sc.pauseScaling then Hold(ScalingPaused, o.predictedDemand)
    else
      var target := Target(sc, o);
      var gap := target - (o.warm + o.inflight);
      var d := Decision(ScaleHold, target, gap, AtTarget, Round(Demand(sc, o)), false, NoReason,
          o.hitRatioPermille < 0);
      if o.reversals >= MAX_REVERSALS then Suppressed(d, OscillationDetected)
      else if gap == 0 then
        if o.inflight > 0 && target > o.warm then d.(reason := ProvisioningPending) else d
      else if WithinHysteresis(gap, target, sc.hysteresisPermille) then Suppressed(d, WithinHysteresisBand)
      else if CoolingDown(sc, o, if gap < 0 then ScaleDown else ScaleUp) then Suppressed(d, CooldownActive)
      else if gap > 0 && o.nodeHeadroom == 0 then Suppressed(d, InsufficientNodeCapacity)
      else Trimmed(sc, o, d, gap)
  }

  // ---- What the helpers amount to, without rounding ----

  /** Throttling slows creation down to the next integer above the share, and never stops it. */
  lemma {:induction false} ThrottleNeverStops(limit: int, permille: int)
    requires limit >= 1
    ensures 1 <= ThrottleScaleUp(limit, permille) <= limit
    ensures
      0 < permille < 1000 ==>
        var r := ThrottleScaleUp(limit, permille);
        limit * permille <= 1000 * r && 1000 * (r - 1) < limit * permille
  {
    if 0 < permille < 1000 {
      var share := limit as real * permille as real / 1000.0;
      var t := Ceil(share);
      assert limit as real * permille as real == (limit * permille) as real;
      CeilReaches(share, t - 1);
      CeilReaches(share, t);
      Below(limit, permille);
      CeilReaches(share, limit);
      CeilReaches(share, 0);
    }
  }

  lemma Below(limit: int, permille: int)
    requires limit >= 1 && 0 < permille < 1000
    ensures 0 < limit * permille < 1000 * limit
  {
  }

  /** The hysteresis band in whole numbers: a gap is ignored exactly when it is less than the
      share of the target. */
  lemma {:induction false} HysteresisBand(gap: int, target: int, permille: int)
    ensures
      WithinHysteresis(gap, target, permille) <==>
      gap == 0 || (permille > 0 && target > 0 && 1000 * Abs(gap) < target * permille)
  {
    if gap != 0 && permille > 0 && target > 0 {
      var share := target as real * permille as real / 1000.0;
      assert target as real * permille as real == (target * permille) as real;
      CeilReaches(share, Abs(gap));
    }
  }

  // ---- What a decision depends on ----

  /** The target depends on nothing observed but the demand and the hit ratio. */
  lemma SameTarget(sc: PoolSpec, o: Observation, u: Observation)
    requires o.claimRatePerSecond == u.claimRatePerSecond && o.hitRatioPermille == u.hitRatioPermille
    requires o.predictedDemand == u.predictedDemand
    ensures Demand(sc, o) == Demand(sc, u) && Target(sc, o) == Target(sc, u)
    ensures ClampedByMaxWarm(sc, o) <==> ClampedByMaxWarm(sc, u)
  {
    assert Demand(sc, o) == Demand(sc, u);
    assert Feedback(sc, o) == Feedback(sc, u);
    assert WantedStock(sc, o) == WantedStock(sc, u);
  }

  lemma SameTrimmed(sc: PoolSpec, o: Observation, u: Observation, d: Decision, gap: int)
    requires ClampedByMaxWarm(sc, o) <==> ClampedByMaxWarm(sc, u)
    requires o.nodeHeadroom == u.nodeHeadroom && o.protectActive == u.protectActive && o.warm == u.warm
    ensures Trimmed(sc, o, d, gap) == Trimmed(sc, u, d, gap)
  {
    assert LimitUp(sc, o) == LimitUp(sc, u);
  }

  /** Reversals count for nothing but whether there are too many. */
  lemma SameDecision(sc: PoolSpec, o: Observation, reversals: int)
    requires o.reversals < MAX_REVERSALS && reversals < MAX_REVERSALS
    ensures DecideScaling(sc, o.(reversals := reversals)) == DecideScaling(sc, o)
  {
    var u := o.(reversals := reversals);
    SameTarget(sc, o, u);
    var target := Target(sc, o);
    var gap := target - (o.warm + o.inflight);
    SameTrimmed(sc, o, u, Decision(ScaleHold, target, gap, AtTarget, Round(Demand(sc, o)), false, NoReason,
                                   o.hitRatioPermille < 0), gap);
  }

  // ---- What a decision may do ----

  function Gap(sc: PoolSpec, o: Observation): int {
    Target(sc, o) - (o.warm + o.inflight)
  }

  /** A move towards the target, within every limit. */
  predicate Admissible(sc: PoolSpec, o: Observation, delta: int) {
    && (delta > 0 ==>
          && delta <= Gap(sc, o) && delta <= LimitUp(sc, o)
          && (o.nodeHeadroom >= 0 ==> delta <= o.nodeHeadroom))
    && (delta < 0 ==>
          && delta >= Gap(sc, o) && -delta <= MaxReclaim(sc)
          && o.warm + delta >= sc.minWarm)
  }

  /** When the decision has to be not to move, and is marked as suppressed. */
  predicate HeldBack(sc: PoolSpec, o: Observation) {
    || o.reversals >= MAX_REVERSALS
    || (Gap(sc, o) != 0
        && (|| WithinHysteresis(Gap(sc, o), Target(sc, o), sc.hysteresisPermille)
            || CoolingDown(sc, o, if Gap(sc, o) < 0 then ScaleDown else ScaleUp)
            || (Gap(sc, o) > 0 && o.nodeHeadroom == 0)))
  }

  predicate Gated(sc: PoolSpec) {
    sc.drain || sc.pauseScaling
  }

  lemma {:induction false} TargetWithinBounds(sc: PoolSpec, o: Observation)
    ensures sc.maxWarm > 0 ==> Target(sc, o) <= sc.maxWarm
    ensures sc.maxWarm <= 0 || sc.minWarm <= sc.maxWarm ==> Target(sc, o) >= sc.minWarm
  {
    var wanted := WantedStock(sc, o);
    if sc.maxWarm > 0 {
      RoundOfInteger(sc.maxWarm);
      if wanted <= sc.maxWarm as real {
        RoundIsMonotone(wanted, sc.maxWarm as real);
      }
    }
    RoundOfInteger(sc.minWarm);
    RoundIsMonotone(sc.minWarm as real, wanted);
  }

  lemma LimitUpIsPositive(sc: PoolSpec, o: Observation)
    ensures 1 <= LimitUp(sc, o) <= MaxProvision(sc)
  {
    ThrottleNeverStops(MaxProvision(sc), Protect.EffectiveConfig(sc.protect).throttlePermille);
  }

  /** Every adjustment together picks the largest admissible move, in whichever direction the gap
      points. */
  lemma TrimmedIsLargest(sc: PoolSpec, o: Observation, d: Decision)
    requires Gap(sc, o) != 0 && !(Gap(sc, o) > 0 && o.nodeHeadroom == 0)
    ensures
      var t := Trimmed(sc, o, d, Gap(sc, o));
      && Admissible(sc, o, t.delta)
      && (forall e :: Admissible(sc, o, e) ==> Abs(e) <= Abs(t.delta))
      && t.target == d.target && t.suppressed == d.suppressed
      && (t.action.ScaleUp? <==> t.delta > 0) && (t.action.ScaleDown? <==> t.delta < 0)
  {
    LimitUpIsPositive(sc, o);
  }

  /** The decision is the largest move that every limit admits, unless the pool is drained or
      paused or the decision is held back; then it is no move. It is marked as suppressed exactly
      when it is held back. */
  lemma {:induction false} DecisionIsLargestAdmissible(sc: PoolSpec, o: Observation)
    ensures
      var d := DecideScaling(sc, o);
      && (d.suppressed <==> !Gated(sc) && HeldBack(sc, o))
      && (Gated(sc) || d.suppressed ==> d.delta == 0)
      && (!Gated(sc) && !d.suppressed ==>
            Admissible(sc, o, d.delta) && forall e :: Admissible(sc, o, e) ==> Abs(e) <= Abs(d.delta))
      && (d.action.ScaleUp? <==> d.delta > 0) && (d.action.ScaleDown? <==> d.delta < 0)
  {
    if !Gated(sc) && !HeldBack(sc, o) && Gap(sc, o) != 0 {
      TrimmedIsLargest(sc, o, Decision(ScaleHold, Target(sc, o), Gap(sc, o), AtTarget, Round(Demand(sc, o)), false,
                                       NoReason, o.hitRatioPermille < 0));
    }
  }

  /** The bounds a pool relies on: a round never brings existing and announced stock beyond the
      target or maxWarm, never reclaims usable stock below minWarm, and never outruns the rate
      limits or the nodes. */
  lemma {:induction false} DecisionRespectsLimits(sc: PoolSpec, o: Observation)
    ensures
      var d := DecideScaling(sc, o);
      && (d.delta > 0 ==>
            && o.warm + o.inflight + d.delta <= d.target
            && (sc.maxWarm > 0 ==> o.warm + o.inflight + d.delta <= sc.maxWarm)
            && d.delta <= LimitUp(sc, o) <= MaxProvision(sc)
            && (o.nodeHeadroom >= 0 ==> d.delta <= o.nodeHeadroom))
      && (d.delta < 0 ==>
            && o.warm + o.inflight + d.delta >= d.target
            && o.warm + d.delta >= sc.minWarm
            && -d.delta <= MaxReclaim(sc))
  {
    DecisionIsLargestAdmissible(sc, o);
    TargetWithinBounds(sc, o);
    LimitUpIsPositive(sc, o);
    DecisionTellsTarget(sc, o);
  }

  lemma DecisionTellsTarget(sc: PoolSpec, o: Observation)
    ensures DecideScaling(sc, o).target == if Gated(sc) then 0 else Target(sc, o)
  {
  }

  /** A missing hit ratio moves the pool exactly like a hit ratio that is right on target. */
  lemma UnknownHitRatioIsNeutral(sc: PoolSpec, o: Observation)
    requires o.hitRatioPermille < 0 && sc.targetHitRatioPermille >= 0
    ensures
      var known := o.(hitRatioPermille := sc.targetHitRatioPermille);
      DecideScaling(sc, o).(metricsUnavailable := false) == DecideScaling(sc, known)
  {
    var known := o.(hitRatioPermille := sc.targetHitRatioPermille);
    assert Feedback(sc, known) == Feedback(sc, o);
    assert Demand(sc, known) == Demand(sc, o);
    assert Target(sc, known) == Target(sc, o);
  }

  // ---- What the reasons say ----

  /** The reason is true of the round. */
  predicate Explains(sc: PoolSpec, o: Observation, d: Decision, gap: int) {
    match d.reason
    case PoolDraining => sc.drain
    case ScalingPaused => sc.pauseScaling && !sc.drain
    case OscillationDetected => o.reversals >= MAX_REVERSALS && d.delta == 0
    case WithinHysteresisBand => o.reversals < MAX_REVERSALS && gap != 0
        && WithinHysteresis(gap, d.target, sc.hysteresisPermille)
    case CooldownActive =>
      !WithinHysteresis(gap, d.target, sc.hysteresisPermille)
          && CoolingDown(sc, o, if gap < 0 then ScaleDown else ScaleUp)
    case InsufficientNodeCapacity => gap > o.nodeHeadroom >= 0 && 0 <= d.delta <= o.nodeHeadroom
    case ProvisioningPending => gap == 0 && o.inflight > 0 && d.target > o.warm
    case AtTarget => gap == 0 && d.delta == 0
    case MaxWarmReached => ClampedByMaxWarm(sc, o) && d.delta > 0 && (d.delta == gap || d.delta == o.nodeHeadroom)
    case ProtectModeThrottled => o.protectActive && d.delta == LimitUp(sc, o) < gap
    case MinWarmReached => gap < 0 && (d.delta == 0 || o.warm + d.delta == sc.minWarm)
    case DemandUp => d.delta > 0 && (d.delta == gap || d.delta == LimitUp(sc, o))
    case DemandDown => d.delta < 0 && (d.delta == gap || -d.delta == MaxReclaim(sc))
    case NoReason => false
  }

  lemma TrimmedExplains(sc: PoolSpec, o: Observation, d: Decision, gap: int)
    requires gap != 0 && !(gap > 0 && o.nodeHeadroom == 0)
    ensures Explains(sc, o, Trimmed(sc, o, d, gap), gap)
  {
    LimitUpIsPositive(sc, o);
  }

  /** The reason of a decision is true of the round, and that of a suppression is the same. */
  lemma {:induction false} ReasonIsTrue(sc: PoolSpec, o: Observation)
    ensures Explains(sc, o, DecideScaling(sc, o), Gap(sc, o))
    ensures DecideScaling(sc, o).suppressed ==> DecideScaling(sc, o).suppressReason == DecideScaling(sc, o).reason
    ensures !Gated(sc) ==> (DecideScaling(sc, o).metricsUnavailable <==> o.hitRatioPermille < 0)
  {
    if !Gated(sc) && !HeldBack(sc, o) && Gap(sc, o) != 0 {
      TrimmedExplains(sc, o, Decision(ScaleHold, Target(sc, o), Gap(sc, o), AtTarget, Round(Demand(sc, o)), false,
                                      NoReason, o.hitRatioPermille < 0), Gap(sc, o));
    }
  }

  // ---- What the throttling reason says ----

  /** What a round would create if only the target and the nodes limited it. */
  function Wanted(sc: PoolSpec, o: Observation): int {
    if o.nodeHeadroom >= 0 && Gap(sc, o) > o.nodeHeadroom then o.nodeHeadroom else Gap(sc, o)
  }

  /** The reason says that protection throttled the round exactly when the pool is protected and its
      rate limit, throttled or not, is what cut the round short. */
  lemma {:induction false} ThrottledReasonIsExact(sc: PoolSpec, o: Observation)
    ensures
      DecideScaling(sc, o).reason.ProtectModeThrottled? <==>
      !Gated(sc) && !HeldBack(sc, o) && o.protectActive && LimitUp(sc, o) < Wanted(sc, o)
  {
    LimitUpIsPositive(sc, o);
  }

  /** The reason is meant for rounds in which throttling made a difference. It did if and only if the
      throttled limit is below the plain one; a throttle of 1000 permille, which the API allows,
      makes none and is reported all the same. */
  lemma ThrottlingMadeADifferenceIff(sc: PoolSpec, o: Observation)
    requires DecideScaling(sc, o).reason.ProtectModeThrottled?
    ensures
      DecideScaling(sc, o).delta < DecideScaling(sc, o.(protectActive := false)).delta
      <==> LimitUp(sc, o) < MaxProvision(sc)
    ensures Protect.EffectiveConfig(sc.protect).throttlePermille >= 1000 ==> LimitUp(sc, o) == MaxProvision(sc)
  {
    var calm := o.(protectActive := false);
    ThrottledReasonIsExact(sc, o);
    SameGap(sc, o, calm);
    DecisionIsLargestAdmissible(sc, o);
    DecisionIsLargestAdmissible(sc, calm);
    LimitUpIsPositive(sc, o);
    CutByLimit(sc, o, DecideScaling(sc, o).delta);
    CutAtLeast(sc, calm, DecideScaling(sc, calm).delta);
  }

  lemma SameGap(sc: PoolSpec, o: Observation, u: Observation)
    requires u == o.(protectActive := false)
    ensures Gap(sc, u) == Gap(sc, o) && Target(sc, u) == Target(sc, o)
    ensures !HeldBack(sc, o) ==> !HeldBack(sc, u)
  {
    SameTarget(sc, o, u);
  }

  /** A round cut short by its rate limit creates just that many. */
  lemma CutByLimit(sc: PoolSpec, o: Observation, delta: int)
    requires Admissible(sc, o, delta) && forall e :: Admissible(sc, o, e) ==> Abs(e) <= Abs(delta)
    requires 0 < LimitUp(sc, o) < Wanted(sc, o)
    ensures delta == LimitUp(sc, o)
  {
    assert Admissible(sc, o, LimitUp(sc, o));
  }

  lemma CutAtLeast(sc: PoolSpec, o: Observation, delta: int)
    requires Admissible(sc, o, delta) && forall e :: Admissible(sc, o, e) ==> Abs(e) <= Abs(delta)
    requires Wanted(sc, o) > 0 && LimitUp(sc, o) > 0
    ensures delta == if LimitUp(sc, o) < Wanted(sc, o) then LimitUp(sc, o) else Wanted(sc, o)
  {
    var least := if LimitUp(sc, o) < Wanted(sc, o) then LimitUp(sc, o) else Wanted(sc, o);
    assert Admissible(sc, o, least);
  }
}
