/** internal/controller/protect.go and applyProtectMode in internal/controller/pool_controller.go:
    avalanche protection of a pool, decided anew from the status at every evaluation. */
module Protect {
  import opened Api
  import opened Rounding

  const DEFAULT_FAILURE_RATE_PERCENT := 30
  const DEFAULT_MIN_SAMPLES := 10
  const DEFAULT_LATENCY_THRESHOLD_MS := 2000
  const DEFAULT_HOLD_SECONDS := 120
  const DEFAULT_SCALE_UP_THROTTLE := 500

  /** enabled is None when the field is not set. */
  datatype ProtectSpec = ProtectSpec(
    enabled: Option<bool>,
    failureRatePercent: int,
    minSamples: int,
    latencyThresholdMs: int,
    holdSeconds: int,
    scaleUpThrottlePermille: int)

  datatype Config = Config(
    enabled: bool,
    failureRatePercent: int,
    minSamples: int,
    latencyThresholdMs: int,
    hold: int,
    throttlePermille: int)

  function OrElse(v: int, default: int): int {
    if v <= 0 then default else v
  }

  function EffectiveConfig(s: ProtectSpec): Config {
    Config(
      if s.enabled.Some? then s.enabled.value else true,
      OrElse(s.failureRatePercent, DEFAULT_FAILURE_RATE_PERCENT),
      OrElse(s.minSamples, DEFAULT_MIN_SAMPLES),
      OrElse(s.latencyThresholdMs, DEFAULT_LATENCY_THRESHOLD_MS),
      OrElse(s.holdSeconds, DEFAULT_HOLD_SECONDS),
      OrElse(s.scaleUpThrottlePermille, DEFAULT_SCALE_UP_THROTTLE))
  }

  datatype Reason = NotProtecting | ProvisionFailureRate | ApiserverLatency | HoldActive

  /** What one evaluation sees; latencyMs is None when the latency is unknown. */
  datatype Sample = Sample(now: int, inflight: nat, failed: nat, latencyMs: Option<int>)

  datatype ProtectStatus = ProtectStatus(
    active: bool,
    reason: Reason,
    since: Option<int>,
    until: Option<int>,
    trips: int,
    failureRatePermille: int)

  datatype Decision = Decision(
    active: bool,
    reason: Reason,
    since: Option<int>,
    until: Option<int>,
    trips: int,
    failureRatePermille: int,
    trippedNow: bool,
    recoveredNow: bool,
    throttlePermille: int)

  /** provisionFailureRate: failures among the attempts that are not known to have succeeded. */
  function FailureRate(inflight: nat, failed: nat): int {
    if inflight + failed == 0 then 0
    else Round(failed as real * 1000.0 / (inflight + failed) as real)
  }

  function Trigger(c: Config, s: Sample): Reason {
    if s.inflight + s.failed >= c.minSamples && FailureRate(s.inflight, s.failed) >= c.failureRatePercent * 10 then
      ProvisionFailureRate
    else if s.latencyMs.Some? && s.latencyMs.value >= c.latencyThresholdMs then ApiserverLatency
    else NotProtecting
  }

  predicate Triggers(c: Config, s: Sample) {
    !Trigger(c, s).NotProtecting?
  }

  function Evaluate(spec: ProtectSpec, prev: ProtectStatus, s: Sample): Decision {
    var c := EffectiveConfig(spec);
    var rate := FailureRate(s.inflight, s.failed);
    if !c.enabled then
      Decision(false, NotProtecting, None, None, prev.trips, 0, false, prev.active, 1000)
    else if Triggers(c, s) then
      Decision(true, Trigger(c, s), if prev.since.Some? then prev.since else Some(s.now), Some(s.now + c.hold),
               if prev.active then prev.trips else prev.trips + 1, rate, !prev.active, false, c.throttlePermille)
    else if prev.active && prev.until.Some? && prev.until.value > s.now then
      Decision(true, HoldActive, prev.since, prev.until, prev.trips, rate, false, false, c.throttlePermille)
    else
      Decision(false, NotProtecting, prev.since, None, prev.trips, rate, false, prev.active, 1000)
  }

  function Applied(st: ProtectStatus, d: Decision): ProtectStatus {
    ProtectStatus(d.active, d.reason, if d.since.Some? then d.since else st.since, d.until, d.trips,
        d.failureRatePermille)
  }

  datatype Event = NoEvent | ProtectModeEnabled | ProtectModeDisabled

  /** The part of a pool's status that protection lives in. */
  class PoolProtection {
    var status: ProtectStatus

    constructor ()
      ensures status == Unprotected()
    {
      status := Unprotected();
    }

    method ApplyProtectMode(d: Decision) returns (event: Event)
      modifies this
      ensures status == Applied(old(status), d)
      ensures
        event
        == if d.trippedNow then ProtectModeEnabled else if d.recoveredNow then ProtectModeDisabled else NoEvent
    {
      status := status.(active := d.active, reason := d.reason, trips := d.trips,
                        failureRatePermille := d.failureRatePermille);
      if d.since.Some? {
        status := status.(since := d.since);
      }
      status := status.(until := d.until);
      if d.trippedNow {
        event := ProtectModeEnabled;
      } else if d.recoveredNow {
        event := ProtectModeDisabled;
      } else {
        event := NoEvent;
      }
    }

    /** One evaluation: the event is sent exactly when the pool enters or leaves protection. */
    method Round(spec: ProtectSpec, s: Sample) returns (d: Decision, event: Event)
      modifies this
      ensures d == Evaluate(spec, old(status), s) && status == Applied(old(status), d)
      ensures event.ProtectModeEnabled? <==> !old(status).active && status.active
      ensures event.ProtectModeDisabled? <==> old(status).active && !status.active
      ensures status.active <==> d.active && (d.throttlePermille == EffectiveConfig(spec).throttlePermille)
    {
      d := Evaluate(spec, status, s);
      event := ApplyProtectMode(d);
    }
  }

  function Unprotected(): ProtectStatus {
    ProtectStatus(false, NotProtecting, None, None, 0, 0)
  }

  // ---- The trigger, without rounding ----

  /** A pool triggers on failures from half a permille below the threshold on. */
  lemma RateTrigger(c: Config, inflight: nat, failed: nat)
    requires c.failureRatePercent > 0 && inflight + failed > 0
    ensures
      FailureRate(inflight, failed) >= c.failureRatePercent * 10 <==>
      2000 * failed >= (20 * c.failureRatePercent - 1) * (inflight + failed)
  {
    var a, p := inflight + failed, c.failureRatePercent * 10;
    var x := failed as real * 1000.0 / a as real;
    var y := p as real - 0.5;
    RoundReaches(x, p);
    assert x * a as real == failed as real * 1000.0;
    ScaleBy(x, y, a as real);
    assert 2.0 * (y * a as real) == (2.0 * y) * a as real;
    assert 2.0 * y == (2 * p - 1) as real;
    assert ((2 * p - 1) as real) * a as real == ((2 * p - 1) * a) as real;
  }

  lemma ScaleBy(x: real, y: real, a: real)
    requires a > 0.0
    ensures x >= y <==> x * a >= y * a
  {
    if x >= y {
      assert (x - y) * a >= 0.0;
    } else {
      assert (y - x) * a > 0.0;
    }
  }

  // ---- Runs ----

  function StatusAfter(spec: ProtectSpec, run: seq<Sample>): ProtectStatus {
    if run == [] then Unprotected()
    else
      var before := StatusAfter(spec, run[..|run| - 1]);
      Applied(before, Evaluate(spec, before, run[|run| - 1]))
  }

  predicate TimesRise(run: seq<Sample>) {
    forall i, j | 0 <= i < j < |run| :: run[i].now <= run[j].now
  }

  /** The stateless meaning of protection: some evaluation so far triggered and its hold is not
      over at the last one. */
  predicate Protected(c: Config, run: seq<Sample>) {
    c.enabled && run != []
    && exists k | 0 <= k < |run| :: Triggers(c, run[k]) && run[|run| - 1].now < run[k].now + c.hold
  }

  predicate IsLastTrigger(c: Config, run: seq<Sample>, k: nat) {
    k < |run| && Triggers(c, run[k]) && forall j | k < j < |run| :: !Triggers(c, run[j])
  }

  predicate IsFirstTrigger(c: Config, run: seq<Sample>, k: nat) {
    k < |run| && Triggers(c, run[k]) && forall j | 0 <= j < k :: !Triggers(c, run[j])
  }

  /** How often protection began. */
  function RisingEdges(c: Config, run: seq<Sample>): nat {
    if run == [] then 0
    else
      var before := run[..|run| - 1];
      RisingEdges(c, before) + if Protected(c, run) && !Protected(c, before) then 1 else 0
  }

  ghost predicate UntilTells(c: Config, run: seq<Sample>, until: Option<int>) {
    exists k: nat :: IsLastTrigger(c, run, k) && until == Some(run[k].now + c.hold)
  }

  ghost predicate SinceTells(c: Config, run: seq<Sample>, since: Option<int>) {
    match since
    case None => forall k | 0 <= k < |run| :: !Triggers(c, run[k])
    case Some(t) => exists k: nat :: IsFirstTrigger(c, run, k) && t == run[k].now
  }

  ghost predicate Tells(c: Config, run: seq<Sample>, st: ProtectStatus) {
    && (st.active <==> Protected(c, run))
    && (st.active ==> UntilTells(c, run, st.until))
    && st.trips == RisingEdges(c, run)
    && (c.enabled ==> SinceTells(c, run, st.since))
  }

  /** Since the last trigger is the latest, it decides alone. */
  lemma LastTriggerDecides(c: Config, run: seq<Sample>, k: nat)
    requires c.enabled && TimesRise(run) && IsLastTrigger(c, run, k)
    ensures Protected(c, run) <==> run[|run| - 1].now < run[k].now + c.hold
  {
    forall j | 0 <= j < |run| && Triggers(c, run[j])
      ensures run[j].now <= run[k].now
    {
      assert j <= k;
    }
  }

  /** A trigger switches protection on, or keeps it on for another hold. */
  lemma TriggerStatus(spec: ProtectSpec, s: Sample, st: ProtectStatus)
    requires EffectiveConfig(spec).enabled && Triggers(EffectiveConfig(spec), s)
    ensures
      var after := Applied(st, Evaluate(spec, st, s));
      && after.active && after.until == Some(s.now + EffectiveConfig(spec).hold)
      && after.trips == st.trips + (if st.active then 0 else 1)
      && after.since == (if st.since.Some? then st.since else Some(s.now))
  {
  }

  lemma OneMoreEdge(c: Config, run: seq<Sample>, s: Sample)
    ensures
      RisingEdges(c, run + [s]) ==
      RisingEdges(c, run) + if Protected(c, run + [s]) && !Protected(c, run) then 1 else 0
  {
    assert (run + [s])[..|run + [s]| - 1] == run;
  }

  lemma TriggerProtects(c: Config, run: seq<Sample>, s: Sample)
    requires c.enabled && c.hold > 0 && Triggers(c, s)
    ensures Protected(c, run + [s]) && UntilTells(c, run + [s], Some(s.now + c.hold))
  {
    assert (run + [s])[|run|] == s;
    assert IsLastTrigger(c, run + [s], |run|);
  }

  lemma TriggerTells(c: Config, run: seq<Sample>, s: Sample, st: ProtectStatus, after: ProtectStatus)
    requires c.enabled && c.hold > 0 && Triggers(c, s) && TimesRise(run + [s]) && Tells(c, run, st)
    requires after.active && after.until == Some(s.now + c.hold)
    requires after.trips == st.trips + (if st.active then 0 else 1)
    requires after.since == if st.since.Some? then st.since else Some(s.now)
    ensures Tells(c, run + [s], after)
  {
    OneMoreEdge(c, run, s);
    TriggerProtects(c, run, s);
    SinceStep(c, run, s, st.since);
  }

  lemma TriggerStep(spec: ProtectSpec, run: seq<Sample>, s: Sample, st: ProtectStatus)
    requires EffectiveConfig(spec).enabled && Triggers(EffectiveConfig(spec), s)
    requires TimesRise(run + [s]) && Tells(EffectiveConfig(spec), run, st)
    ensures Tells(EffectiveConfig(spec), run + [s], Applied(st, Evaluate(spec, st, s)))
  {
    TriggerStatus(spec, s, st);
    TriggerTells(EffectiveConfig(spec), run, s, st, Applied(st, Evaluate(spec, st, s)));
  }

  lemma SinceStep(c: Config, run: seq<Sample>, s: Sample, since: Option<int>)
    requires SinceTells(c, run, since)
    ensures since.Some? || !Triggers(c, s) ==> SinceTells(c, run + [s], since)
    ensures since.None? && Triggers(c, s) ==> SinceTells(c, run + [s], Some(s.now))
  {
    if since.Some? {
      var k: nat :| IsFirstTrigger(c, run, k) && since.value == run[k].now;
      assert IsFirstTrigger(c, run + [s], k);
    } else if Triggers(c, s) {
      assert IsFirstTrigger(c, run + [s], |run|);
    }
  }

  lemma QuietKeepsOff(c: Config, run: seq<Sample>, s: Sample)
    requires !Triggers(c, s) && TimesRise(run + [s]) && !Protected(c, run)
    ensures !Protected(c, run + [s])
  {
    var longer := run + [s];
    forall k | 0 <= k < |longer| && c.enabled && Triggers(c, longer[k])
      ensures s.now >= longer[k].now + c.hold
    {
      assert k < |run| && longer[k] == run[k];
      assert run[|run| - 1].now >= run[k].now + c.hold;
      assert longer[|run| - 1].now <= longer[|run|].now;
    }
  }

  lemma QuietKeepsOn(c: Config, run: seq<Sample>, s: Sample, until: Option<int>)
    requires c.enabled && !Triggers(c, s) && TimesRise(run + [s]) && UntilTells(c, run, until)
    ensures until.Some? && UntilTells(c, run + [s], until)
    ensures Protected(c, run + [s]) <==> s.now < until.value
  {
    var k: nat :| IsLastTrigger(c, run, k) && until == Some(run[k].now + c.hold);
    assert IsLastTrigger(c, run + [s], k);
    LastTriggerDecides(c, run + [s], k);
  }

  /** Without a trigger the status changes only when the hold ends. */
  lemma QuietStatus(spec: ProtectSpec, s: Sample, st: ProtectStatus)
    requires EffectiveConfig(spec).enabled && !Triggers(EffectiveConfig(spec), s)
    ensures
      var after := Applied(st, Evaluate(spec, st, s));
      && (after.active <==> st.active && st.until.Some? && st.until.value > s.now)
      && (after.active ==> after.until == st.until)
      && after.trips == st.trips && after.since == st.since
  {
  }

  lemma QuietTells(c: Config, run: seq<Sample>, s: Sample, st: ProtectStatus, after: ProtectStatus)
    requires c.enabled && !Triggers(c, s) && TimesRise(run + [s]) && Tells(c, run, st)
    requires after.active <==> st.active && st.until.Some? && st.until.value > s.now
    requires after.active ==> after.until == st.until
    requires after.trips == st.trips && after.since == st.since
    ensures Tells(c, run + [s], after)
  {
    OneMoreEdge(c, run, s);
    SinceStep(c, run, s, st.since);
    if st.active {
      QuietKeepsOn(c, run, s, st.until);
    } else {
      QuietKeepsOff(c, run, s);
    }
  }

  lemma QuietStep(spec: ProtectSpec, run: seq<Sample>, s: Sample, st: ProtectStatus)
    requires EffectiveConfig(spec).enabled && !Triggers(EffectiveConfig(spec), s)
    requires TimesRise(run + [s]) && Tells(EffectiveConfig(spec), run, st)
    ensures Tells(EffectiveConfig(spec), run + [s], Applied(st, Evaluate(spec, st, s)))
  {
    QuietStatus(spec, s, st);
    QuietTells(EffectiveConfig(spec), run, s, st, Applied(st, Evaluate(spec, st, s)));
  }

  /** Protection, driven only by the status of the round before, is what the whole history of
      samples says: active while some trigger's hold lasts, until the end of the last one's hold,
      with as many trips as it rose, and since the first trigger ever. */
  lemma {:induction false} StatusTellsHistory(spec: ProtectSpec, run: seq<Sample>)
    requires TimesRise(run)
    ensures Tells(EffectiveConfig(spec), run, StatusAfter(spec, run))
  {
    if run != [] {
      var before, s := run[..|run| - 1], run[|run| - 1];
      assert run == before + [s];
      StatusTellsHistory(spec, before);
      if !EffectiveConfig(spec).enabled {
        assert !Protected(EffectiveConfig(spec), run);
      } else if Triggers(EffectiveConfig(spec), s) {
        TriggerStep(spec, before, s, StatusAfter(spec, before));
      } else {
        QuietStep(spec, before, s, StatusAfter(spec, before));
      }
    }
  }

  // ---- When since is the start of the current trip ----

  /** Protection began with sample i. */
  predicate EdgeAt(c: Config, run: seq<Sample>, i: nat) {
    i < |run| && Protected(c, run[..i + 1]) && !Protected(c, run[..i])
  }

  predicate IsLastEdge(c: Config, run: seq<Sample>, k: nat) {
    EdgeAt(c, run, k) && forall i: nat | k < i < |run| :: !EdgeAt(c, run, i)
  }

  lemma EdgesUpTo(c: Config, run: seq<Sample>, i: nat)
    requires i < |run|
    ensures RisingEdges(c, run[..i + 1]) == RisingEdges(c, run[..i]) + if EdgeAt(c, run, i) then 1 else 0
  {
    assert run[..i + 1][..|run[..i + 1]| - 1] == run[..i];
  }

  lemma {:induction false} NoEdges(c: Config, run: seq<Sample>, i: nat, j: nat)
    requires i <= j <= |run| && forall k: nat | i <= k < j :: !EdgeAt(c, run, k)
    ensures RisingEdges(c, run[..j]) == RisingEdges(c, run[..i])
  {
    if i < j {
      NoEdges(c, run, i, j - 1);
      EdgesUpTo(c, run, j - 1);
    }
  }

  lemma {:induction false} EdgesOnlyAdd(c: Config, run: seq<Sample>, i: nat, j: nat)
    requires i <= j <= |run|
    ensures RisingEdges(c, run[..i]) <= RisingEdges(c, run[..j])
  {
    if i < j {
      EdgesOnlyAdd(c, run, i, j - 1);
      EdgesUpTo(c, run, j - 1);
    }
  }

  /** Protection that is on has begun at some time. */
  lemma {:induction false} LastEdge(c: Config, run: seq<Sample>, j: nat) returns (k: nat)
    requires j <= |run| && Protected(c, run[..j])
    ensures k < j && EdgeAt(c, run, k) && forall i: nat | k < i < j :: !EdgeAt(c, run, i)
  {
    if Protected(c, run[..j - 1]) {
      k := LastEdge(c, run, j - 1);
    } else {
      k := j - 1;
    }
  }

  lemma TriggerIsOn(c: Config, run: seq<Sample>, k: nat)
    requires c.enabled && c.hold > 0 && k < |run| && Triggers(c, run[k])
    ensures Protected(c, run[..k + 1])
  {
    assert run[..k + 1][k] == run[k];
  }

  lemma OffWithoutTrigger(c: Config, run: seq<Sample>, j: nat)
    requires j <= |run| && forall i | 0 <= i < j :: !Triggers(c, run[i])
    ensures !Protected(c, run[..j])
  {
    forall k | 0 <= k < j
      ensures !Triggers(c, run[..j][k])
    {
      assert run[..j][k] == run[k];
    }
  }

  /** The first trigger begins the first trip. */
  lemma FirstTriggerIsEdge(c: Config, run: seq<Sample>, f: nat)
    requires c.enabled && c.hold > 0 && IsFirstTrigger(c, run, f)
    ensures EdgeAt(c, run, f) && RisingEdges(c, run[..f + 1]) == 1
  {
    TriggerIsOn(c, run, f);
    forall i: nat | i < f
      ensures !EdgeAt(c, run, i)
    {
      OffWithoutTrigger(c, run, i + 1);
    }
    OffWithoutTrigger(c, run, f);
    NoEdges(c, run, 0, f);
    EdgesUpTo(c, run, f);
    assert run[..0] == [];
  }

  /** A later trip begins after the first trigger's hold is over. */
  lemma LaterEdgeIsLater(c: Config, run: seq<Sample>, f: nat, k: nat)
    requires c.enabled && c.hold > 0 && TimesRise(run) && f < k && EdgeAt(c, run, k) && Triggers(c, run[f])
    ensures run[f].now < run[k].now
  {
    var before := run[..k];
    assert before[f] == run[f] && before[|before| - 1] == run[k - 1];
    assert run[k - 1].now >= run[f].now + c.hold;
  }

  lemma NoEdgeBefore(c: Config, run: seq<Sample>, f: nat, k: nat)
    requires c.enabled && IsFirstTrigger(c, run, f) && EdgeAt(c, run, k)
    ensures f <= k
  {
    if k < f {
      OffWithoutTrigger(c, run, k + 1);
    }
  }

  /** The first trip is the current one if and only if it is the only one. */
  lemma FirstIsLastIff(c: Config, run: seq<Sample>, f: nat, k: nat)
    requires c.enabled && c.hold > 0 && TimesRise(run) && IsFirstTrigger(c, run, f) && IsLastEdge(c, run, k)
    ensures run[f].now == run[k].now <==> RisingEdges(c, run) == 1
  {
    FirstTriggerIsEdge(c, run, f);
    NoEdgeBefore(c, run, f, k);
    EdgesInAll(c, run, k);
    if f < k {
      LaterEdgeIsLater(c, run, f, k);
      EdgesOnlyAdd(c, run, f + 1, k);
    }
  }

  lemma EdgesInAll(c: Config, run: seq<Sample>, k: nat)
    requires IsLastEdge(c, run, k)
    ensures RisingEdges(c, run) == RisingEdges(c, run[..k + 1]) == RisingEdges(c, run[..k]) + 1
  {
    assert run[..|run|] == run;
    NoEdges(c, run, k + 1, |run|);
    EdgesUpTo(c, run, k);
  }

  /** While the pool is protected, the start that the status shows is that of the current trip if and only if
      there was no other: in a later trip it still shows the start of the first. */
  lemma SinceIsCurrentIff(spec: ProtectSpec, run: seq<Sample>) returns (k: nat)
    requires TimesRise(run) && EffectiveConfig(spec).enabled && StatusAfter(spec, run).active
    ensures IsLastEdge(EffectiveConfig(spec), run, k)
    ensures
      var st := StatusAfter(spec, run);
      st.since == Some(run[k].now) <==> st.trips == 1
  {
    var c, st := EffectiveConfig(spec), StatusAfter(spec, run);
    StatusTellsHistory(spec, run);
    assert run[..|run|] == run;
    k := LastEdge(c, run, |run|);
    var f := FirstOf(c, run, st.since);
    FirstIsLastIff(c, run, f, k);
  }

  lemma FirstOf(c: Config, run: seq<Sample>, since: Option<int>) returns (f: nat)
    requires SinceTells(c, run, since) && Protected(c, run)
    ensures IsFirstTrigger(c, run, f) && since == Some(run[f].now)
  {
    if since.Some? {
      f :| IsFirstTrigger(c, run, f) && since.value == run[f].now;
    }
  }

  /** Since is never the start of a second trip: it stays where the first one put it. */
  lemma SinceIsNotTheCurrentTrip(spec: ProtectSpec, first: Sample, quiet: Sample, again: Sample)
    requires EffectiveConfig(spec).enabled
    requires Triggers(EffectiveConfig(spec), first) && Triggers(EffectiveConfig(spec), again)
    requires !Triggers(EffectiveConfig(spec), quiet)
    requires first.now + EffectiveConfig(spec).hold <= quiet.now <= again.now
    ensures
      var st := StatusAfter(spec, [first, quiet, again]);
      st.active && st.trips == 2 && st.since == Some(first.now) && first.now < again.now
  {
    assert [first, quiet, again][..2] == [first, quiet];
    assert StatusAfter(spec, [first]) == Applied(Unprotected(), Evaluate(spec, Unprotected(), first));
    assert StatusAfter(spec, [first, quiet]) ==
      Applied(StatusAfter(spec, [first]), Evaluate(spec, StatusAfter(spec, [first]), quiet)) by {
      assert [first, quiet][..1] == [first];
    }
  }
}
