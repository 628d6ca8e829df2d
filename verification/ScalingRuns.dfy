/** The scaling history of internal/controller/pool_controller.go, and whole runs of rounds: what
    the two time-based brakes, cooldown and oscillation detection, guarantee over time. */
module ScalingRuns {
  import opened Api
  import opened Scaling

  const OSCILLATION_WINDOW := 300

  datatype ScaleEvent = ScaleEvent(at: int, up: bool)

  /** The events after the cutoff. */
  function Kept(h: seq<ScaleEvent>, cutoff: int): seq<ScaleEvent> {
    if h == [] then []
    else Kept(h[..|h| - 1], cutoff) + if h[|h| - 1].at > cutoff then [h[|h| - 1]] else []
  }

  /** How often the direction changes from one event to the next. */
  function Reversals(h: seq<ScaleEvent>): nat {
    if |h| < 2 then 0
    else Reversals(h[..|h| - 1]) + if h[|h| - 1].up != h[|h| - 2].up then 1 else 0
  }

  function Recorded(h: seq<ScaleEvent>, delta: int, now: int): seq<ScaleEvent> {
    if delta == 0 then h else Kept(h + [ScaleEvent(now, delta > 0)], now - OSCILLATION_WINDOW)
  }

  lemma OneMoreEvent(h: seq<ScaleEvent>, e: ScaleEvent)
    ensures Reversals(h + [e]) == Reversals(h) + if h != [] && h[|h| - 1].up != e.up then 1 else 0
  {
    assert (h + [e])[..|h|] == h;
  }

  /** The reversals since the window began; an event at its very start counts. */
  function RecentReversals(h: seq<ScaleEvent>, now: int): nat {
    Reversals(Kept(h, now - OSCILLATION_WINDOW - 1))
  }

  lemma KeptPrefix(h: seq<ScaleEvent>, i: nat, cutoff: int)
    requires i < |h|
    ensures Kept(h[..i + 1], cutoff) == if h[i].at > cutoff then Kept(h[..i], cutoff) + [h[i]] else Kept(h[..i], cutoff)
  {
    assert h[..i + 1][..i] == h[..i];
  }

  lemma KeptGrows(h: seq<ScaleEvent>, e: ScaleEvent, cutoff: int)
    ensures Kept(h + [e], cutoff) == Kept(h, cutoff) + if e.at > cutoff then [e] else []
  {
    assert (h + [e])[..|h|] == h;
  }

  lemma {:induction false} KeptIsShorter(h: seq<ScaleEvent>, cutoff: int)
    ensures |Kept(h, cutoff)| <= |h|
  {
    if h != [] {
      KeptIsShorter(h[..|h| - 1], cutoff);
    }
  }

  // ---- The history in memory ----

  lemma CountStep(h: seq<ScaleEvent>, i: nat, cutoff: int, n: nat, prev: Option<bool>)
    requires i < |h| && Counted(Kept(h[..i], cutoff - 1), n, prev)
    ensures
      if h[i].at >= cutoff then
        Counted(Kept(h[..i + 1], cutoff - 1), if prev.Some? && h[i].up != prev.value then n + 1 else n, Some(h[i].up))
      else Counted(Kept(h[..i + 1], cutoff - 1), n, prev)
  {
    KeptPrefix(h, i, cutoff - 1);
    OneMoreEvent(Kept(h[..i], cutoff - 1), h[i]);
  }

  /** What the counting loop knows of the events it has counted. */
  predicate Counted(seen: seq<ScaleEvent>, n: nat, prev: Option<bool>) {
    n == Reversals(seen) && prev == if seen == [] then None else Some(seen[|seen| - 1].up)
  }

  /** r.history[pool]: a growing buffer, pruned in place. */
  class ScaleHistory {
    var buf: array<ScaleEvent>
    var len: nat

    ghost predicate Valid()
      reads this
    {
      len <= buf.Length
    }

    ghost function Events(): seq<ScaleEvent>
      requires Valid()
      reads this, buf
    {
      buf[..len]
    }

    constructor ()
      ensures Valid() && Events() == [] && fresh(buf)
    {
      buf := new ScaleEvent[0];
      len := 0;
    }

    method Append(e: ScaleEvent)
      requires Valid()
      modifies this, buf
      ensures Valid() && Events() == old(Events()) + [e] && (buf == old(buf) || fresh(buf))
    {
      if len == buf.Length {
        var bigger := new ScaleEvent[2 * len + 1](_ => e);
        for i := 0 to len
          invariant buf == old(buf) && len == old(len) <= buf.Length && buf[..len] == old(buf[..len])
          invariant bigger.Length == 2 * len + 1 && bigger[..i] == buf[..i]
        {
          bigger[i] := buf[i];
        }
        buf := bigger;
      }
      buf[len] := e;
      len := len + 1;
    }

    static lemma FrontGrows(b: seq<ScaleEvent>, kept: nat, e: ScaleEvent)
      requires kept < |b|
      ensures b[kept := e][..kept + 1] == b[..kept] + [e]
    {
    }

    /** Keeps what is after the cutoff, sliding it to the front of the same buffer. */
    method Prune(cutoff: int)
      requires Valid()
      modifies this, buf
      ensures Valid() && Events() == Kept(old(Events()), cutoff) && buf == old(buf)
    {
      ghost var h := Events();
      var kept := 0;
      for i := 0 to len
        invariant kept <= i <= len == old(len) && buf == old(buf) && len <= buf.Length
        invariant buf[..kept] == Kept(h[..i], cutoff)
        invariant forall j | i <= j < len :: buf[j] == h[j]
      {
        KeptPrefix(h, i, cutoff);
        if buf[i].at > cutoff {
          FrontGrows(buf[..], kept, buf[i]);
          buf[kept] := buf[i];
          kept := kept + 1;
        }
      }
      assert h[..len] == h;
      len := kept;
    }

    /** recordScale */
    method RecordScale(delta: int, now: int)
      requires Valid()
      modifies this, buf
      ensures Valid() && Events() == Recorded(old(Events()), delta, now)
      ensures buf == old(buf) || fresh(buf)
    {
      if delta == 0 {
        return;
      }
      Append(ScaleEvent(now, delta > 0));
      Prune(now - OSCILLATION_WINDOW);
    }

    /** reversals */
    method CountReversals(now: int) returns (n: nat)
      requires Valid()
      ensures n == RecentReversals(Events(), now)
    {
      ghost var h := Events();
      var cutoff := now - OSCILLATION_WINDOW;
      if len < 2 {
        KeptIsShorter(h, cutoff - 1);
        return 0;
      }
      n := 0;
      var prev: Option<bool> := None;
      for i := 0 to len
        invariant Counted(Kept(h[..i], cutoff - 1), n, prev)
      {
        CountStep(h, i, cutoff, n, prev);
        var e := buf[i];
        if e.at >= cutoff {
          if prev.Some? && e.up != prev.value {
            n := n + 1;
          }
          prev := Some(e.up);
        }
      }
      assert h[..len] == h;
    }
  }

  // ---- Rounds ----

  /** How a round ends: its status write wins, or it loses, or an error ended the round while it was
      creating or marking stock, before anything was recorded. */
  datatype Ending = Committed | Lost | Failed

  /** One reconcile of the pool. available tells whether the isolation level can run at all; moved is
      how many sandboxes could be created or marked. A round that does not commit may have seen any
      last decision: its copy of the pool may have been stale. */
  datatype PoolRound = PoolRound(sc: PoolSpec, o: Observation, available: bool, moved: nat, end: Ending)

  datatype Move = Move(at: int, delta: int, sc: PoolSpec)

  /** lastAt and lastDelta are persisted, history is memory. The rest are logs: events of what was
      recorded, executed of what was really created or marked, moves of what the status was told. */
  datatype State = State(
    lastAt: Option<int>,
    lastDelta: int,
    predicted: int,
    history: seq<ScaleEvent>,
    events: seq<ScaleEvent>,
    executed: seq<Move>,
    moves: seq<Move>)

  function Seen(s: State, r: PoolRound): Observation {
    var o := r.o.(reversals := RecentReversals(s.history, r.o.now));
    if r.end.Committed? then o.(lastScaleAt := s.lastAt, lastScaleDelta := s.lastDelta, predictedDemand := s.predicted)
    else o
  }

  /** Without a runtime a pool that is not being drained holds, and forgets the demand. */
  function DecidedOn(r: PoolRound, o: Observation): Decision {
    if !r.sc.drain && !r.available then Decision(ScaleHold, o.warm, 0, NoReason, 0, false, NoReason, false)
    else DecideScaling(r.sc, o)
  }

  function Decided(s: State, r: PoolRound): Decision {
    DecidedOn(r, Seen(s, r))
  }

  /** As much of a move as could be made, in its direction. */
  function CarriedOut(delta: int, most: int): int {
    if most >= Abs(delta) then delta else if delta > 0 then most else -most
  }

  /** What is really created or marked. */
  function Moved(s: State, r: PoolRound): int {
    CarriedOut(Decided(s, r).delta, r.moved)
  }

  /** What recordScale is told. */
  function Told(s: State, r: PoolRound): int {
    if r.end.Failed? then 0 else Moved(s, r)
  }

  function Done(log: seq<Move>, m: int, r: PoolRound): seq<Move> {
    if m == 0 then log else log + [Move(r.o.now, m, r.sc)]
  }

  function Logged(log: seq<ScaleEvent>, m: int, now: int): seq<ScaleEvent> {
    if m == 0 then log else log + [ScaleEvent(now, m > 0)]
  }

  function Next(s: State, r: PoolRound): State {
    var d, m, now := Decided(s, r), Told(s, r), r.o.now;
    State(
      if r.end.Committed? && d.delta != 0 then Some(now) else s.lastAt,
      if r.end.Committed? && d.delta != 0 then d.delta else s.lastDelta,
      if r.end.Committed? then d.predictedDemand else s.predicted,
      Recorded(s.history, m, now),
      Logged(s.events, m, now),
      Done(s.executed, Moved(s, r), r),
      if r.end.Committed? && d.delta != 0 then s.moves + [Move(now, d.delta, r.sc)] else s.moves)
  }

  function Fresh(): State {
    State(None, 0, 0, [], [], [], [])
  }

  function Play(rounds: seq<PoolRound>): State {
    if rounds == [] then Fresh() else Next(Play(rounds[..|rounds| - 1]), rounds[|rounds| - 1])
  }

  predicate ClockRises(rounds: seq<PoolRound>) {
    forall i, j | 0 <= i < j < |rounds| :: rounds[i].o.now <= rounds[j].o.now
  }

  /** PoolReconciler, as far as scaling goes: what is persisted in the status, and the history. */
  class PoolController {
    var lastAt: Option<int>
    var lastDelta: int
    var predicted: int
    const history: ScaleHistory
    ghost var events: seq<ScaleEvent>
    ghost var executed: seq<Move>
    ghost var moves: seq<Move>

    ghost predicate Valid()
      reads this, history
    {
      history.Valid()
    }

    ghost function Value(): State
      requires Valid()
      reads this, history, history.buf
    {
      State(lastAt, lastDelta, predicted, history.Events(), events, executed, moves)
    }

    constructor ()
      ensures Valid() && Value() == Fresh() && fresh(history) && fresh(history.buf)
    {
      lastAt, lastDelta, predicted := None, 0, 0;
      history := new ScaleHistory();
      events, executed, moves := [], [], [];
    }

    method Observe(r: PoolRound) returns (o: Observation)
      requires Valid()
      ensures o == Seen(Value(), r)
    {
      var n := history.CountReversals(r.o.now);
      o := r.o.(reversals := n);
      if r.end.Committed? {
        o := o.(lastScaleAt := lastAt, lastScaleDelta := lastDelta, predictedDemand := predicted);
      }
    }

    /** createStock or markDraining, which may get only part of the way. */
    method Act(d: Decision, most: int) returns (moved: int)
      requires most >= 0 && (d.action.ScaleUp? <==> d.delta > 0) && (d.action.ScaleDown? <==> d.delta < 0)
      ensures moved == CarriedOut(d.delta, most)
    {
      match d.action {
        case ScaleUp =>
          moved := if most >= d.delta then d.delta else most;
        case ScaleDown =>
          moved := if most >= -d.delta then d.delta else -most;
        case ScaleHold =>
          moved := 0;
      }
    }

    /** finish: what the status remembers of a decision, if the write wins. */
    method Finish(r: PoolRound, d: Decision)
      modifies `lastAt, `lastDelta, `predicted, `moves
      ensures predicted == if r.end.Committed? then d.predictedDemand else old(predicted)
      ensures
        if r.end.Committed? && d.delta != 0 then
          lastAt == Some(r.o.now) && lastDelta == d.delta && moves == old(moves) + [Move(r.o.now, d.delta, r.sc)]
        else lastAt == old(lastAt) && lastDelta == old(lastDelta) && moves == old(moves)
    {
      if r.end.Committed? {
        predicted := d.predictedDemand;
        if d.delta != 0 {
          lastAt, lastDelta := Some(r.o.now), d.delta;
          moves := moves + [Move(r.o.now, d.delta, r.sc)];
        }
      }
    }

    /** One pass: count reversals, decide, act, record, and write the status if the copy was current. */
    method Reconcile(r: PoolRound) returns (d: Decision)
      requires Valid()
      modifies this, history, history.buf
      ensures Valid() && d == Decided(old(Value()), r) && Value() == Next(old(Value()), r)
      ensures history.buf == old(history.buf) || fresh(history.buf)
    {
      var o := Observe(r);
      d := DecidedOn(r, o);
      ActionTellsDelta(r, o);
      var moved := Act(d, r.moved);
      executed := Done(executed, moved, r);
      if r.end.Failed? {
        return;
      }
      history.RecordScale(moved, r.o.now);
      events := Logged(events, moved, r.o.now);
      Finish(r, d);
    }
  }

  lemma ActionTellsDelta(r: PoolRound, o: Observation)
    ensures
      var d := DecidedOn(r, o);
      && (d.action.ScaleUp? <==> d.delta > 0) && (d.action.ScaleDown? <==> d.delta < 0)
  {
    DecisionIsLargestAdmissible(r.sc, o);
  }

  // ---- Oscillation ----

  predicate Sorted(h: seq<ScaleEvent>) {
    forall i, j | 0 <= i < j < |h| :: h[i].at <= h[j].at
  }

  lemma NewestDecides(h: seq<ScaleEvent>, cutoff: int, i: nat)
    requires Sorted(h) && i < |h| && h[|h| - 1].at <= cutoff
    ensures h[i].at <= cutoff
  {
  }

  /** Pruning a sorted log cuts off its beginning. */
  lemma {:induction false} KeptIsTail(h: seq<ScaleEvent>, cutoff: int) returns (k: nat)
    requires Sorted(h)
    ensures k <= |h| && Kept(h, cutoff) == h[k..]
    ensures forall i | 0 <= i < |h| :: h[i].at > cutoff <==> k <= i
  {
    if h == [] {
      k := 0;
    } else {
      var n := |h| - 1;
      k := KeptIsTail(h[..n], cutoff);
      if h[n].at > cutoff {
        assert h[..n][k..] + [h[n]] == h[k..];
      } else {
        if k < n {
          NewestDecides(h, cutoff, k);
        }
        k := |h|;
      }
    }
  }

  lemma {:induction false} TailReversesLess(h: seq<ScaleEvent>, k: nat)
    requires k <= |h|
    ensures Reversals(h[k..]) <= Reversals(h)
  {
    if |h| - k >= 2 {
      var n := |h| - 1;
      TailReversesLess(h[..n], k);
      assert h[k..][..n - k] == h[..n][k..];
    }
  }

  /** What is in memory is the end of the full log, and whatever is missing is a window older than
      the newest event. */
  predicate MemoryIsTail(s: State, k: nat) {
    && Sorted(s.events) && k <= |s.events| && s.history == s.events[k..]
    && forall i | 0 <= i < k :: s.events[i].at <= s.events[|s.events| - 1].at - OSCILLATION_WINDOW
  }

  /** At most three reversals in any stretch of events that is shorter than the window. */
  predicate Calm(events: seq<ScaleEvent>) {
    forall i, j | 0 <= i < j <= |events| ::
      events[j - 1].at - events[i].at < OSCILLATION_WINDOW ==> Reversals(events[i..j]) <= MAX_REVERSALS
  }

  lemma Tails(h: seq<ScaleEvent>, a: nat, b: nat)
    requires a + b <= |h|
    ensures h[a..][b..] == h[a + b..]
  {
  }

  lemma TailIsSorted(h: seq<ScaleEvent>, k: nat)
    requires Sorted(h) && k <= |h|
    ensures Sorted(h[k..])
  {
    forall i, j | 0 <= i < j < |h[k..]|
      ensures h[k..][i].at <= h[k..][j].at
    {
      assert h[k..][i] == h[k + i] && h[k..][j] == h[k + j];
    }
  }

  lemma RecentCoversTail(h: seq<ScaleEvent>, now: int, i: nat)
    requires Sorted(h) && i < |h| && h[i].at >= now - OSCILLATION_WINDOW
    ensures Reversals(h[i..]) <= RecentReversals(h, now)
  {
    var k := KeptIsTail(h, now - OSCILLATION_WINDOW - 1);
    assert k <= i;
    TailInTail(h, k, i);
  }

  lemma TailInTail(h: seq<ScaleEvent>, k: nat, i: nat)
    requires k <= i <= |h|
    ensures Reversals(h[i..]) <= Reversals(h[k..])
  {
    Tails(h, k, i - k);
    TailReversesLess(h[k..], i - k);
  }

  /** The events of one window before an event that was let through. */
  lemma WindowBefore(s: State, k: nat, now: int, i: nat)
    requires MemoryIsTail(s, k) && i < |s.events|
    requires s.events[|s.events| - 1].at <= now < s.events[i].at + OSCILLATION_WINDOW
    ensures Reversals(s.events[i..]) <= RecentReversals(s.history, now)
  {
    assert i >= k;
    TailIsSorted(s.events, k);
    Tails(s.events, k, i - k);
    RecentCoversTail(s.history, now, i - k);
  }

  lemma EventKeepsCalm(s: State, k: nat, e: ScaleEvent)
    requires MemoryIsTail(s, k) && Calm(s.events)
    requires s.events != [] ==> s.events[|s.events| - 1].at <= e.at
    requires RecentReversals(s.history, e.at) < MAX_REVERSALS
    ensures Calm(s.events + [e])
  {
    var longer := s.events + [e];
    forall i, j | 0 <= i < j <= |longer| && longer[j - 1].at - longer[i].at < OSCILLATION_WINDOW
      ensures Reversals(longer[i..j]) <= MAX_REVERSALS
    {
      if j <= |s.events| {
        assert longer[i..j] == s.events[i..j];
      } else if i < |s.events| {
        WindowBefore(s, k, e.at, i);
        assert longer[i..j] == s.events[i..] + [e];
        OneMoreEvent(s.events[i..], e);
      }
    }
  }

  /** The cut of a tail is a cut of the whole. */
  lemma TailOfTail(h: seq<ScaleEvent>, k: nat, c: nat, cutoff: int)
    requires k <= |h| && c <= |h[k..]|
    requires forall i | 0 <= i < k :: h[i].at <= cutoff
    requires forall i | 0 <= i < |h[k..]| :: h[k..][i].at > cutoff <==> c <= i
    ensures h[k..][c..] == h[k + c..]
    ensures forall i | 0 <= i < k + c :: h[i].at <= cutoff
  {
    forall i | k <= i < k + c
      ensures h[i].at <= cutoff
    {
      assert h[k..][i - k] == h[i];
    }
  }

  lemma LongerIsSorted(h: seq<ScaleEvent>, e: ScaleEvent)
    requires Sorted(h) && (h != [] ==> h[|h| - 1].at <= e.at)
    ensures Sorted(h + [e])
  {
    assert forall i | 0 <= i < |h| :: h[i].at <= e.at;
  }

  lemma EventKeepsMemory(s: State, k: nat, e: ScaleEvent) returns (k': nat)
    requires MemoryIsTail(s, k)
    requires s.events != [] ==> s.events[|s.events| - 1].at <= e.at
    ensures k' <= |s.events + [e]|
    ensures Kept(s.history + [e], e.at - OSCILLATION_WINDOW) == (s.events + [e])[k'..]
    ensures forall i | 0 <= i < k' :: (s.events + [e])[i].at <= e.at - OSCILLATION_WINDOW
    ensures Sorted(s.events + [e])
  {
    var longer, cutoff := s.events + [e], e.at - OSCILLATION_WINDOW;
    LongerIsSorted(s.events, e);
    assert s.history + [e] == longer[k..];
    TailIsSorted(longer, k);
    var c := KeptIsTail(longer[k..], cutoff);
    TailOfTail(longer, k, c, cutoff);
    k' := k + c;
  }

  /** Only a round that was not held back moves stock. */
  lemma MovesOnlyWhenCalm(s: State, r: PoolRound)
    requires Told(s, r) != 0
    ensures RecentReversals(s.history, r.o.now) < MAX_REVERSALS
  {
    DecisionIsLargestAdmissible(r.sc, Seen(s, r));
  }

  predicate Healthy(s: State, k: nat, now: int) {
    && MemoryIsTail(s, k) && Calm(s.events)
    && (s.events != [] ==> s.events[|s.events| - 1].at <= now)
  }

  lemma EventKeepsHealth(s: State, k: nat, e: ScaleEvent, t: State) returns (k': nat)
    requires Healthy(s, k, e.at) && RecentReversals(s.history, e.at) < MAX_REVERSALS
    requires t.history == Kept(s.history + [e], e.at - OSCILLATION_WINDOW) && t.events == s.events + [e]
    ensures Healthy(t, k', e.at)
  {
    EventKeepsCalm(s, k, e);
    k' := EventKeepsMemory(s, k, e);
  }

  lemma RoundKeepsHealth(s: State, k: nat, r: PoolRound) returns (k': nat)
    requires Healthy(s, k, r.o.now)
    ensures Healthy(Next(s, r), k', r.o.now)
  {
    if Told(s, r) == 0 {
      k' := k;
    } else {
      MovesOnlyWhenCalm(s, r);
      k' := EventKeepsHealth(s, k, ScaleEvent(r.o.now, Told(s, r) > 0), Next(s, r));
    }
  }

  lemma {:induction false} RunKeepsHealth(rounds: seq<PoolRound>, now: int) returns (k: nat)
    requires ClockRises(rounds) && (rounds != [] ==> rounds[|rounds| - 1].o.now <= now)
    ensures Healthy(Play(rounds), k, now)
    decreases |rounds|
  {
    if rounds == [] {
      k := 0;
    } else {
      var before, r := rounds[..|rounds| - 1], rounds[|rounds| - 1];
      k := RunKeepsHealth(before, r.o.now);
      k := RoundKeepsHealth(Play(before), k, r);
    }
  }

  /** Over any run, whatever the pool observes: the moves that were recorded change direction at
      most three times within any window, counted without its first instant. */
  lemma ReversalsAreBounded(rounds: seq<PoolRound>)
    requires ClockRises(rounds)
    ensures Calm(Play(rounds).events)
  {
    var k := RunKeepsHealth(rounds, if rounds == [] then 0 else rounds[|rounds| - 1].o.now);
  }

  /** The instants and directions of what was really done. */
  function Directions(executed: seq<Move>): seq<ScaleEvent> {
    seq(|executed|, i requires 0 <= i < |executed| => ScaleEvent(executed[i].at, executed[i].delta > 0))
  }

  lemma OneMoreDirection(executed: seq<Move>, m: Move)
    ensures Directions(executed + [m]) == Directions(executed) + [ScaleEvent(m.at, m.delta > 0)]
  {
  }

  /** Unless errors end rounds after they moved stock, everything done is recorded, and so the bound on
      reversals is one on what was really done. */
  lemma {:induction false} ExecutedIsRecorded(rounds: seq<PoolRound>)
    requires forall i | 0 <= i < |rounds| :: !rounds[i].end.Failed?
    ensures Play(rounds).events == Directions(Play(rounds).executed)
  {
    if rounds != [] {
      var before, r := rounds[..|rounds| - 1], rounds[|rounds| - 1];
      ExecutedIsRecorded(before);
      var m := Moved(Play(before), r);
      OneMoreDirection(Play(before).executed, Move(r.o.now, m, r.sc));
    }
  }

  // ---- Cooldown ----

  function Cooldown(m: Move): int {
    if m.delta > 0 then m.sc.scaleUpCooldown else m.sc.scaleDownCooldown
  }

  predicate SameDirection(a: Move, b: Move) {
    (a.delta > 0 && b.delta > 0) || (a.delta < 0 && b.delta < 0)
  }

  predicate CooldownsKept(moves: seq<Move>) {
    forall i | 0 < i < |moves| :: SameDirection(moves[i - 1], moves[i]) ==>
        moves[i].at - moves[i - 1].at >= Cooldown(moves[i])
  }

  predicate LastIsPersisted(s: State) {
    if s.moves == [] then s.lastAt.None?
    else
      var m := s.moves[|s.moves| - 1];
      s.lastAt == Some(m.at) && s.lastDelta == m.delta && m.delta != 0
  }

  predicate Cooled(s: State, now: int) {
    LastIsPersisted(s) && CooldownsKept(s.moves) && (s.moves != [] ==> s.moves[|s.moves| - 1].at <= now)
  }

  /** A committed move in the direction of the last one was let through by the cooldown. */
  lemma MoveWaited(s: State, r: PoolRound)
    requires r.end.Committed? && s.lastAt.Some? && Decided(s, r).delta != 0
    ensures
      var m := Move(r.o.now, Decided(s, r).delta, r.sc);
      SameDirection(Move(s.lastAt.value, s.lastDelta, r.sc), m) ==>
          Cooldown(m) <= 0 || m.at - s.lastAt.value >= Cooldown(m)
  {
    var o := Seen(s, r);
    DecisionIsLargestAdmissible(r.sc, o);
    assert !CoolingDown(r.sc, o, if Gap(r.sc, o) < 0 then ScaleDown else ScaleUp);
  }

  lemma OneMoreMove(moves: seq<Move>, m: Move)
    requires CooldownsKept(moves)
    requires
      moves != [] && SameDirection(moves[|moves| - 1], m) ==> m.at - moves[|moves| - 1].at >= Cooldown(m)
    ensures CooldownsKept(moves + [m])
  {
    var longer := moves + [m];
    forall i | 0 < i < |longer| && SameDirection(longer[i - 1], longer[i])
      ensures longer[i].at - longer[i - 1].at >= Cooldown(longer[i])
    {
      if i < |moves| {
        assert longer[i - 1] == moves[i - 1] && longer[i] == moves[i];
      }
    }
  }

  lemma CooldownStep(s: State, r: PoolRound)
    requires Cooled(s, r.o.now)
    ensures Cooled(Next(s, r), r.o.now)
  {
    var d := Decided(s, r).delta;
    if r.end.Committed? && d != 0 {
      if s.moves != [] {
        MoveWaited(s, r);
      }
      OneMoreMove(s.moves, Move(r.o.now, d, r.sc));
      PersistedMove(s, r);
    } else {
      NoMove(s, r);
    }
  }

  lemma PersistedMove(s: State, r: PoolRound)
    requires r.end.Committed? && Decided(s, r).delta != 0
    ensures
      var t, m := Next(s, r), Move(r.o.now, Decided(s, r).delta, r.sc);
      t.moves == s.moves + [m] && t.lastAt == Some(m.at) && t.lastDelta == m.delta
  {
  }

  lemma NoMove(s: State, r: PoolRound)
    requires !(r.end.Committed? && Decided(s, r).delta != 0)
    ensures var t := Next(s, r); t.moves == s.moves && t.lastAt == s.lastAt && t.lastDelta == s.lastDelta
  {
  }

  lemma {:induction false} RunKeepsCooled(rounds: seq<PoolRound>, now: int)
    requires ClockRises(rounds) && (rounds != [] ==> rounds[|rounds| - 1].o.now <= now)
    ensures Cooled(Play(rounds), now)
    decreases |rounds|
  {
    if rounds != [] {
      var before, r := rounds[..|rounds| - 1], rounds[|rounds| - 1];
      RunKeepsCooled(before, r.o.now);
      CooldownStep(Play(before), r);
    }
  }

  /** Over any run: two consecutive persisted moves in the same direction are at least that
      direction's cooldown apart, also when other rounds worked on stale copies in between. */
  lemma CooldownsHold(rounds: seq<PoolRound>)
    requires ClockRises(rounds)
    ensures CooldownsKept(Play(rounds).moves)
  {
    RunKeepsCooled(rounds, if rounds == [] then 0 else rounds[|rounds| - 1].o.now);
  }

  // ---- Cooldown of what was really done ----

  /** A round moves stock exactly when its status write tells of a move. */
  predicate ToldAsDone(s: State, r: PoolRound) {
    Moved(s, r) != 0 <==> r.end.Committed? && Decided(s, r).delta != 0
  }

  predicate ToldAt(rounds: seq<PoolRound>, i: nat)
    requires i < |rounds|
  {
    ToldAsDone(Play(rounds[..i]), rounds[i])
  }

  predicate StatusTellsAll(rounds: seq<PoolRound>) {
    forall i | 0 <= i < |rounds| :: ToldAt(rounds, i)
  }

  /** The status tells when, in which direction and under which spec. */
  predicate Matches(done: Move, told: Move) {
    && done.at == told.at && done.sc == told.sc
    && ((done.delta > 0 && told.delta > 0) || (done.delta < 0 && told.delta < 0))
  }

  predicate AllMatch(executed: seq<Move>, moves: seq<Move>) {
    |executed| == |moves| && forall i | 0 <= i < |executed| :: Matches(executed[i], moves[i])
  }

  lemma OneMoreMatches(executed: seq<Move>, moves: seq<Move>, done: Move, told: Move)
    requires AllMatch(executed, moves) && Matches(done, told)
    ensures AllMatch(executed + [done], moves + [told])
  {
  }

  lemma MovedOneWay(s: State, r: PoolRound)
    ensures Moved(s, r) > 0 ==> Decided(s, r).delta > 0
    ensures Moved(s, r) < 0 ==> Decided(s, r).delta < 0
  {
  }

  lemma RoundMatches(s: State, r: PoolRound)
    requires AllMatch(s.executed, s.moves) && ToldAsDone(s, r)
    ensures AllMatch(Next(s, r).executed, Next(s, r).moves)
  {
    var d, m := Decided(s, r).delta, Moved(s, r);
    if m != 0 {
      MovedOneWay(s, r);
      OneMoreMatches(s.executed, s.moves, Move(r.o.now, m, r.sc), Move(r.o.now, d, r.sc));
    }
  }

  lemma {:induction false} RunMatches(rounds: seq<PoolRound>)
    requires StatusTellsAll(rounds)
    ensures AllMatch(Play(rounds).executed, Play(rounds).moves)
  {
    if rounds != [] {
      var n := |rounds| - 1;
      assert ToldAt(rounds, n);
      PrefixTellsAll(rounds, n);
      RunMatches(rounds[..n]);
      RoundMatches(Play(rounds[..n]), rounds[n]);
    }
  }

  lemma ToldBefore(rounds: seq<PoolRound>, n: nat, i: nat)
    requires i < n <= |rounds| && ToldAt(rounds, i)
    ensures ToldAt(rounds[..n], i)
  {
    assert rounds[..n][..i] == rounds[..i];
  }

  lemma PrefixTellsAll(rounds: seq<PoolRound>, n: nat)
    requires n <= |rounds| && StatusTellsAll(rounds)
    ensures StatusTellsAll(rounds[..n])
  {
    forall i | 0 <= i < n
      ensures ToldAt(rounds[..n], i)
    {
      ToldBefore(rounds, n, i);
    }
  }

  /** Over any run in which every round that moved stock told the status so, and none told it of a move
      that was not made: what was really done in one direction is a cooldown apart. */
  lemma ExecutedMovesCoolDown(rounds: seq<PoolRound>)
    requires ClockRises(rounds) && StatusTellsAll(rounds)
    ensures CooldownsKept(Play(rounds).executed)
  {
    var s := Play(rounds);
    CooldownsHold(rounds);
    RunMatches(rounds);
    forall i | 0 < i < |s.executed| && SameDirection(s.executed[i - 1], s.executed[i])
      ensures s.executed[i].at - s.executed[i - 1].at >= Cooldown(s.executed[i])
    {
      assert Matches(s.executed[i - 1], s.moves[i - 1]) && Matches(s.executed[i], s.moves[i]);
    }
  }

  /** The round worked on the current status, but its own did not get through. */
  predicate Unheard(s: State, r: PoolRound) {
    && !r.end.Committed?
    && r.o.lastScaleAt == s.lastAt && r.o.lastScaleDelta == s.lastDelta && r.o.predictedDemand == s.predicted
  }

  /** A round that moved stock and did not get to tell the status is done over again by the next one,
      at the same instant and whatever the cooldown, as long as the stock it moved is not yet seen. */
  lemma {:induction false} LostMovesRepeat(s: State, r: PoolRound)
    requires Unheard(s, r) && Moved(s, r) != 0
    requires RecentReversals(Next(s, r).history, r.o.now) < MAX_REVERSALS
    ensures
      var again, m := r.(end := Committed), Move(r.o.now, Moved(s, r), r.sc);
      Next(Next(s, r), again).executed == s.executed + [m, m]
    ensures Cooldown(Move(r.o.now, Moved(s, r), r.sc)) > 0 ==>
        !CooldownsKept(Next(Next(s, r), r.(end := Committed)).executed)
  {
    var t, again := Next(s, r), r.(end := Committed);
    DecisionIsLargestAdmissible(r.sc, Seen(s, r));
    SameDecision(r.sc, Seen(s, r), RecentReversals(t.history, r.o.now));
    assert Seen(t, again) == Seen(s, r).(reversals := RecentReversals(t.history, r.o.now));
    var m, n := Move(r.o.now, Moved(s, r), r.sc), |s.executed|;
    TwiceDone(s.executed, m);
  }

  lemma TwiceDone(executed: seq<Move>, m: Move)
    requires m.delta != 0
    ensures executed + [m] + [m] == executed + [m, m]
    ensures Cooldown(m) > 0 ==> !CooldownsKept(executed + [m, m])
  {
    var twice, n := executed + [m, m], |executed| + 1;
    assert twice[n - 1] == m && twice[n] == m;
  }

  // ---- Where the brakes end ----

  /** A pool without hysteresis that wants ten pieces of stock. */
  function Nervous(cooldown: int): PoolSpec {
    PoolSpec(0, 10, 10, 50, 30, 90, 900, cooldown, cooldown, 0, 300, false, false,
             Protect.ProtectSpec(None, 30, 10, 2000, 120, 500))
  }

  /** A round that finds no stock, or twice as much as wanted. */
  function Swing(cooldown: int, now: int, up: bool, moved: nat, end: Ending): PoolRound {
    PoolRound(Nervous(cooldown), Observation(now, if up then 0 else 20, 0, 0, 0.0, -1, None, 0, 0, -1, false), true,
              moved, end)
  }

  function Direction(up: bool): Action {
    if up then ScaleUp else ScaleDown
  }

  lemma SwingDecides(s: State, r: PoolRound, cooldown: int, up: bool)
    requires r == Swing(cooldown, r.o.now, up, r.moved, r.end) && s.predicted == 0
    requires RecentReversals(s.history, r.o.now) < MAX_REVERSALS
    requires !CoolingDown(Nervous(cooldown), Seen(s, r), Direction(up))
    ensures Decided(s, r).delta == (if up then 10 else -10) && Decided(s, r).predictedDemand == 0
  {
    var o := Seen(s, r);
    assert Demand(Nervous(cooldown), o) == 0.0;
    assert WantedStock(Nervous(cooldown), o) == 10.0;
    assert Target(Nervous(cooldown), o) == 10;
  }

  /** A swing that commits puts its event into the log and into memory. */
  predicate SwungBy(s: State, t: State, e: ScaleEvent) {
    && t.predicted == 0 && t.events == s.events + [e]
    && t.history == Kept(s.history + [e], e.at - OSCILLATION_WINDOW)
  }

  lemma SwingMoves(s: State, e: ScaleEvent)
    requires s.predicted == 0 && RecentReversals(s.history, e.at) < MAX_REVERSALS
    ensures SwungBy(s, Next(s, Swing(0, e.at, e.up, 10, Committed)), e)
  {
    var r := Swing(0, e.at, e.up, 10, Committed);
    NeverCoolingDown(Seen(s, r), Direction(e.up));
    SwingDecides(s, r, 0, e.up);
    DecidedSwing(s, r, e);
  }

  lemma NeverCoolingDown(o: Observation, dir: Action)
    ensures !CoolingDown(Nervous(0), o, dir)
  {
  }

  lemma DecidedSwing(s: State, r: PoolRound, e: ScaleEvent)
    requires r.end.Committed? && r.moved == 10 && r.o.now == e.at
    requires Decided(s, r).delta == (if e.up then 10 else -10) && Decided(s, r).predictedDemand == 0
    ensures SwungBy(s, Next(s, r), e)
  {
  }

  // Cooldown: a lost write, and a decision that could not be carried out.

  lemma OneMoreRound(rounds: seq<PoolRound>, r: PoolRound)
    ensures Play(rounds + [r]) == Next(Play(rounds), r)
  {
    assert (rounds + [r])[..|rounds|] == rounds;
  }

  lemma OneRound(r: PoolRound)
    ensures Play([r]) == Next(Fresh(), r)
  {
    OneMoreRound([], r);
    assert [] + [r] == [r];
  }

  function FirstSwingUp(cooldown: int, end: Ending): PoolRound {
    Swing(cooldown, 0, true, 10, end)
  }

  function TenMore(cooldown: int): Move {
    Move(0, 10, Nervous(cooldown))
  }

  lemma FirstDecides(cooldown: int, end: Ending)
    ensures
      var d := Decided(Fresh(), FirstSwingUp(cooldown, end));
      d.delta == 10 && d.predictedDemand == 0
  {
    SwingDecides(Fresh(), FirstSwingUp(cooldown, end), cooldown, true);
  }

  lemma FirstMoves(cooldown: int, end: Ending)
    ensures
      var r := FirstSwingUp(cooldown, end);
      var t := Next(Fresh(), r);
      && Moved(Fresh(), r) == 10 && t.executed == [TenMore(cooldown)] && t.predicted == 0
      && |t.history| <= 1 && RecentReversals(t.history, 0) == 0
      && (end.Committed? ==> t.lastAt == Some(0) && t.lastDelta == 10)
  {
    FirstDecides(cooldown, end);
    var r := FirstSwingUp(cooldown, end);
    assert Moved(Fresh(), r) == 10;
    var t := Next(Fresh(), r);
    KeptIsShorter([ScaleEvent(0, true)], -OSCILLATION_WINDOW);
    KeptIsShorter(t.history, -OSCILLATION_WINDOW - 1);
  }

  lemma LostTwice(cooldown: int, end: Ending) returns (first: PoolRound)
    requires cooldown > 0 && !end.Committed?
    ensures
      var executed := Next(Next(Fresh(), first), first.(end := Committed)).executed;
      executed == [TenMore(cooldown), TenMore(cooldown)] && !CooldownsKept(executed)
    ensures first.end == end
  {
    first := FirstSwingUp(cooldown, end);
    FirstMoves(cooldown, end);
    LostMovesRepeat(Fresh(), first);
  }

  /** Whatever the cooldown, a run whose first status write is lost creates stock twice at once. */
  lemma LostWriteBreaksCooldown(cooldown: int, end: Ending) returns (first: PoolRound)
    requires cooldown > 0 && !end.Committed?
    ensures
      var executed := Play([first] + [first.(end := Committed)]).executed;
      executed == [TenMore(cooldown), TenMore(cooldown)] && !CooldownsKept(executed)
    ensures first.end == end
  {
    first := LostTwice(cooldown, end);
    OneRound(first);
    OneMoreRound([first], first.(end := Committed));
  }

  /** A shrinking that was decided and found no candidate leaves its mark in the status only. */
  lemma EmptyMove(s: State, cooldown: int)
    requires s.predicted == 0 && RecentReversals(s.history, 0) < MAX_REVERSALS
    requires s.lastAt == Some(0) && s.lastDelta == 10
    ensures
      var t := Next(s, Swing(cooldown, 0, false, 0, Committed));
      t.executed == s.executed && t.history == s.history && t.predicted == 0 && t.lastDelta == -10
  {
    SwingDecides(s, Swing(cooldown, 0, false, 0, Committed), cooldown, false);
  }

  lemma GrowAgain(s: State, cooldown: int)
    requires s.predicted == 0 && RecentReversals(s.history, 0) < MAX_REVERSALS && s.lastDelta == -10
    ensures Next(s, FirstSwingUp(cooldown, Committed)).executed == s.executed + [TenMore(cooldown)]
  {
    SwingDecides(s, FirstSwingUp(cooldown, Committed), cooldown, true);
  }

  lemma UpDownUp(cooldown: int) returns (up: PoolRound, down: PoolRound)
    requires cooldown > 0
    ensures !CooldownsKept(Next(Next(Next(Fresh(), up), down), up).executed)
    ensures up.end.Committed? && down.end.Committed? && up.o.now == down.o.now
  {
    up, down := FirstSwingUp(cooldown, Committed), Swing(cooldown, 0, false, 0, Committed);
    FirstMoves(cooldown, Committed);
    var s := Next(Fresh(), up);
    EmptyMove(s, cooldown);
    GrowAgain(Next(s, down), cooldown);
    TwiceDone([], TenMore(cooldown));
  }

  lemma ThreeRounds(a: PoolRound, b: PoolRound, c: PoolRound)
    ensures Play([a] + [b] + [c]) == Next(Next(Next(Fresh(), a), b), c)
  {
    OneRound(a);
    OneMoreRound([a], b);
    OneMoreRound([a] + [b], c);
  }

  /** Every round that moves stock tells the status, but one tells it of a shrinking for which it found
      no candidate: it takes the cooldown off the growing before it. */
  lemma EmptyMoveBreaksCooldown(cooldown: int) returns (up: PoolRound, down: PoolRound)
    requires cooldown > 0
    ensures up.end.Committed? && down.end.Committed? && up.o.now == down.o.now
    ensures !CooldownsKept(Play([up] + [down] + [up]).executed)
  {
    up, down := UpDownUp(cooldown);
    ThreeRounds(up, down, up);
  }

  // Oscillation: four reversals in a closed window.

  /** Up, down, up, down, 100 seconds apart, and up again at the instant of the last. */
  function Turn(i: nat): ScaleEvent {
    ScaleEvent(if i < 4 then 100 * i else 300, i % 2 == 0)
  }

  function Turns(k: nat, n: nat): seq<ScaleEvent> {
    if n <= k then [] else Turns(k, n - 1) + [Turn(n - 1)]
  }

  function SwingAt(i: nat): PoolRound {
    Swing(0, Turn(i).at, Turn(i).up, 10, Committed)
  }

  function Swings(n: nat): seq<PoolRound> {
    if n == 0 then [] else Swings(n - 1) + [SwingAt(n - 1)]
  }

  /** After n swings everything was recorded, and memory holds the turns from k on. */
  predicate Swung(s: State, n: nat, k: nat) {
    s.predicted == 0 && s.events == Turns(0, n) && s.history == Turns(k, n)
  }

  lemma OneMoreSwing(n: nat)
    ensures Play(Swings(n + 1)) == Next(Play(Swings(n)), SwingAt(n))
  {
    assert Swings(n + 1)[..|Swings(n + 1)| - 1] == Swings(n);
  }

  lemma SwingOn(s: State, n: nat, k: nat, k': nat)
    requires k <= n && Swung(s, n, k)
    requires RecentReversals(Turns(k, n), Turn(n).at) < MAX_REVERSALS
    requires Kept(Turns(k, n + 1), Turn(n).at - OSCILLATION_WINDOW) == Turns(k', n + 1)
    ensures Swung(Next(s, SwingAt(n)), n + 1, k')
  {
    SwingMoves(s, Turn(n));
    SwungOnce(s, Next(s, SwingAt(n)), n, k, k');
  }

  lemma SwungOnce(s: State, t: State, n: nat, k: nat, k': nat)
    requires k <= n && Swung(s, n, k) && SwungBy(s, t, Turn(n))
    requires Kept(Turns(k, n + 1), Turn(n).at - OSCILLATION_WINDOW) == Turns(k', n + 1)
    ensures Swung(t, n + 1, k')
  {
    OneMoreTurn(0, n);
    OneMoreTurn(k, n);
  }

  lemma OneMoreTurn(k: nat, n: nat)
    requires k <= n
    ensures Turns(k, n + 1) == Turns(k, n) + [Turn(n)]
  {
  }

  lemma TurnsRise(i: nat, j: nat)
    requires i <= j
    ensures Turn(i).at <= Turn(j).at
  {
  }

  lemma {:induction false} KeepTurns(k: nat, n: nat, cutoff: int)
    requires Turn(k).at > cutoff
    ensures Kept(Turns(k, n), cutoff) == Turns(k, n)
  {
    if k < n {
      KeepTurns(k, n - 1, cutoff);
      TurnsRise(k, n - 1);
      KeptGrows(Turns(k, n - 1), Turn(n - 1), cutoff);
    }
  }

  lemma {:induction false} ForgetFirst(n: nat)
    requires n > 0
    ensures Kept(Turns(0, n), 0) == Turns(1, n)
  {
    assert Turns(0, n)[..|Turns(0, n)| - 1] == Turns(0, n - 1);
    if n > 1 {
      ForgetFirst(n - 1);
    }
  }

  lemma {:induction false} LastTurn(k: nat, n: nat)
    requires k < n
    ensures |Turns(k, n)| == n - k && Turns(k, n)[n - k - 1] == Turn(n - 1)
  {
    if k + 1 < n {
      LastTurn(k, n - 1);
    }
  }

  lemma {:induction false} TurnsReverse(k: nat, n: nat)
    requires k < n
    ensures Reversals(Turns(k, n)) == n - k - 1
  {
    LastTurn(k, n);
    if k + 1 < n {
      TurnsReverse(k, n - 1);
      LastTurn(k, n - 1);
      OneMoreEvent(Turns(k, n - 1), Turn(n - 1));
    }
  }

  lemma FewTurns(k: nat, n: nat, now: int)
    requires k < n <= k + 3 && now - OSCILLATION_WINDOW <= Turn(k).at
    ensures RecentReversals(Turns(k, n), now) < MAX_REVERSALS
  {
    TurnsReverse(k, n);
    KeepTurns(k, n, now - OSCILLATION_WINDOW - 1);
  }

  /** The state that n swings have come to. */
  predicate SwungTo(s: State, n: nat, k: nat) {
    Play(Swings(n)) == s && Swung(s, n, k)
  }

  lemma SwingOnAfter(s: State, n: nat, k: nat, k': nat) returns (t: State)
    requires k <= n && SwungTo(s, n, k)
    requires RecentReversals(Turns(k, n), Turn(n).at) < MAX_REVERSALS
    requires Kept(Turns(k, n + 1), Turn(n).at - OSCILLATION_WINDOW) == Turns(k', n + 1)
    ensures SwungTo(t, n + 1, k')
  {
    t := Next(s, SwingAt(n));
    OneMoreSwing(n);
    SwingOn(s, n, k, k');
  }

  lemma SwingAndRemember(s: State, n: nat, k: nat) returns (t: State)
    requires k < n <= k + 3 && SwungTo(s, n, k) && Turn(n).at - OSCILLATION_WINDOW < Turn(k).at
    ensures SwungTo(t, n + 1, k)
  {
    FewTurns(k, n, Turn(n).at);
    KeptTurns(k, n);
    t := SwingOnAfter(s, n, k, k);
  }

  lemma KeptTurns(k: nat, n: nat)
    requires Turn(n).at - OSCILLATION_WINDOW < Turn(k).at
    ensures Kept(Turns(k, n + 1), Turn(n).at - OSCILLATION_WINDOW) == Turns(k, n + 1)
  {
    KeepTurns(k, n + 1, Turn(n).at - OSCILLATION_WINDOW);
  }

  lemma FirstSwing() returns (t: State)
    ensures SwungTo(t, 1, 0)
  {
    KeptTurns(0, 0);
    t := SwingOnAfter(Fresh(), 0, 0, 0);
  }

  lemma FourthSwing(s: State) returns (t: State)
    requires SwungTo(s, 3, 0)
    ensures SwungTo(t, 4, 1)
  {
    FewTurns(0, 3, Turn(3).at);
    ForgetFirst(4);
    t := SwingOnAfter(s, 3, 0, 1);
  }

  lemma FiveSwings()
    ensures Play(Swings(5)).events == Turns(0, 5)
  {
    var s := FirstSwing();
    s := SwingAndRemember(s, 1, 0);
    s := SwingAndRemember(s, 2, 0);
    s := FourthSwing(s);
    s := SwingAndRemember(s, 4, 1);
  }

  lemma {:induction false} SwingsRise(n: nat)
    ensures |Swings(n)| == n && forall i: nat | i < n :: Swings(n)[i].o.now == Turn(i).at
  {
    if n > 0 {
      SwingsRise(n - 1);
    }
  }

  lemma SwingsOnClock(n: nat)
    ensures ClockRises(Swings(n))
  {
    SwingsRise(n);
    forall i: nat, j: nat | i < j < n
      ensures Swings(n)[i].o.now <= Swings(n)[j].o.now
    {
      TurnsRise(i, j);
    }
  }

  /** With its first instant counted, a window can hold four reversals: recording prunes an event
      exactly one window old, counting would still have seen it. And a move the other way waits
      for no cooldown. */
  lemma ClosedWindowHoldsFour() returns (rounds: seq<PoolRound>)
    ensures ClockRises(rounds)
    ensures
      var e := Play(rounds).events;
      && |e| == 5 && Reversals(e) == 4 && e[4].at - e[0].at == OSCILLATION_WINDOW
      && e[3].at == e[4].at && e[3].up != e[4].up
  {
    rounds := Swings(5);
    FiveSwings();
    SwingsOnClock(5);
    FiveTurns();
  }

  lemma FiveInAll()
    ensures Turns(0, 5) == [Turn(0), Turn(1), Turn(2), Turn(3), Turn(4)]
  {
    OneMoreTurn(0, 0);
    OneMoreTurn(0, 1);
    OneMoreTurn(0, 2);
    OneMoreTurn(0, 3);
    OneMoreTurn(0, 4);
  }

  lemma FiveTurns()
    ensures
      var e := Turns(0, 5);
      && |e| == 5 && Reversals(e) == 4 && e[4].at - e[0].at == OSCILLATION_WINDOW
      && e[3].at == e[4].at && e[3].up != e[4].up
  {
    FiveInAll();
    TurnsReverse(0, 5);
  }
}
