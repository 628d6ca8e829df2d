/** Many claimers racing for one stock, nobody else writing. Each looks for a sandbox of its own request,
    then works through a list that was current when it was read, and starts over with the lookup when its
    budget of attempts runs out before the list does. That the race is one of bind patches on the API
    server is shown in RaceOnServer. */
module ClaimRace {
  import opened Api

  /** What a request is known again by; without a request id it is not. */
  datatype Id = Id(tenant: string, requestId: string)

  datatype Runner =
    | Waiting // about to look its request up
    | Looked // found nothing, about to list the stock
    | Trying(list: seq<string>, next: nat, tries: nat) // the first `next` candidates were of no use
    | Won(name: string)
    | Again(name: string) // the idempotent answer
    | Exhausted // ErrPoolExhausted

  /** stock can be bound and idle is listed with it without being ready; known are sandboxes that told a
      request before the race, and owner tells which claimer a sandbox was bound to in it. */
  datatype Race = Race(
    stock: set<string>,
    idle: set<string>,
    limit: nat,
    known: map<string, Id>,
    ids: seq<Id>,
    owner: map<string, nat>,
    runners: seq<Runner>)
  {
    function Left(): set<string> {
      stock - owner.Keys
    }

    /** The sandbox tells the request of claimer c. */
    predicate Tells(n: string, c: nat)
      requires c < |ids|
    {
      && ids[c].requestId != ""
      && ((n in known && known[n] == ids[c])
          || (n in owner && owner[n] < |ids| && ids[owner[n]] == ids[c]))
    }
  }

  predicate NoRepeats(list: seq<string>) {
    forall i, j | 0 <= i < j < |list| :: list[i] != list[j]
  }

  /** A list of what carries the label of stock now, in any order. */
  predicate IsCurrentList(r: Race, list: seq<string>) {
    && NoRepeats(list)
    && (forall n | n in list :: n in r.Left() + r.idle) && (forall n | n in r.Left() + r.idle :: n in list)
  }

  datatype Move =
    | Lookup(who: nat, found: Option<string>)
    | List(who: nat, list: seq<string>)
    | Examine(who: nat)

  predicate Possible(r: Race, m: Move) {
    && m.who < |r.runners| == |r.ids|
    && match m
       case Lookup(c, found) =>
         && r.runners[c].Waiting?
         && (match found
             case None => forall n | n in r.known.Keys + r.owner.Keys :: !r.Tells(n, c)
             case Some(n) => r.Tells(n, c))
       case List(c, list) => r.runners[c].Looked? && IsCurrentList(r, list)
       case Examine(c) => r.runners[c].Trying? && r.runners[c].next <= |r.runners[c].list|
  }

  /** One turn of the loop in Claim: a candidate that is not ready costs nothing, and the patch wins unless
      somebody bound the candidate since the list was read. Out of candidates the pool is exhausted; out of
      budget before that the claimer is told to retry. */
  function Examined(r: Race, c: nat): Race
    requires c < |r.runners| && r.runners[c].Trying? && r.runners[c].next <= |r.runners[c].list|
  {
    var Trying(list, k, tries) := r.runners[c];
    if k == |list| then r.(runners := r.runners[c := Exhausted])
    else if tries >= r.limit then r.(runners := r.runners[c := Waiting])
    else if list[k] in r.idle then r.(runners := r.runners[c := Trying(list, k + 1, tries)])
    else if list[k] in r.owner then r.(runners := r.runners[c := Trying(list, k + 1, tries + 1)])
    else r.(owner := r.owner[list[k] := c], runners := r.runners[c := Won(list[k])])
  }

  /** What a race never changes. */
  predicate SameFrame(r: Race, s: Race) {
    && s.stock == r.stock && s.idle == r.idle && s.limit == r.limit && s.known == r.known && s.ids == r.ids
    && |s.runners| == |r.runners|
  }

  function Play(r: Race, m: Move): (s: Race)
    requires Possible(r, m)
    ensures SameFrame(r, s)
  {
    match m
    case Lookup(c, found) => r.(runners := r.runners[c := if found.Some? then Again(found.value) else Looked])
    case List(c, list) => r.(runners := r.runners[c := Trying(list, 0, 0)])
    case Examine(c) => Examined(r, c)
  }

  function Start(stock: set<string>, idle: set<string>, limit: nat, known: map<string, Id>, ids: seq<Id>): Race {
    Race(stock, idle, limit, known, ids, map[], seq(|ids|, _ => Waiting))
  }

  predicate CanStart(r: Race) {
    r.limit > 0 && r.stock !! r.idle && r.stock !! r.known.Keys && |r.runners| == |r.ids|
  }

  // ---- Invariant ----

  /** How many of the first n candidates cost an attempt. */
  function Attempts(list: seq<string>, idle: set<string>, n: nat): nat
    requires n <= |list|
  {
    if n == 0 then 0 else Attempts(list, idle, n - 1) + if list[n - 1] in idle then 0 else 1
  }

  predicate TryingInv(r: Race, list: seq<string>, next: nat, tries: nat) {
    && next <= |list| && tries <= r.limit && tries == Attempts(list, r.idle, next)
    && NoRepeats(list)
    && (forall n | n in list :: n in r.stock + r.idle)
    && (forall n | n in r.Left() + r.idle :: n in list)
    && (forall i | 0 <= i < next :: list[i] in r.idle || list[i] in r.owner)
  }

  predicate RunnerInv(r: Race, c: nat)
    requires c < |r.runners| == |r.ids|
  {
    match r.runners[c]
    case Waiting => true
    case Looked => true
    case Trying(list, next, tries) => TryingInv(r, list, next, tries)
    case Won(n) => n in r.owner && r.owner[n] == c
    case Again(n) => r.Tells(n, c)
    case Exhausted => r.Left() == {}
  }

  predicate RaceInv(r: Race) {
    && CanStart(r)
    && r.owner.Keys <= r.stock
    && (forall c: nat | c < |r.runners| :: RunnerInv(r, c))
    && (forall n | n in r.owner :: r.owner[n] < |r.runners| && r.runners[r.owner[n]] == Won(n))
  }

  lemma PlayKeepsRunner(r: Race, m: Move, d: nat)
    requires RaceInv(r) && Possible(r, m) && d < |r.runners|
    ensures RunnerInv(Play(r, m), d)
  {
    assert RunnerInv(r, d);
    if d == m.who {
      MoverKeepsInv(r, m);
    } else {
      OthersKeepInv(r, m, d);
    }
  }

  lemma OthersKeepInv(r: Race, m: Move, d: nat)
    requires RaceInv(r) && Possible(r, m) && d < |r.runners| && d != m.who && RunnerInv(r, d)
    ensures RunnerInv(Play(r, m), d)
  {
    var s := Play(r, m);
    assert s.Left() <= r.Left() && s.runners[d] == r.runners[d];
    assert forall n | n in r.owner :: n in s.owner && s.owner[n] == r.owner[n];
  }

  lemma MoverKeepsInv(r: Race, m: Move)
    requires RaceInv(r) && Possible(r, m) && RunnerInv(r, m.who)
    ensures RunnerInv(Play(r, m), m.who)
  {
    if m.Examine? {
      var Trying(list, k, tries) := r.runners[m.who];
      if k == |list| {
        NothingLeft(r, list, tries);
      }
    }
  }

  lemma SettledNames(r: Race, list: seq<string>, tries: nat, n: string)
    requires TryingInv(r, list, |list|, tries) && n in list
    ensures n in r.idle || n in r.owner
  {
  }

  /** A list worked through to its end was all there was. */
  lemma NothingLeft(r: Race, list: seq<string>, tries: nat)
    requires CanStart(r) && TryingInv(r, list, |list|, tries)
    ensures r.Left() == {}
  {
    forall n | n in r.stock
      ensures n in r.owner
    {
      if n !in r.owner {
        assert n in r.Left() + r.idle;
        SettledNames(r, list, tries, n);
      }
    }
  }

  lemma WinnerIsStock(r: Race, c: nat)
    requires c < |r.runners| == |r.ids| && r.runners[c].Trying? && RunnerInv(r, c)
    ensures Examined(r, c).owner.Keys <= r.owner.Keys + r.stock
  {
    var Trying(list, k, tries) := r.runners[c];
    if k < |list| {
      assert list[k] in list;
    }
  }

  lemma PlayKeepsInv(r: Race, m: Move)
    requires RaceInv(r) && Possible(r, m)
    ensures RaceInv(Play(r, m))
  {
    var s := Play(r, m);
    assert RunnerInv(r, m.who);
    if m.Examine? {
      WinnerIsStock(r, m.who);
    }
    forall c: nat | c < |s.runners|
      ensures RunnerInv(s, c)
    {
      PlayKeepsRunner(r, m, c);
    }
    forall n | n in s.owner
      ensures s.owner[n] < |s.runners| && s.runners[s.owner[n]] == Won(n)
    {
      assert n in r.owner ==> r.runners[r.owner[n]] == Won(n);
    }
  }

  // ---- Termination ----

  function TryRank(listed: nat, w: nat, next: nat): int {
    w * listed + w - 1 - next
  }

  /** How much one claimer may still do: w is more than any list is long, left the stock that is
      still unbound and has to pay for retries; a list is paid for by the stock in it. */
  function RunnerRank(x: Runner, stock: set<string>, w: nat, left: nat): int {
    match x
    case Waiting => w * (left + 1) + 1
    case Looked => w * (left + 1)
    case Trying(list, next, _) => TryRank(|ToSet(list) * stock|, w, next)
    case _ => 0
  }

  function RankOf(runners: seq<Runner>, stock: set<string>, w: nat, left: nat): int {
    if runners == [] then 0 else RunnerRank(runners[0], stock, w, left) + RankOf(runners[1..], stock, w, left)
  }

  function Width(r: Race): nat {
    |r.stock| + |r.idle| + 3
  }

  /** The measure of the whole race. */
  function Rank(r: Race): int {
    RankOf(r.runners, r.stock, Width(r), |r.Left()|)
  }

  function ToSet(list: seq<string>): set<string> {
    set n | n in list
  }

  lemma {:induction false} SizeOfList(list: seq<string>)
    requires NoRepeats(list)
    ensures |ToSet(list)| == |list|
  {
    if list != [] {
      SizeOfList(list[1..]);
      assert ToSet(list) == {list[0]} + ToSet(list[1..]);
      assert list[0] !in ToSet(list[1..]);
    }
  }

  lemma SubsetSize(a: set<string>, b: set<string>)
    requires a <= b
    ensures |a| <= |b|
  {
    assert b == a + (b - a);
  }

  lemma ListIsShort(r: Race, list: seq<string>, next: nat, tries: nat)
    requires TryingInv(r, list, next, tries)
    ensures |list| <= |r.stock| + |r.idle|
  {
    SizeOfList(list);
    SubsetSize(ToSet(list), r.stock + r.idle);
    assert |r.stock + r.idle| <= |r.stock| + |r.idle|;
  }

  /** An attempt that was lost was one at stock that is bound by now. */
  lemma LostAttempt(list: seq<string>, idle: set<string>, n: nat) returns (i: nat)
    requires n <= |list| && Attempts(list, idle, n) > 0
    ensures i < n && list[i] !in idle
  {
    if list[n - 1] !in idle {
      i := n - 1;
    } else {
      i := LostAttempt(list, idle, n - 1);
    }
  }

  /** What is left now was in the list, and less than the list had if an attempt was lost. */
  lemma LeftWasListed(r: Race, list: seq<string>, next: nat, tries: nat)
    requires TryingInv(r, list, next, tries)
    ensures |r.Left()| <= |ToSet(list) * r.stock|
    ensures tries > 0 ==> |r.Left()| < |ToSet(list) * r.stock|
  {
    SubsetSize(r.Left(), ToSet(list) * r.stock);
    if tries > 0 {
      var i := LostAttempt(list, r.idle, next);
      assert list[i] in list && list[i] in r.stock + r.idle;
      assert list[i] in ToSet(list) * r.stock && list[i] !in r.Left();
      StrictSubsetSize(r.Left(), ToSet(list) * r.stock, list[i]);
    }
  }

  lemma StrictSubsetSize(a: set<string>, b: set<string>, x: string)
    requires a <= b && x in b && x !in a
    ensures |a| < |b|
  {
    SubsetSize(a, b - {x});
  }

  lemma Product(w: int, a: int, b: int)
    requires w >= 0 && a <= b
    ensures w * a <= w * b
  {
  }

  lemma RankNonNegative(r: Race, c: nat)
    requires RaceInv(r) && c < |r.runners|
    ensures RunnerRank(r.runners[c], r.stock, Width(r), |r.Left()|) >= 0
  {
    var w := Width(r);
    assert RunnerInv(r, c);
    Product(w, 0, |r.Left()| + 1);
    if r.runners[c].Trying? {
      ListIsShort(r, r.runners[c].list, r.runners[c].next, r.runners[c].tries);
      Product(w, 0, |ToSet(r.runners[c].list) * r.stock|);
    }
  }

  lemma PlayTouchesOne(r: Race, m: Move)
    requires Possible(r, m)
    ensures SameFrame(r, Play(r, m))
    ensures forall i | 0 <= i < |r.runners| && i != m.who :: Play(r, m).runners[i] == r.runners[i]
    ensures r.owner.Keys <= Play(r, m).owner.Keys
  {
  }

  lemma LeftShrinks(r: Race, m: Move)
    requires Possible(r, m)
    ensures |Play(r, m).Left()| <= |r.Left()|
  {
    PlayTouchesOne(r, m);
    SubsetSize(Play(r, m).Left(), r.Left());
  }

  /** What a claimer in state x may still do in this race. */
  function RankIn(r: Race, x: Runner): int {
    RunnerRank(x, r.stock, Width(r), |r.Left()|)
  }

  lemma LookupSpends(r: Race)
    ensures RankIn(r, Looked) < RankIn(r, Waiting) && forall n :: RankIn(r, Again(n)) < RankIn(r, Waiting)
  {
    Product(Width(r), 0, |r.Left()| + 1);
  }

  lemma ListSpends(r: Race, list: seq<string>)
    requires IsCurrentList(r, list) && r.stock !! r.idle
    ensures RankIn(r, Trying(list, 0, 0)) < RankIn(r, Looked)
  {
    assert ToSet(list) * r.stock == r.Left();
    var w := Width(r);
    assert w * (|r.Left()| + 1) == w * |r.Left()| + w;
  }

  lemma RetrySpends(listed: nat, next: nat, w: nat, left: nat)
    requires left < listed && next + 3 <= w - 1
    ensures w * (left + 1) + 1 < TryRank(listed, w, next)
  {
    Product(w, left + 1, listed);
  }

  /** What comes after an examination is worth less. */
  lemma TrySpends(listed: nat, next: nat, w: nat)
    requires next < w - 1
    ensures 0 < TryRank(listed, w, next) && TryRank(listed, w, next + 1) < TryRank(listed, w, next)
  {
    Product(w, 0, listed);
  }

  lemma AfterExamining(r: Race, c: nat, listed: nat, left: nat, w: nat)
    requires c < |r.runners| && r.runners[c].Trying? && r.runners[c].next <= |r.runners[c].list|
    requires listed == |ToSet(r.runners[c].list) * r.stock|
    ensures
      var Trying(list, k, tries) := r.runners[c];
      var rank := RunnerRank(Examined(r, c).runners[c], r.stock, w, left);
      rank == 0 || rank == TryRank(listed, w, k + 1)
      || (k < |list| && tries >= r.limit && rank == w * (left + 1) + 1)
  {
  }

  lemma ExamineSpends(r: Race, c: nat)
    requires RaceInv(r) && c < |r.runners| && r.runners[c].Trying? && r.runners[c].next <= |r.runners[c].list|
    ensures RankIn(r, Examined(r, c).runners[c]) < RankIn(r, r.runners[c])
  {
    assert RunnerInv(r, c);
    var Trying(list, k, tries) := r.runners[c];
    var listed, w, left := |ToSet(list) * r.stock|, Width(r), |r.Left()|;
    ListIsShort(r, list, k, tries);
    LeftWasListed(r, list, k, tries);
    TrySpends(listed, k, w);
    AfterExamining(r, c, listed, left, w);
    if k < |list| && tries >= r.limit {
      RetrySpends(listed, k, w, left);
    }
  }

  /** Where a move takes the claimer that makes it. */
  function NextOf(r: Race, m: Move): Runner
    requires Possible(r, m)
  {
    match m
    case Lookup(_, found) => if found.Some? then Again(found.value) else Looked
    case List(_, list) => Trying(list, 0, 0)
    case Examine(c) => Examined(r, c).runners[c]
  }

  lemma PlayMovesOne(r: Race, m: Move)
    requires Possible(r, m)
    ensures Play(r, m).runners == r.runners[m.who := NextOf(r, m)]
  {
  }

  /** The claimer that moves spends some of its rank. */
  lemma MoverSpends(r: Race, m: Move)
    requires RaceInv(r) && Possible(r, m)
    ensures RankIn(r, NextOf(r, m)) < RankIn(r, r.runners[m.who])
  {
    match m {
      case Lookup(_, _) => LookupSpends(r);
      case List(_, list) => ListSpends(r, list);
      case Examine(c) => ExamineSpends(r, c);
    }
  }

  lemma {:induction false} SumDrops(a: seq<Runner>, b: seq<Runner>, c: nat, stock: set<string>, w: nat, left: nat)
    requires |a| == |b| && c < |a|
    requires forall i | 0 <= i < |a| && i != c :: b[i] == a[i]
    requires RunnerRank(b[c], stock, w, left) < RunnerRank(a[c], stock, w, left)
    ensures RankOf(b, stock, w, left) < RankOf(a, stock, w, left)
  {
    if c == 0 {
      assert a[1..] == b[1..];
    } else {
      SumDrops(a[1..], b[1..], c - 1, stock, w, left);
    }
  }

  /** With less stock left nobody gains. */
  lemma {:induction false} LessLeft(a: seq<Runner>, stock: set<string>, w: nat, less: nat, left: nat)
    requires less <= left
    ensures RankOf(a, stock, w, less) <= RankOf(a, stock, w, left)
  {
    if a != [] {
      Product(w, less + 1, left + 1);
      LessLeft(a[1..], stock, w, less, left);
    }
  }

  lemma SumAndLeft(a: seq<Runner>, x: Runner, c: nat, stock: set<string>, w: nat, less: nat, left: nat)
    requires c < |a| && less <= left && RunnerRank(x, stock, w, left) < RunnerRank(a[c], stock, w, left)
    ensures RankOf(a[c := x], stock, w, less) < RankOf(a, stock, w, left)
  {
    SumDrops(a, a[c := x], c, stock, w, left);
    LessLeft(a[c := x], stock, w, less, left);
  }

  lemma RankIs(r: Race, w: nat, left: nat)
    requires w == Width(r) && left == |r.Left()|
    ensures Rank(r) == RankOf(r.runners, r.stock, w, left)
    ensures forall x :: RankIn(r, x) == RunnerRank(x, r.stock, w, left)
  {
  }

  lemma SpendingCosts(r: Race, s: Race, c: nat, x: Runner, w: nat, less: nat, left: nat)
    requires SameFrame(r, s) && c < |r.runners| && less <= left
    requires w == Width(r) == Width(s) && less == |s.Left()| && left == |r.Left()|
    requires s.runners == r.runners[c := x] && RankIn(r, x) < RankIn(r, r.runners[c])
    ensures Rank(s) < Rank(r)
  {
    RankIs(r, w, left);
    RankIs(s, w, less);
    SumAndLeft(r.runners, x, c, r.stock, w, less, left);
  }

  /** Every move of every claimer lowers the measure, retries included. */
  lemma EveryMoveCosts(r: Race, m: Move)
    requires RaceInv(r) && Possible(r, m)
    ensures Rank(Play(r, m)) < Rank(r)
  {
    MoverSpends(r, m);
    PlayTouchesOne(r, m);
    PlayMovesOne(r, m);
    LeftShrinks(r, m);
    SpendingCosts(r, Play(r, m), m.who, NextOf(r, m), Width(r), |Play(r, m).Left()|, |r.Left()|);
  }

  lemma {:induction false} RankIsNat(r: Race, n: nat)
    requires RaceInv(r) && n <= |r.runners|
    ensures RankOf(r.runners[n..], r.stock, Width(r), |r.Left()|) >= 0
    decreases |r.runners| - n
  {
    if n < |r.runners| {
      RankNonNegative(r, n);
      RankIsNat(r, n + 1);
      assert r.runners[n..][1..] == r.runners[n + 1..];
    }
  }

  // ---- Whole races ----

  predicate Playable(r: Race, moves: seq<Move>)
    decreases |moves|
  {
    moves == [] || (Possible(r, moves[0]) && Playable(Play(r, moves[0]), moves[1..]))
  }

  function PlayAll(r: Race, moves: seq<Move>): Race
    requires Playable(r, moves)
    decreases |moves|
  {
    if moves == [] then r else PlayAll(Play(r, moves[0]), moves[1..])
  }

  predicate Answered(x: Runner) {
    x.Won? || x.Again? || x.Exhausted?
  }

  /** No claimer has a move left. */
  predicate Over(r: Race) {
    forall c: nat | c < |r.runners| :: Answered(r.runners[c])
  }

  lemma OneMove(r: Race, m: Move)
    requires RaceInv(r) && Possible(r, m)
    ensures RaceInv(Play(r, m)) && Rank(Play(r, m)) < Rank(r)
    ensures SameFrame(r, Play(r, m))
  {
    PlayKeepsInv(r, m);
    EveryMoveCosts(r, m);
    PlayTouchesOne(r, m);
  }

  lemma {:induction false} PlayAllKeepsInv(r: Race, moves: seq<Move>)
    requires RaceInv(r) && Playable(r, moves)
    ensures RaceInv(PlayAll(r, moves))
    ensures Rank(PlayAll(r, moves)) + |moves| <= Rank(r)
    ensures SameFrame(r, PlayAll(r, moves))
    decreases |moves|
  {
    if moves != [] {
      OneMove(r, moves[0]);
      PlayAllKeepsInv(Play(r, moves[0]), moves[1..]);
    }
  }

  /** As long as the race is not over, some claimer can move. */
  lemma NobodyIsStuck(r: Race) returns (m: Move)
    requires RaceInv(r) && !Over(r)
    ensures Possible(r, m)
  {
    var c: nat :| c < |r.runners| && !Answered(r.runners[c]);
    assert RunnerInv(r, c);
    match r.runners[c] {
      case Waiting =>
        if n :| n in r.known.Keys + r.owner.Keys && r.Tells(n, c) {
          m := Lookup(c, Some(n));
        } else {
          m := Lookup(c, None);
        }
      case Looked =>
        var list := ListOf(r.Left() + r.idle);
        m := List(c, list);
      case Trying(_, _, _) =>
        m := Examine(c);
    }
  }

  lemma {:induction false} ListOf(s: set<string>) returns (list: seq<string>)
    ensures NoRepeats(list) && forall n :: n in list <==> n in s
    decreases |s|
  {
    if s == {} {
      list := [];
    } else {
      var n :| n in s;
      var rest := ListOf(s - {n});
      list := [n] + rest;
    }
  }

  function WinnersUpTo(r: Race, n: nat): set<nat>
    requires n <= |r.runners|
  {
    set c: nat | c < n && r.runners[c].Won?
  }

  function Winners(r: Race): set<nat> {
    WinnersUpTo(r, |r.runners|)
  }

  function Min(a: nat, b: nat): nat {
    if a < b then a else b
  }

  /** Winners hold different sandboxes: there are as many of them as bound sandboxes. */
  lemma WinnersAreOwners(r: Race)
    requires RaceInv(r)
    ensures |Winners(r)| == |r.owner.Keys|
    ensures
      forall c: nat, d: nat | c < |r.runners| && d < |r.runners| && r.runners[c].Won? && r.runners[c] == r.runners[d] ::
        c == d
  {
    forall c: nat, d: nat | c < |r.runners| && d < |r.runners| && r.runners[c].Won? && r.runners[c] == r.runners[d]
      ensures c == d
    {
      assert RunnerInv(r, c) && RunnerInv(r, d);
    }
    assert forall c: nat | c in Winners(r) :: RunnerInv(r, c);
    OwnersCount(r, r.owner.Keys, Winners(r));
  }

  /** A set of bound sandboxes and the set of their owners have the same size. */
  lemma {:induction false} OwnersCount(r: Race, names: set<string>, who: set<nat>)
    requires RaceInv(r) && names <= r.owner.Keys
    requires forall c: nat :: c in who <==> c < |r.runners| && r.runners[c].Won? && r.runners[c].name in names
    ensures |who| == |names|
    decreases |names|
  {
    if names == {} {
      assert who == {};
    } else {
      var n :| n in names;
      var c := r.owner[n];
      assert r.runners[c] == Won(n);
      forall d: nat | d < |r.runners| && r.runners[d] == Won(n)
        ensures d == c
      {
        assert RunnerInv(r, d);
      }
      OwnersCount(r, names - {n}, who - {c});
      assert |who| == |who - {c}| + 1;
      assert |names| == |names - {n}| + 1;
    }
  }

  /** The claimers that were given a sandbox found under their request. */
  function AgainUpTo(r: Race, n: nat): set<nat>
    requires n <= |r.runners|
  {
    set c: nat | c < n && r.runners[c].Again?
  }

  function Repeated(r: Race): set<nat> {
    AgainUpTo(r, |r.runners|)
  }

  function ExhaustedUpTo(r: Race, n: nat): nat
    requires n <= |r.runners|
  {
    if n == 0 then 0 else ExhaustedUpTo(r, n - 1) + if r.runners[n - 1].Exhausted? then 1 else 0
  }

  lemma OneMoreWinner(r: Race, n: nat)
    requires n < |r.runners|
    ensures |WinnersUpTo(r, n + 1)| == |WinnersUpTo(r, n)| + if r.runners[n].Won? then 1 else 0
  {
    if r.runners[n].Won? {
      assert WinnersUpTo(r, n + 1) == WinnersUpTo(r, n) + {n};
    } else {
      assert WinnersUpTo(r, n + 1) == WinnersUpTo(r, n);
    }
  }

  lemma OneMoreAgain(r: Race, n: nat)
    requires n < |r.runners|
    ensures |AgainUpTo(r, n + 1)| == |AgainUpTo(r, n)| + if r.runners[n].Again? then 1 else 0
  {
    if r.runners[n].Again? {
      assert AgainUpTo(r, n + 1) == AgainUpTo(r, n) + {n};
    } else {
      assert AgainUpTo(r, n + 1) == AgainUpTo(r, n);
    }
  }

  /** Every claimer was told one of the three things. */
  lemma {:induction false} AnswersAddUp(r: Race, n: nat)
    requires Over(r) && n <= |r.runners|
    ensures |WinnersUpTo(r, n)| + |AgainUpTo(r, n)| + ExhaustedUpTo(r, n) == n
  {
    if n == 0 {
      assert WinnersUpTo(r, n) == {} && AgainUpTo(r, n) == {};
    } else {
      AnswersAddUp(r, n - 1);
      assert Answered(r.runners[n - 1]);
      OneMoreWinner(r, n - 1);
      OneMoreAgain(r, n - 1);
    }
  }

  lemma {:induction false} SomebodyExhausted(r: Race, n: nat) returns (c: nat)
    requires n <= |r.runners| && ExhaustedUpTo(r, n) > 0
    ensures c < n && r.runners[c].Exhausted?
  {
    if r.runners[n - 1].Exhausted? {
      c := n - 1;
    } else {
      c := SomebodyExhausted(r, n - 1);
    }
  }

  lemma ExhaustedIsRight(r: Race, c: nat)
    requires RaceInv(r) && c < |r.runners| && r.runners[c].Exhausted?
    ensures r.owner.Keys == r.stock
  {
    assert RunnerInv(r, c);
    assert forall n | n in r.stock :: n in r.owner.Keys || n in r.Left();
  }

  /** When a race is over, the claimers that were not given a sandbox of their own request again bound as
      much stock as there is for them, each a piece of its own; a claimer told that the pool is exhausted
      is right: every piece of stock is bound. */
  lemma RaceConservesStock(r: Race)
    requires RaceInv(r) && Over(r)
    ensures |Repeated(r)| <= |r.runners|
    ensures |Winners(r)| == Min(|r.stock|, |r.runners| - |Repeated(r)|)
    ensures forall c: nat | c < |r.runners| && r.runners[c].Exhausted? :: r.owner.Keys == r.stock
  {
    WinnersAreOwners(r);
    AnswersAddUp(r, |r.runners|);
    SubsetSize(r.owner.Keys, r.stock);
    if ExhaustedUpTo(r, |r.runners|) > 0 {
      var c := SomebodyExhausted(r, |r.runners|);
      ExhaustedIsRight(r, c);
    }
    forall c: nat | c < |r.runners| && r.runners[c].Exhausted?
      ensures r.owner.Keys == r.stock
    {
      ExhaustedIsRight(r, c);
    }
  }

  lemma RaceFromStart(first: Race, moves: seq<Move>)
    requires CanStart(first) && Playable(first, moves)
    requires first == Start(first.stock, first.idle, first.limit, first.known, first.ids)
    ensures RaceInv(PlayAll(first, moves)) && SameFrame(first, PlayAll(first, moves)) && |moves| <= Rank(first)
  {
    assert RaceInv(first);
    PlayAllKeepsInv(first, moves);
    var r := PlayAll(first, moves);
    RankIsNat(r, 0);
    assert r.runners[0..] == r.runners;
  }

  /** The race is over and stock is conserved, or somebody can move. */
  ghost predicate EndsWell(r: Race) {
    if Over(r) then |Repeated(r)| <= |r.runners| && |Winners(r)| == Min(|r.stock|, |r.runners| - |Repeated(r)|)
    else exists m :: Possible(r, m)
  }

  lemma EndedOrMovable(r: Race)
    requires RaceInv(r)
    ensures EndsWell(r)
  {
    if Over(r) {
      RaceConservesStock(r);
    } else {
      var m := NobodyIsStuck(r);
    }
  }

  /** From any stock and any number of claimers, in any interleaving: the race is over after at
      most Rank(Start) moves, nobody is ever stuck before that, and then the stock is conserved. */
  lemma EveryRaceEnds(first: Race, moves: seq<Move>) returns (r: Race)
    requires CanStart(first) && Playable(first, moves)
    requires first == Start(first.stock, first.idle, first.limit, first.known, first.ids)
    ensures r == PlayAll(first, moves) && SameFrame(first, r)
    ensures |moves| <= Rank(first) && EndsWell(r)
  {
    RaceFromStart(first, moves);
    r := PlayAll(first, moves);
    EndedOrMovable(r);
  }
}
