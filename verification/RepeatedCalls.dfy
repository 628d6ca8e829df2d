/** One request sent more than once while the race of ClaimRace is on: when a call is given the sandbox of
    an earlier one, and when two calls end up with a sandbox each. */
module RepeatedCalls {
  import opened Api
  import opened ClaimRace

  /** Two different calls of one request. */
  predicate SameRequest(r: Race, a: nat, b: nat) {
    a < |r.ids| && b < |r.ids| && a != b && r.ids[a].requestId != "" && r.ids[a] == r.ids[b]
  }

  /** No sandbox told the request of claimer c before the race. */
  predicate IsNew(r: Race, c: nat)
    requires c < |r.ids|
  {
    forall n | n in r.known :: r.ids[c].requestId == "" || r.known[n] != r.ids[c]
  }

  /** Whenever claimer a looks its request up, claimer b has bound nothing yet. */
  predicate LooksBefore(r: Race, moves: seq<Move>, a: nat, b: nat)
    requires Playable(r, moves) && a < |r.runners| && b < |r.runners|
    decreases |moves|
  {
    moves == [] ||
    ((moves[0].Lookup? && moves[0].who == a ==> !r.runners[b].Won?)
     && LooksBefore(Play(r, moves[0]), moves[1..], a, b))
  }

  lemma AnswerStays(r: Race, m: Move, c: nat)
    requires Possible(r, m) && c < |r.runners| && Answered(r.runners[c])
    ensures Play(r, m).runners[c] == r.runners[c]
  {
  }

  lemma {:induction false} AnswersAreFinal(r: Race, moves: seq<Move>, c: nat)
    requires Playable(r, moves) && c < |r.runners| && Answered(r.runners[c])
    ensures |PlayAll(r, moves).runners| == |r.runners| && PlayAll(r, moves).runners[c] == r.runners[c]
    decreases |moves|
  {
    if moves != [] {
      AnswerStays(r, moves[0], c);
      AnswersAreFinal(Play(r, moves[0]), moves[1..], c);
    }
  }

  lemma WinnerTells(r: Race, a: nat, b: nat)
    requires RaceInv(r) && SameRequest(r, a, b) && r.runners[b].Won?
    ensures r.runners[b].name in r.owner && r.Tells(r.runners[b].name, a)
  {
    assert RunnerInv(r, b);
  }

  /** A lookup that comes after the bind of another call of the request finds something. */
  lemma {:induction false} LateLookupFinds(r: Race, moves: seq<Move>, a: nat, b: nat)
    requires RaceInv(r) && Playable(r, moves) && SameRequest(r, a, b) && !LooksBefore(r, moves, a, b)
    ensures |PlayAll(r, moves).runners| == |r.runners| && PlayAll(r, moves).runners[a].Again?
    decreases |moves|
  {
    var m := moves[0];
    PlayKeepsInv(r, m);
    if m.Lookup? && m.who == a && r.runners[b].Won? {
      WinnerTells(r, a, b);
      assert Play(r, m).runners[a].Again?;
      AnswersAreFinal(Play(r, m), moves[1..], a);
    } else {
      LateLookupFinds(Play(r, m), moves[1..], a, b);
    }
  }

  lemma FoundWasBound(r: Race, a: nat, n: string) returns (b: nat)
    requires RaceInv(r) && a < |r.runners| && r.runners[a].Waiting? && r.Tells(n, a) && IsNew(r, a)
    ensures SameRequest(r, a, b) && r.runners[b].Won?
  {
    b := r.owner[n];
    assert r.runners[b] == Won(n);
  }

  /** A call that is given a sandbox again looked its request up after another call had bound it. */
  lemma {:induction false} AgainWasLate(r: Race, moves: seq<Move>, a: nat) returns (b: nat)
    requires RaceInv(r) && Playable(r, moves) && a < |r.runners| && IsNew(r, a) && !r.runners[a].Again?
    requires |PlayAll(r, moves).runners| == |r.runners| && PlayAll(r, moves).runners[a].Again?
    ensures SameRequest(r, a, b) && !LooksBefore(r, moves, a, b)
    decreases |moves|
  {
    var m := moves[0];
    PlayKeepsInv(r, m);
    if Play(r, m).runners[a].Again? {
      b := FoundWasBound(r, a, m.found.value);
    } else {
      b := AgainWasLate(Play(r, m), moves[1..], a);
    }
  }

  /** A call of a request that was bound before the race never gets beyond the lookup. */
  lemma {:induction false} KnownIsFound(r: Race, moves: seq<Move>, a: nat)
    requires RaceInv(r) && Playable(r, moves) && a < |r.runners| && !IsNew(r, a)
    requires r.runners[a].Waiting? || r.runners[a].Again?
    ensures |PlayAll(r, moves).runners| == |r.runners|
    ensures PlayAll(r, moves).runners[a].Waiting? || PlayAll(r, moves).runners[a].Again?
    decreases |moves|
  {
    if moves != [] {
      PlayKeepsInv(r, moves[0]);
      var n :| n in r.known && r.ids[a].requestId != "" && r.known[n] == r.ids[a];
      assert r.Tells(n, a);
      KnownIsFound(Play(r, moves[0]), moves[1..], a);
    }
  }

  predicate IsStart(r: Race) {
    CanStart(r) && r == Start(r.stock, r.idle, r.limit, r.known, r.ids)
  }

  /** Some other call of the request had bound its sandbox when a looked. */
  predicate LooksLate(r: Race, moves: seq<Move>, a: nat)
    requires Playable(r, moves) && a < |r.runners| == |r.ids|
  {
    exists b: nat :: b < |r.runners| && SameRequest(r, a, b) && !LooksBefore(r, moves, a, b)
  }

  /** When the race is over, a call was given a sandbox again if and only if its request was known before,
      or it looked after another call of the request had bound one; and what it was given tells its
      request. */
  lemma AnsweredAgainIff(first: Race, moves: seq<Move>, a: nat)
    requires IsStart(first) && Playable(first, moves) && Over(PlayAll(first, moves)) && a < |first.ids|
    ensures |PlayAll(first, moves).runners| == |first.ids| == |PlayAll(first, moves).ids|
    ensures PlayAll(first, moves).runners[a].Again? <==> !IsNew(first, a) || LooksLate(first, moves, a)
    ensures
      var r := PlayAll(first, moves);
      r.runners[a].Again? ==> r.Tells(r.runners[a].name, a)
  {
    RaceFromStart(first, moves);
    assert RaceInv(first);
    var r := PlayAll(first, moves);
    assert RunnerInv(r, a) && Answered(r.runners[a]);
    if !IsNew(first, a) {
      KnownIsFound(first, moves, a);
    } else if LooksLate(first, moves, a) {
      var b: nat :| b < |first.runners| && SameRequest(first, a, b) && !LooksBefore(first, moves, a, b);
      LateLookupFinds(first, moves, a, b);
    } else if r.runners[a].Again? {
      var b := AgainWasLate(first, moves, a);
    }
  }

  /** All requests are different, or cannot be told apart because they carry no id. */
  predicate Unrelated(r: Race) {
    forall a: nat, b: nat | a < |r.ids| && b < |r.ids| :: !SameRequest(r, a, b)
  }

  /** Calls of different new requests, or of requests without an id: exactly min(stock, calls) are bound. */
  lemma UnrelatedCallsConserveStock(first: Race, moves: seq<Move>)
    requires IsStart(first) && Playable(first, moves) && Over(PlayAll(first, moves))
    requires Unrelated(first) && forall a: nat | a < |first.ids| :: IsNew(first, a)
    ensures |Winners(PlayAll(first, moves))| == Min(|first.stock|, |first.ids|)
  {
    RaceFromStart(first, moves);
    var r := PlayAll(first, moves);
    forall a: nat | a < |first.ids|
      ensures !r.runners[a].Again?
    {
      AnsweredAgainIff(first, moves, a);
    }
    assert Repeated(r) == {};
    RaceConservesStock(r);
  }

  // ---- Two calls ----

  predicate BothHold(r: Race) {
    |r.runners| == 2 && r.runners[0].Won? && r.runners[1].Won?
  }

  lemma TwoWinners(r: Race)
    requires RaceInv(r) && |r.runners| == 2
    ensures BothHold(r) ==> r.runners[0].name != r.runners[1].name
    ensures BothHold(r) <==> |Winners(r)| == 2
  {
    WinnersAreOwners(r);
    assert WinnersUpTo(r, 0) == {};
    OneMoreWinner(r, 0);
    OneMoreWinner(r, 1);
  }

  lemma TwoAgains(r: Race)
    requires |r.runners| == 2
    ensures Repeated(r) == {} <==> !r.runners[0].Again? && !r.runners[1].Again?
  {
    assert forall c: nat :: c in Repeated(r) <==> c < 2 && r.runners[c].Again?;
  }

  lemma BothHoldIff(r: Race)
    requires RaceInv(r) && Over(r) && |r.runners| == 2
    ensures BothHold(r) <==> |r.stock| >= 2 && !r.runners[0].Again? && !r.runners[1].Again?
  {
    TwoWinners(r);
    TwoAgains(r);
    RaceConservesStock(r);
  }

  lemma OnlyOther(first: Race, moves: seq<Move>, a: nat, b: nat)
    requires Playable(first, moves) && |first.runners| == |first.ids| == 2 && SameRequest(first, a, b)
    ensures LooksLate(first, moves, a) <==> !LooksBefore(first, moves, a, b)
  {
  }

  /** Two calls of one new request, once both have their answer: each holds a sandbox of its own if and only
      if there was stock for both, and neither looked its request up after the other had bound one. */
  lemma OneRequestBindsTwiceIff(first: Race, moves: seq<Move>)
    requires IsStart(first) && Playable(first, moves) && Over(PlayAll(first, moves))
    requires |first.ids| == 2 && SameRequest(first, 0, 1) && IsNew(first, 0)
    ensures
      BothHold(PlayAll(first, moves)) <==>
      |first.stock| >= 2 && LooksBefore(first, moves, 0, 1) && LooksBefore(first, moves, 1, 0)
    ensures
      BothHold(PlayAll(first, moves)) ==>
        PlayAll(first, moves).runners[0].name != PlayAll(first, moves).runners[1].name
  {
    RaceFromStart(first, moves);
    AnsweredAgainIff(first, moves, 0);
    AnsweredAgainIff(first, moves, 1);
    OnlyOther(first, moves, 0, 1);
    OnlyOther(first, moves, 1, 0);
    BothHoldIff(PlayAll(first, moves));
    TwoWinners(PlayAll(first, moves));
  }

  /** Two calls without a request id hold a sandbox each whenever there is stock for both. */
  lemma CallsWithoutIdBindEach(first: Race, moves: seq<Move>)
    requires IsStart(first) && Playable(first, moves) && Over(PlayAll(first, moves))
    requires |first.ids| == 2 && first.ids[0].requestId == "" && first.ids[1].requestId == ""
    ensures BothHold(PlayAll(first, moves)) <==> |first.stock| >= 2
  {
    RaceFromStart(first, moves);
    AnsweredAgainIff(first, moves, 0);
    AnsweredAgainIff(first, moves, 1);
    BothHoldIff(PlayAll(first, moves));
  }

  // ---- Both look, then both bind ----

  lemma MoveFirst(r: Race, m: Move, rest: seq<Move>)
    requires Possible(r, m) && Playable(Play(r, m), rest)
    ensures Playable(r, [m] + rest) && PlayAll(r, [m] + rest) == PlayAll(Play(r, m), rest)
  {
    assert ([m] + rest)[1..] == rest;
  }

  /** One claimer that has looked lists the stock and binds its first candidate. */
  lemma ListAndBind(r: Race, c: nat, list: seq<string>, rest: seq<Move>) returns (s: Race, moves: seq<Move>)
    requires c < |r.runners| == |r.ids| && r.runners[c].Looked? && IsCurrentList(r, list) && r.limit > 0
    requires list != [] && list[0] !in r.idle && list[0] !in r.owner
    ensures s == r.(owner := r.owner[list[0] := c], runners := r.runners[c := Won(list[0])])
    ensures Playable(s, rest) ==> Playable(r, moves) && PlayAll(r, moves) == PlayAll(s, rest)
  {
    var listed := Play(r, List(c, list));
    s := Play(listed, Examine(c));
    assert s.runners == r.runners[c := Won(list[0])];
    moves := [List(c, list)] + ([Examine(c)] + rest);
    if Playable(s, rest) {
      MoveFirst(listed, Examine(c), rest);
      MoveFirst(r, List(c, list), [Examine(c)] + rest);
    }
  }

  lemma BothLook(first: Race, rest: seq<Move>) returns (s: Race, moves: seq<Move>)
    requires first == Start(first.stock, {}, first.limit, map[], first.ids) && |first.ids| == 2
    ensures s == first.(runners := [Looked, Looked])
    ensures Playable(s, rest) ==> Playable(first, moves) && PlayAll(first, moves) == PlayAll(s, rest)
  {
    var one := Play(first, Lookup(0, None));
    s := Play(one, Lookup(1, None));
    assert s.runners == [Looked, Looked];
    moves := [Lookup(0, None)] + ([Lookup(1, None)] + rest);
    if Playable(s, rest) {
      MoveFirst(one, Lookup(1, None), rest);
      MoveFirst(first, Lookup(0, None), [Lookup(1, None)] + rest);
    }
  }

  /** Two pieces of stock, one request sent twice at once: both calls look before either binds. */
  lemma OneRequestCanBindTwice(a: string, b: string, id: Id, limit: nat) returns (first: Race, moves: seq<Move>)
    requires a != b && limit > 0
    ensures first == Start({a, b}, {}, limit, map[], [id, id])
    ensures Playable(first, moves) && Over(PlayAll(first, moves)) && BothHold(PlayAll(first, moves))
  {
    first := Start({a, b}, {}, limit, map[], [id, id]);
    var looked, _ := BothLook(first, []);
    var once, _ := ListAndBind(looked, 0, [a, b], []);
    assert once.Left() == {b};
    var twice, last := ListAndBind(once, 1, [b], []);
    assert Playable(twice, []);
    var again, binds := ListAndBind(looked, 0, [a, b], last);
    var start, all := BothLook(first, binds);
    assert twice.runners == [Won(a), Won(b)];
    moves := all;
  }
}
