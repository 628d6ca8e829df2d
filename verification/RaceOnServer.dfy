/** The race of ClaimRace on the API server: its attempts are bind patches on the version each claimer
    listed, its lookups are searches for labels, and who owns what is what the sandboxes there say. */
module RaceOnServer {
  import opened Api
  import opened Protocol
  import opened Cluster
  import opened ClaimRace
  import opened RepeatedCalls
  import Claimer
  import Freeze
  import Safety
  import StableSort

  // ---- Binds of one version ----

  /** The object once the claim was bound to it. */
  function Taken(x: Object, c: Claim): Object
    requires x.Exists()
  {
    x.(versions := x.versions + [Bound(x.Current(), c)])
  }

  predicate IsFree(x: Object) {
    x.Exists() && !x.gone && Listed(x.Current()) && Claimable(x.Current())
  }

  lemma BindTakes(x: Object, c: Claim)
    requires IsFree(x)
    ensures Enabled(x, Bind(x.Latest(), c)) && Apply(x, Bind(x.Latest(), c)) == Taken(x, c)
  {
    assert Bound(x.Current(), c).spec.claim != x.Current().spec.claim;
  }

  lemma BindOfTakenIsLost(x: Object, c: Claim, later: Claim)
    requires IsFree(x)
    ensures
      var y := Taken(x, c);
      Enabled(y, Bind(x.Latest(), later)) && Apply(y, Bind(x.Latest(), later)) == y
  {
  }

  function Binds(read: nat, claims: seq<Claim>): seq<Step> {
    if claims == [] then [] else [Bind(read, claims[0])] + Binds(read, claims[1..])
  }

  lemma {:induction false} LaterBindsLose(x: Object, c: Claim, later: seq<Claim>)
    requires IsFree(x)
    ensures Legal(Taken(x, c), Binds(x.Latest(), later))
    ensures After(Taken(x, c), Binds(x.Latest(), later)) == Taken(x, c)
  {
    if later != [] {
      BindOfTakenIsLost(x, c, later[0]);
      LaterBindsLose(x, c, later[1..]);
      assert Binds(x.Latest(), later)[1..] == Binds(x.Latest(), later[1..]);
    }
  }

  /** Of any number of binds of the version they all listed, the first takes the sandbox and all others
      change nothing. */
  lemma {:induction false} FirstBindWins(x: Object, claims: seq<Claim>)
    requires IsFree(x) && claims != []
    ensures Legal(x, Binds(x.Latest(), claims))
    ensures After(x, Binds(x.Latest(), claims)) == Taken(x, claims[0])
  {
    BindTakes(x, claims[0]);
    LaterBindsLose(x, claims[0], claims[1..]);
    assert Binds(x.Latest(), claims)[1..] == Binds(x.Latest(), claims[1..]);
  }

  // ---- The race and the store ----

  predicate IsPoolStock(w: World, pool: string, n: string) {
    && n in w && w[n].Exists() && !w[n].gone && Listed(w[n].Current())
    && w[n].Current().labels.pool == pool && w[n].Current().labels.role == Claimer.ROLE_SANDBOX
  }

  /** What a claimer asking this pool could be given, and what it only finds listed with it. */
  function StockOf(w: World, pool: string): set<string> {
    set n | n in w && IsPoolStock(w, pool, n) && Claimable(w[n].Current())
  }

  function IdleOf(w: World, pool: string): set<string> {
    set n | n in w && IsPoolStock(w, pool, n) && !Claimable(w[n].Current())
  }

  /** The requests that sandboxes tell by their labels. */
  function KnownOf(w: World): map<string, Id> {
    map n | n in w && w[n].Exists() && !w[n].gone && w[n].Current().labels.requestId != "" ::
      Id(w[n].Current().labels.tenant, w[n].Current().labels.requestId)
  }

  function IdsOf(reqs: seq<Claimer.Request>): seq<Id> {
    seq(|reqs|, i requires 0 <= i < |reqs| => Id(reqs[i].tenant, reqs[i].requestId))
  }

  /** The claimers, all asking one pool. */
  predicate AskFor(reqs: seq<Claimer.Request>, pool: string) {
    forall i | 0 <= i < |reqs| :: reqs[i].pool == pool && Claimer.IsValid(reqs[i])
  }

  function StartOf(v: World, pool: string, reqs: seq<Claimer.Request>, limit: nat): Race {
    Start(StockOf(v, pool), IdleOf(v, pool), limit, KnownOf(v), IdsOf(reqs))
  }

  /** Stock carries no request yet: that is what its missing label claimed says. */
  lemma StockIsUnlabelled(v: World, pool: string, n: string)
    requires WorldInv(v) && n in StockOf(v, pool) + IdleOf(v, pool)
    ensures v[n].Current().labels.requestId == "" && v[n].Current().labels.tenant == ""
    ensures n !in KnownOf(v)
  {
    var x := v[n];
    assert Freeze.FreezeInv(x) && Safety.Inv(x);
    assert Safety.WellFormed(x.versions[|x.versions| - 1]);
  }

  lemma StartIsStart(v: World, pool: string, reqs: seq<Claimer.Request>, limit: nat)
    requires WorldInv(v) && limit > 0
    ensures CanStart(StartOf(v, pool, reqs, limit)) && RaceInv(StartOf(v, pool, reqs, limit))
  {
    forall n | n in StockOf(v, pool)
      ensures n !in KnownOf(v)
    {
      StockIsUnlabelled(v, pool, n);
    }
  }

  /** What the race makes of one object of the store it started on. */
  predicate IsAsOwned(v: World, reqs: seq<Claimer.Request>, r: Race, w: World, n: string)
    requires n in v
  {
    && n in w
    && if n in r.owner then
         r.owner[n] < |reqs| && IsFree(v[n]) && w[n] == Taken(v[n], Claimer.ClaimFor(reqs[r.owner[n]]))
       else w[n] == v[n]
  }

  /** The race is one of these claimers, on what this store held at its start. */
  predicate IsRaceOn(v: World, pool: string, reqs: seq<Claimer.Request>, r: Race) {
    && r.stock == StockOf(v, pool) && r.idle == IdleOf(v, pool)
    && r.known == KnownOf(v) && r.ids == IdsOf(reqs) && |r.runners| == |reqs|
  }

  /** The store is what the race has made of the one it started on. */
  predicate Mirrors(v: World, pool: string, reqs: seq<Claimer.Request>, r: Race, w: World) {
    && IsRaceOn(v, pool, reqs, r) && w.Keys == v.Keys
    && forall n | n in v :: IsAsOwned(v, reqs, r, w, n)
  }

  /** The attempt of a claimer that has a ready candidate and budget left. */
  predicate IsAttempt(r: Race, m: Move)
    requires Possible(r, m)
  {
    m.Examine? &&
    var Trying(list, next, tries) := r.runners[m.who];
    next < |list| && tries < r.limit && list[next] !in r.idle
  }

  function CandidateOf(r: Race, m: Move): string
    requires Possible(r, m) && IsAttempt(r, m)
  {
    r.runners[m.who].list[r.runners[m.who].next]
  }

  /** What it asks of the server: the version it listed, patched with its claim. Stock that was listed
      was as it had been from the start. */
  function AttemptOf(v: World, reqs: seq<Claimer.Request>, r: Race, m: Move): Act
    requires Possible(r, m) && IsAttempt(r, m) && m.who < |reqs|
    requires CandidateOf(r, m) in v && v[CandidateOf(r, m)].Exists()
  {
    On(CandidateOf(r, m), Bind(v[CandidateOf(r, m)].Latest(), Claimer.ClaimFor(reqs[m.who])))
  }

  /** What the race says is left and idle is just what a list of the pool's stock would show now. */
  lemma LeftIsListed(v: World, pool: string, reqs: seq<Claimer.Request>, r: Race, w: World)
    requires Mirrors(v, pool, reqs, r, w)
    ensures r.Left() == StockOf(w, pool)
    ensures r.owner.Keys !! r.idle ==> r.idle == IdleOf(w, pool)
    ensures forall n | n in r.Left() :: w[n] == v[n]
  {
    forall n | n in v
      ensures n in r.Left() <==> n in StockOf(w, pool)
      ensures r.owner.Keys !! r.idle ==> (n in r.idle <==> n in IdleOf(w, pool))
    {
      assert IsAsOwned(v, reqs, r, w, n);
    }
  }

  /** What is owned in the race is just what carries a claim in the store, the owner's. */
  lemma OwnedIsClaimed(v: World, pool: string, reqs: seq<Claimer.Request>, r: Race, w: World)
    requires Mirrors(v, pool, reqs, r, w) && r.owner.Keys <= r.stock
    ensures forall n | n in r.stock :: n in w && w[n].Exists()
    ensures r.owner.Keys == set n | n in r.stock && w[n].Current().spec.claim.Some?
    ensures forall n | n in r.owner ::
        r.owner[n] < |reqs| && w[n].Current().spec.claim == Some(Claimer.ClaimFor(reqs[r.owner[n]]))
  {
    forall n | n in r.stock
      ensures n in w && w[n].Exists() && (n in r.owner <==> w[n].Current().spec.claim.Some?)
      ensures n in r.owner ==>
          r.owner[n] < |reqs| && w[n].Current().spec.claim == Some(Claimer.ClaimFor(reqs[r.owner[n]]))
    {
      assert IsAsOwned(v, reqs, r, w, n);
    }
  }

  /** The candidate of an attempt is stock, either still free or taken by its owner. */
  lemma CandidateIsStock(v: World, pool: string, reqs: seq<Claimer.Request>, r: Race, w: World, m: Move)
    requires Mirrors(v, pool, reqs, r, w) && RaceInv(r) && Possible(r, m) && IsAttempt(r, m)
    ensures
      var n := CandidateOf(r, m);
      n in r.stock && n in v && IsFree(v[n]) && IsAsOwned(v, reqs, r, w, n)
  {
    assert RunnerInv(r, m.who);
    assert CandidateOf(r, m) in r.runners[m.who].list;
  }

  lemma AttemptOnObject(x: Object, y: Object, c: Claim, owner: Option<Claim>)
    requires IsFree(x) && y == if owner.Some? then Taken(x, owner.value) else x
    ensures Enabled(y, Bind(x.Latest(), c))
    ensures Apply(y, Bind(x.Latest(), c)) == if owner.Some? then y else Taken(x, c)
  {
    if owner.Some? {
      BindOfTakenIsLost(x, owner.value, c);
    } else {
      BindTakes(x, c);
    }
  }

  /** How an attempt changes who owns what. */
  lemma AttemptOwns(r: Race, m: Move)
    requires Possible(r, m) && IsAttempt(r, m)
    ensures
      var n := CandidateOf(r, m);
      Play(r, m).owner == if n in r.owner then r.owner else r.owner[n := m.who]
  {
  }

  /** What an attempt does to its candidate, in the race and on the server. */
  lemma AttemptOnCandidate(v: World, reqs: seq<Claimer.Request>, r: Race, w: World, s: Race, n: string, who: nat)
    requires n in v && IsFree(v[n]) && IsAsOwned(v, reqs, r, w, n) && who < |reqs|
    requires s.owner == if n in r.owner then r.owner else r.owner[n := who]
    ensures CanAct(w, On(n, Bind(v[n].Latest(), Claimer.ClaimFor(reqs[who]))))
    ensures IsAsOwned(v, reqs, s, Do(w, On(n, Bind(v[n].Latest(), Claimer.ClaimFor(reqs[who])))), n)
  {
    AttemptOnObject(v[n], w[n], Claimer.ClaimFor(reqs[who]),
                    if n in r.owner then Some(Claimer.ClaimFor(reqs[r.owner[n]])) else None);
  }

  lemma OneObjectMirrors(
      v: World, pool: string, reqs: seq<Claimer.Request>, r: Race, w: World, s: Race, u: World, n: string)
    requires Mirrors(v, pool, reqs, r, w) && SameFrame(r, s) && n in v && n in u && u == w[n := u[n]]
    requires IsAsOwned(v, reqs, s, u, n)
    requires forall k | k != n :: (k in s.owner <==> k in r.owner) && (k in r.owner ==> s.owner[k] == r.owner[k])
    ensures Mirrors(v, pool, reqs, s, u)
  {
    forall k | k in v && k != n
      ensures IsAsOwned(v, reqs, s, u, k)
    {
      assert IsAsOwned(v, reqs, r, w, k);
    }
  }

  /** An attempt of the race is that patch: the server can take it, and takes it as the race says. */
  lemma AttemptIsBind(v: World, pool: string, reqs: seq<Claimer.Request>, r: Race, w: World, m: Move)
    requires Mirrors(v, pool, reqs, r, w) && RaceInv(r) && Possible(r, m) && IsAttempt(r, m)
    ensures
      var n := CandidateOf(r, m);
      && n in v && v[n].Exists() && CanAct(w, AttemptOf(v, reqs, r, m))
      && Mirrors(v, pool, reqs, Play(r, m), Do(w, AttemptOf(v, reqs, r, m)))
  {
    CandidateIsStock(v, pool, reqs, r, w, m);
    AttemptOwns(r, m);
    var n, s := CandidateOf(r, m), Play(r, m);
    AttemptOnCandidate(v, reqs, r, w, s, n, m.who);
    OneObjectMirrors(v, pool, reqs, r, w, s, Do(w, AttemptOf(v, reqs, r, m)), n);
  }

  lemma OthersOwnNothingNew(r: Race, m: Move)
    requires RaceInv(r) && Possible(r, m) && !IsAttempt(r, m)
    ensures Play(r, m).owner == r.owner
  {
    assert RunnerInv(r, m.who);
  }

  /** Every other move leaves the store alone. */
  lemma OtherMovesWriteNothing(v: World, pool: string, reqs: seq<Claimer.Request>, r: Race, w: World, m: Move)
    requires Mirrors(v, pool, reqs, r, w) && RaceInv(r) && Possible(r, m) && !IsAttempt(r, m)
    ensures Mirrors(v, pool, reqs, Play(r, m), w)
  {
    OthersOwnNothingNew(r, m);
    forall k | k in v
      ensures IsAsOwned(v, reqs, Play(r, m), w, k)
    {
      assert IsAsOwned(v, reqs, r, w, k);
    }
  }

  lemma StartMirrors(v: World, pool: string, reqs: seq<Claimer.Request>, limit: nat)
    ensures Mirrors(v, pool, reqs, StartOf(v, pool, reqs, limit), v)
  {
  }

  // ---- Whole races ----

  predicate IsBind(a: Act) {
    a.On? && a.step.Bind?
  }

  /** The store that bind patches made of v mirrors the race. */
  predicate PlayedOut(v: World, pool: string, reqs: seq<Claimer.Request>, r: Race, acts: seq<Act>) {
    && (forall i | 0 <= i < |acts| :: IsBind(acts[i]))
    && Replay(v, acts).Some? && Mirrors(v, pool, reqs, r, Replay(v, acts).value)
  }

  lemma OneMoreAct(v: World, acts: seq<Act>, a: Act)
    requires Replay(v, acts).Some? && CanAct(Replay(v, acts).value, a)
    ensures Replay(v, acts + [a]) == Some(Do(Replay(v, acts).value, a))
  {
    assert (acts + [a])[..|acts|] == acts;
  }

  lemma OneMoveOut(v: World, pool: string, reqs: seq<Claimer.Request>, r: Race, acts: seq<Act>, m: Move)
      returns (more: seq<Act>)
    requires RaceInv(r) && PlayedOut(v, pool, reqs, r, acts) && Possible(r, m)
    ensures PlayedOut(v, pool, reqs, Play(r, m), more)
  {
    var w := Replay(v, acts).value;
    if IsAttempt(r, m) {
      AttemptIsBind(v, pool, reqs, r, w, m);
      var a := AttemptOf(v, reqs, r, m);
      OneMoreAct(v, acts, a);
      more := acts + [a];
    } else {
      OtherMovesWriteNothing(v, pool, reqs, r, w, m);
      more := acts;
    }
  }

  lemma {:induction false} AllMovesOut(v: World, pool: string, reqs: seq<Claimer.Request>, r: Race, acts: seq<Act>,
      moves: seq<Move>) returns (more: seq<Act>)
    requires RaceInv(r) && PlayedOut(v, pool, reqs, r, acts) && Playable(r, moves)
    ensures PlayedOut(v, pool, reqs, PlayAll(r, moves), more)
    decreases |moves|
  {
    if moves == [] {
      more := acts;
    } else {
      PlayKeepsInv(r, moves[0]);
      more := OneMoveOut(v, pool, reqs, r, acts, moves[0]);
      more := AllMovesOut(v, pool, reqs, Play(r, moves[0]), more, moves[1..]);
    }
  }

  /** Every race of claimers is a run of bind patches on the server, each on the version its claimer had
      listed, after which the store says what the race says. */
  lemma RaceIsBinds(v: World, pool: string, reqs: seq<Claimer.Request>, limit: nat, moves: seq<Move>)
      returns (acts: seq<Act>)
    requires WorldInv(v) && limit > 0 && Playable(StartOf(v, pool, reqs, limit), moves)
    ensures PlayedOut(v, pool, reqs, PlayAll(StartOf(v, pool, reqs, limit), moves), acts)
  {
    StartIsStart(v, pool, reqs, limit);
    StartMirrors(v, pool, reqs, limit);
    acts := AllMovesOut(v, pool, reqs, StartOf(v, pool, reqs, limit), [], moves);
  }

  /** The sandboxes of the stock that carry a claim. */
  function ClaimedOf(w: World, stock: set<string>): set<string> {
    set n | n in stock && n in w && w[n].Exists() && w[n].Current().spec.claim.Some?
  }

  predicate HoldsClaim(w: World, n: string, c: Claim) {
    n in w && w[n].Exists() && w[n].Current().spec.claim == Some(c)
  }

  /** What the server would show a call that looks for its request. */
  predicate IsMatch(w: World, req: Claimer.Request, n: string) {
    n in w && w[n].Exists() && !w[n].gone && Claimer.Matches(w[n].Current(), req)
  }

  /** A winner's sandbox carries the winner's claim, and an idempotent answer names a sandbox that tells the
      request. */
  predicate AnswerIsTrue(w: World, req: Claimer.Request, x: Runner) {
    && (x.Won? ==> HoldsClaim(w, x.name, Claimer.ClaimFor(req)))
    && (x.Again? ==> IsMatch(w, req, x.name))
  }

  predicate AnswersAreTrue(w: World, reqs: seq<Claimer.Request>, r: Race) {
    |r.runners| == |reqs| && forall c: nat | c < |reqs| :: AnswerIsTrue(w, reqs[c], r.runners[c])
  }

  lemma WinnerIsOwner(r: Race, c: nat)
    requires RaceInv(r) && c < |r.runners| && r.runners[c].Won?
    ensures r.runners[c].name in r.owner && r.owner[r.runners[c].name] == c && r.runners[c].name in r.stock
  {
    assert RunnerInv(r, c);
  }

  lemma TakenMatches(x: Object, owner: Claimer.Request, req: Claimer.Request)
    requires IsFree(x) && x.Current().labels.requestId == ""
    ensures
      var y := Taken(x, Claimer.ClaimFor(owner));
      && y.Exists() && !y.gone
      && (Claimer.Matches(y.Current(), req) <==>
            req.requestId != "" && Id(owner.tenant, owner.requestId) == Id(req.tenant, req.requestId))
  {
  }

  lemma KnownMatches(w: World, req: Claimer.Request, n: string)
    ensures
      IsMatch(w, req, n) <==>
      req.requestId != "" && n in KnownOf(w) && KnownOf(w)[n] == Id(req.tenant, req.requestId)
  {
  }

  lemma OwnedMatches(v: World, pool: string, reqs: seq<Claimer.Request>, r: Race, w: World, c: nat, n: string)
    requires WorldInv(v) && Mirrors(v, pool, reqs, r, w) && c < |reqs| && n in r.owner && n in r.stock
    ensures IsMatch(w, reqs[c], n) <==> r.Tells(n, c)
  {
    StockIsUnlabelled(v, pool, n);
    assert IsAsOwned(v, reqs, r, w, n);
    TakenMatches(v[n], reqs[r.owner[n]], reqs[c]);
  }

  lemma UntouchedMatches(v: World, pool: string, reqs: seq<Claimer.Request>, r: Race, w: World, c: nat, n: string)
    requires Mirrors(v, pool, reqs, r, w) && c < |reqs| && n !in r.owner
    ensures IsMatch(w, reqs[c], n) <==> r.Tells(n, c)
  {
    KnownMatches(v, reqs[c], n);
    if n in v {
      assert IsAsOwned(v, reqs, r, w, n);
    }
  }

  /** What tells a request in the race is just what tells it in the store. */
  lemma MatchIff(v: World, pool: string, reqs: seq<Claimer.Request>, r: Race, w: World, c: nat, n: string)
    requires WorldInv(v) && Mirrors(v, pool, reqs, r, w) && r.owner.Keys <= r.stock && c < |reqs|
    ensures IsMatch(w, reqs[c], n) <==> r.Tells(n, c)
  {
    if n in r.owner {
      OwnedMatches(v, pool, reqs, r, w, c, n);
    } else {
      UntouchedMatches(v, pool, reqs, r, w, c, n);
    }
  }

  lemma AgainTells(r: Race, c: nat)
    requires RaceInv(r) && c < |r.runners| && r.runners[c].Again?
    ensures r.Tells(r.runners[c].name, c)
  {
    assert RunnerInv(r, c);
  }

  lemma OneAnswerIsTrue(v: World, pool: string, reqs: seq<Claimer.Request>, r: Race, w: World, c: nat)
    requires WorldInv(v) && Mirrors(v, pool, reqs, r, w) && RaceInv(r) && c < |reqs|
    ensures AnswerIsTrue(w, reqs[c], r.runners[c])
  {
    if r.runners[c].Won? {
      OwnedIsClaimed(v, pool, reqs, r, w);
      WinnerIsOwner(r, c);
    } else if r.runners[c].Again? {
      AgainTells(r, c);
      MatchIff(v, pool, reqs, r, w, c, r.runners[c].name);
    }
  }

  lemma AnswersAreTrueThere(v: World, pool: string, reqs: seq<Claimer.Request>, r: Race, w: World)
    requires WorldInv(v) && Mirrors(v, pool, reqs, r, w) && RaceInv(r)
    ensures AnswersAreTrue(w, reqs, r) && ClaimedOf(w, r.stock) == r.owner.Keys
  {
    OwnedIsClaimed(v, pool, reqs, r, w);
    forall c: nat | c < |reqs|
      ensures AnswerIsTrue(w, reqs[c], r.runners[c])
    {
      OneAnswerIsTrue(v, pool, reqs, r, w, c);
    }
  }

  lemma StoreOfOverRace(v: World, pool: string, reqs: seq<Claimer.Request>, r: Race, w: World)
    requires WorldInv(v) && Mirrors(v, pool, reqs, r, w) && RaceInv(r) && Over(r)
    ensures |Repeated(r)| <= |reqs| && |ClaimedOf(w, r.stock)| == Min(|r.stock|, |reqs| - |Repeated(r)|)
    ensures AnswersAreTrue(w, reqs, r)
    ensures (exists c: nat :: c < |r.runners| && r.runners[c].Exhausted?) ==> StockOf(w, pool) == {}
  {
    LeftIsListed(v, pool, reqs, r, w);
    AnswersAreTrueThere(v, pool, reqs, r, w);
    WinnersAreOwners(r);
    RaceConservesStock(r);
  }

  lemma RaceOfStore(v: World, pool: string, reqs: seq<Claimer.Request>, limit: nat, moves: seq<Move>)
      returns (acts: seq<Act>, r: Race, w: World)
    requires WorldInv(v) && limit > 0 && Playable(StartOf(v, pool, reqs, limit), moves)
    ensures r == PlayAll(StartOf(v, pool, reqs, limit), moves) && RaceInv(r)
    ensures PlayedOut(v, pool, reqs, r, acts) && Replay(v, acts) == Some(w) && Mirrors(v, pool, reqs, r, w)
  {
    acts := RaceIsBinds(v, pool, reqs, limit, moves);
    r := PlayAll(StartOf(v, pool, reqs, limit), moves);
    w := Replay(v, acts).value;
    StartIsStart(v, pool, reqs, limit);
    PlayAllKeepsInv(StartOf(v, pool, reqs, limit), moves);
  }

  /** When all claimers have their answer: of those that were not given a sandbox of their own request again,
      exactly as many as there was stock for hold a sandbox of the stock, each one of its own; every answer
      is true of the store; and if anybody was told that the pool is exhausted there is nothing left in the
      store to list. */
  lemma StoreConservesStock(v: World, pool: string, reqs: seq<Claimer.Request>, limit: nat, moves: seq<Move>)
      returns (acts: seq<Act>, r: Race, w: World)
    requires WorldInv(v) && limit > 0 && Playable(StartOf(v, pool, reqs, limit), moves)
    requires Over(PlayAll(StartOf(v, pool, reqs, limit), moves))
    ensures r == PlayAll(StartOf(v, pool, reqs, limit), moves)
    ensures PlayedOut(v, pool, reqs, r, acts) && Replay(v, acts) == Some(w)
    ensures |Repeated(r)| <= |reqs|
    ensures |ClaimedOf(w, StockOf(v, pool))| == Min(|StockOf(v, pool)|, |reqs| - |Repeated(r)|)
    ensures AnswersAreTrue(w, reqs, r)
    ensures (exists c: nat :: c < |r.runners| && r.runners[c].Exhausted?) ==> StockOf(w, pool) == {}
  {
    acts, r, w := RaceOfStore(v, pool, reqs, limit, moves);
    StoreOfOverRace(v, pool, reqs, r, w);
  }

  // ---- One request, two calls ----

  /** The two calls carry one request id of one tenant, and nothing in the store tells it. */
  predicate IsRepeated(v: World, reqs: seq<Claimer.Request>) {
    && |reqs| == 2 && reqs[0].requestId != ""
    && reqs[0].requestId == reqs[1].requestId && reqs[0].tenant == reqs[1].tenant
    && forall n | n in v :: !IsMatch(v, reqs[0], n)
  }

  lemma RepeatedIsNew(v: World, pool: string, reqs: seq<Claimer.Request>, limit: nat)
    requires IsRepeated(v, reqs)
    ensures
      var first := StartOf(v, pool, reqs, limit);
      |first.ids| == 2 && SameRequest(first, 0, 1) && IsNew(first, 0)
  {
    var first := StartOf(v, pool, reqs, limit);
    forall n | n in first.known
      ensures first.known[n] != first.ids[0]
    {
      assert !IsMatch(v, reqs[0], n);
    }
  }

  /** A request that is sent twice at once: when both calls have their answer, two sandboxes of the store were
      bound to it if and only if there was stock for both, and neither call, however often it was told to
      retry, looked the request up after the other had bound a sandbox. Otherwise at most one was. */
  lemma RepeatedRequestBindsTwiceIff(v: World, pool: string, reqs: seq<Claimer.Request>, limit: nat, moves: seq<Move>)
      returns (acts: seq<Act>, r: Race, w: World)
    requires WorldInv(v) && limit > 0 && AskFor(reqs, pool) && IsRepeated(v, reqs)
    requires Playable(StartOf(v, pool, reqs, limit), moves) && Over(PlayAll(StartOf(v, pool, reqs, limit), moves))
    ensures r == PlayAll(StartOf(v, pool, reqs, limit), moves)
    ensures PlayedOut(v, pool, reqs, r, acts) && Replay(v, acts) == Some(w) && AnswersAreTrue(w, reqs, r)
    ensures |ClaimedOf(w, StockOf(v, pool))| <= 2
    ensures
      |ClaimedOf(w, StockOf(v, pool))| == 2 <==>
      && |StockOf(v, pool)| >= 2 && LooksBefore(StartOf(v, pool, reqs, limit), moves, 0, 1)
      && LooksBefore(StartOf(v, pool, reqs, limit), moves, 1, 0)
  {
    var first := StartOf(v, pool, reqs, limit);
    StartIsStart(v, pool, reqs, limit);
    acts, r, w := RaceOfStore(v, pool, reqs, limit, moves);
    StoreOfOverRace(v, pool, reqs, r, w);
    RepeatedIsNew(v, pool, reqs, limit);
    OneRequestBindsTwiceIff(first, moves);
    AnswersAreTrueThere(v, pool, reqs, r, w);
    WinnersAreOwners(r);
    TwoWinners(r);
  }

  /** No two of the requests can be told to be the same, and nothing in the store tells any of them. */
  predicate AreUnrelated(v: World, reqs: seq<Claimer.Request>) {
    && (forall a, b | 0 <= a < b < |reqs| ::
          reqs[a].requestId == "" || reqs[a].requestId != reqs[b].requestId || reqs[a].tenant != reqs[b].tenant)
    && forall c, n | 0 <= c < |reqs| && n in v :: !IsMatch(v, reqs[c], n)
  }

  lemma UnrelatedAreUnrelated(v: World, pool: string, reqs: seq<Claimer.Request>, limit: nat)
    requires AreUnrelated(v, reqs)
    ensures Unrelated(StartOf(v, pool, reqs, limit))
    ensures forall c: nat | c < |reqs| :: IsNew(StartOf(v, pool, reqs, limit), c)
  {
    var first := StartOf(v, pool, reqs, limit);
    forall c: nat, n | c < |reqs| && n in first.known
      ensures first.ids[c].requestId == "" || first.known[n] != first.ids[c]
    {
      assert !IsMatch(v, reqs[c], n);
    }
  }

  /** Different requests, and any number of requests without an id: exactly min(stock, calls) sandboxes are
      bound. */
  lemma UnrelatedRequestsConserveStock(
      v: World, pool: string, reqs: seq<Claimer.Request>, limit: nat, moves: seq<Move>)
      returns (acts: seq<Act>, r: Race, w: World)
    requires WorldInv(v) && limit > 0 && AreUnrelated(v, reqs)
    requires Playable(StartOf(v, pool, reqs, limit), moves) && Over(PlayAll(StartOf(v, pool, reqs, limit), moves))
    ensures r == PlayAll(StartOf(v, pool, reqs, limit), moves)
    ensures PlayedOut(v, pool, reqs, r, acts) && Replay(v, acts) == Some(w) && AnswersAreTrue(w, reqs, r)
    ensures |ClaimedOf(w, StockOf(v, pool))| == Min(|StockOf(v, pool)|, |reqs|)
  {
    StartIsStart(v, pool, reqs, limit);
    UnrelatedAreUnrelated(v, pool, reqs, limit);
    acts, r, w := RaceOfStore(v, pool, reqs, limit, moves);
    UnrelatedCallsConserveStock(StartOf(v, pool, reqs, limit), moves);
    AnswersAreTrueThere(v, pool, reqs, r, w);
    WinnersAreOwners(r);
  }

  // ---- The lists a claimer works through ----

  /** The answer to a list of the server's current contents: every object once, as it is now. */
  predicate IsCurrentRead(w: World, copies: seq<Cached>) {
    && (forall i | 0 <= i < |copies| ::
          Genuine(w, copies[i]) && !w[copies[i].name].gone && copies[i].read + 1 == |w[copies[i].name].versions|)
    && (forall i, j | 0 <= i < j < |copies| :: copies[i].name != copies[j].name)
    && (forall n | n in w && w[n].Exists() && !w[n].gone :: exists i :: 0 <= i < |copies| && copies[i].name == n)
  }

  lemma HasCopy(w: World, copies: seq<Cached>, n: string) returns (c: Cached)
    requires IsCurrentRead(w, copies) && n in w && w[n].Exists() && !w[n].gone
    ensures c in copies && c.name == n && c.content == w[n].Current()
  {
    var i :| 0 <= i < |copies| && copies[i].name == n;
    assert Genuine(w, copies[i]);
    c := copies[i];
  }

  lemma CopyIsCurrent(w: World, copies: seq<Cached>, c: Cached)
    requires IsCurrentRead(w, copies) && c in copies
    ensures c.name in w && w[c.name].Exists() && !w[c.name].gone && c.content == w[c.name].Current()
  {
    var i :| 0 <= i < |copies| && copies[i] == c;
    assert Genuine(w, copies[i]);
  }

  /** The lookup of ClaimStock in such an answer is one the race allows, whatever order it came in. */
  lemma FoundIsLookup(v: World, pool: string, reqs: seq<Claimer.Request>, r: Race, w: World, c: nat,
      copies: seq<Cached>, found: Option<Cached>)
    requires WorldInv(v) && Mirrors(v, pool, reqs, r, w) && RaceInv(r) && c < |reqs| && r.runners[c].Waiting?
    requires IsCurrentRead(w, copies) && Claimer.IsFirstMatch(copies, reqs[c], found)
    ensures Possible(r, Lookup(c, if found.Some? then Some(found.value.name) else None))
  {
    match found {
      case Some(f) =>
        assert f in copies;
        CopyIsCurrent(w, copies, f);
        MatchIff(v, pool, reqs, r, w, c, f.name);
      case None =>
        forall n | n in r.known.Keys + r.owner.Keys
          ensures !r.Tells(n, c)
        {
          MatchIff(v, pool, reqs, r, w, c, n);
          if IsMatch(w, reqs[c], n) {
            var f := HasCopy(w, copies, n);
          }
        }
    }
  }

  function Names(list: seq<Cached>): seq<string> {
    seq(|list|, i requires 0 <= i < |list| => list[i].name)
  }

  predicate OnceEach(list: seq<Cached>) {
    forall i, j | 0 <= i < j < |list| :: list[i].name != list[j].name
  }

  lemma {:induction false} SelectedOnce(copies: seq<Cached>, req: Claimer.Request)
    requires OnceEach(copies)
    ensures OnceEach(Claimer.Select(copies, req))
    ensures forall c | c in copies && Claimer.Selected(c.content, req) :: c in Claimer.Select(copies, req)
  {
    if copies != [] {
      SelectedOnce(copies[1..], req);
      Claimer.SelectSelects(copies[1..], req);
      assert copies == [copies[0]] + copies[1..];
      var rest := Claimer.Select(copies[1..], req);
      forall c | c in rest
        ensures c.name != copies[0].name
      {
        assert c in copies[1..];
      }
    }
  }

  /** A name twice in a list is a copy twice, where copies of one name are the same. */
  lemma PermutedOnce(list: seq<Cached>, sorted: seq<Cached>)
    requires OnceEach(list) && multiset(list) == multiset(sorted)
    ensures OnceEach(sorted)
  {
    StableSort.SameElements(list, sorted);
    forall i, j | 0 <= i < j < |sorted|
      ensures sorted[i].name != sorted[j].name
    {
      if sorted[i].name == sorted[j].name {
        assert sorted[i] in list && sorted[j] in list;
        assert sorted[i] == sorted[j];
        TwiceInSequence(sorted, i, j);
        OnceInMultiset(list, sorted[i]);
      }
    }
  }

  lemma TwiceInSequence(s: seq<Cached>, i: nat, j: nat)
    requires i < j < |s| && s[i] == s[j]
    ensures multiset(s)[s[i]] >= 2
  {
    assert s == s[..j] + [s[j]] + s[j + 1..];
    assert s[i] in s[..j];
    assert s[i] in multiset(s[..j]);
  }

  lemma {:induction false} OnceInMultiset(s: seq<Cached>, c: Cached)
    requires OnceEach(s)
    ensures multiset(s)[c] <= 1
  {
    if s != [] {
      OnceInMultiset(s[1..], c);
      assert s == [s[0]] + s[1..];
      if c == s[0] {
        assert c !in s[1..];
        assert c !in multiset(s[1..]);
      }
    }
  }

  lemma CandidatesOnce(copies: seq<Cached>, req: Claimer.Request)
    requires OnceEach(copies)
    ensures OnceEach(Claimer.Candidates(copies, req))
    ensures forall c ::
        c in Claimer.Candidates(copies, req) <==> c in copies && Claimer.Selected(c.content, req)
  {
    var le := (a: Cached, b: Cached) => Claimer.NotAfter(req.tenant, a, b);
    SelectedOnce(copies, req);
    Claimer.SelectSelects(copies, req);
    StableSort.SortPermutes(le, Claimer.Select(copies, req));
    StableSort.SameElements(Claimer.Select(copies, req), Claimer.Candidates(copies, req));
    PermutedOnce(Claimer.Select(copies, req), Claimer.Candidates(copies, req));
  }

  lemma InNames(list: seq<Cached>, c: Cached)
    requires c in list
    ensures c.name in Names(list)
  {
    var i :| 0 <= i < |list| && list[i] == c;
    assert Names(list)[i] == c.name;
  }

  lemma CandidateIff(w: World, copies: seq<Cached>, req: Claimer.Request, n: string)
    requires IsCurrentRead(w, copies)
    ensures n in Names(Claimer.Candidates(copies, req)) <==> IsPoolStock(w, req.pool, n)
  {
    var list := Claimer.Candidates(copies, req);
    CandidatesOnce(copies, req);
    if n in Names(list) {
      var i :| 0 <= i < |list| && Names(list)[i] == n;
      assert list[i] in list;
      CopyIsCurrent(w, copies, list[i]);
    }
    if IsPoolStock(w, req.pool, n) {
      var c := HasCopy(w, copies, n);
      InNames(list, c);
    }
  }

  lemma OwnersAreNotIdle(r: Race)
    requires RaceInv(r)
    ensures r.owner.Keys !! r.idle
  {
  }

  /** The candidates of ClaimStock, computed from such an answer, are a list the race may hand out: each piece
      of unclaimed stock once, ready or not, and nothing else. */
  lemma CandidatesAreCurrentList(
      v: World, pool: string, reqs: seq<Claimer.Request>, r: Race, w: World, c: nat, copies: seq<Cached>)
    requires Mirrors(v, pool, reqs, r, w) && RaceInv(r) && AskFor(reqs, pool) && c < |reqs|
    requires IsCurrentRead(w, copies)
    ensures IsCurrentList(r, Names(Claimer.Candidates(copies, reqs[c])))
  {
    OwnersAreNotIdle(r);
    LeftIsListed(v, pool, reqs, r, w);
    CandidatesOnce(copies, reqs[c]);
    forall n
      ensures n in Names(Claimer.Candidates(copies, reqs[c])) <==> n in r.Left() + r.idle
    {
      CandidateIff(w, copies, reqs[c], n);
    }
  }
}
