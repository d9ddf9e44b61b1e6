/** The matchmaker of one family: a queue of ranked players waiting for a
    game, sessions assembled from them that wait for a worker, and sessions
    that are running. Three recurring tasks re-sort the queue, assemble
    sessions and place waiting sessions on workers; `Kill` ends everything. */
module Matchmaking {
  import opened Common
  import Sorting

  /** One team of the configured team shape. */
  datatype Team = Team(name: string, min: int, max: int)

  /** The ranking schema a family's matchmaking is configured with. */
  datatype RankSchema = WinLossSchema | WinRateSchema | RandomizedSchema

  /** The matchmaker variant built for a schema. */
  datatype MatchmakerKind = WinLoss | WinRate | Randomized

  /** A queued player wrapped with its score. */
  datatype RankedPlayer = RankedPlayer(uuid: string, rank: int)

  /** A session; its members, team slots and worker belong to the session
      itself and are not part of this model. */
  datatype Session = Session(id: nat)

  /** Sum of the teams' minimum sizes. */
  function SumMins(teams: seq<Team>): int
  {
    if teams == [] then 0 else SumMins(teams[..|teams| - 1]) + teams[|teams| - 1].min
  }

  /** Sum of the teams' maximum sizes. */
  function SumMaxes(teams: seq<Team>): int
  {
    if teams == [] then 0 else SumMaxes(teams[..|teams| - 1]) + teams[|teams| - 1].max
  }

  /** When every team's minimum is at most its maximum, so are the sums. */
  lemma {:induction false} SumMinsAtMostSumMaxes(teams: seq<Team>)
    requires forall t :: t in teams ==> t.min <= t.max
    ensures SumMins(teams) <= SumMaxes(teams)
  {
    if teams != [] {
      assert forall t :: t in teams[..|teams| - 1] ==> t in teams;
      SumMinsAtMostSumMaxes(teams[..|teams| - 1]);
      assert teams[|teams| - 1] in teams;
    }
  }

  /** Walks the teams once, adding up their minimum and maximum sizes. */
  method TeamTotals(teams: seq<Team>) returns (min: int, max: int)
    ensures min == SumMins(teams) && max == SumMaxes(teams)
  {
    min, max := 0, 0;
    for i := 0 to |teams|
      invariant min == SumMins(teams[..i]) && max == SumMaxes(teams[..i])
    {
      assert teams[..i + 1][..i] == teams[..i];
      min := min + teams[i].min;
      max := max + teams[i].max;
    }
    assert teams[..|teams|] == teams;
  }

  /** Java's `int` division, which truncates toward zero. */
  function JavaDiv(a: int, b: int): (r: int)
    requires b != 0
    ensures a >= 0 && b > 0 ==> r == a / b
    ensures (a >= 0) == (b > 0) ==> r >= 0
  {
    if b > 0 then (if a >= 0 then a / b else -((-a) / b))
    else (if a >= 0 then -(a / -b) else (-a) / -b)
  }

  /** How many sessions one assembly tick tries to build from `q` queued
      players: the average of `q / max` and `q / min`, each an `int`
      division, rounded down. */
  function GamesToMake(q: nat, min: int, max: int): (r: int)
    requires min != 0 && max != 0
    ensures min > 0 && max > 0 ==> r >= 0
  {
    (JavaDiv(q, max) + JavaDiv(q, min)) / 2
  }

  /** With positive team sizes the estimate lies between the number of
      sessions that fit at maximum size and the number that fit at minimum
      size, and is at least one once a full session is queued. */
  lemma GamesToMakeBetween(q: nat, min: int, max: int)
    requires 0 < min <= max
    ensures q / max <= GamesToMake(q, min, max) <= q / min
    ensures q >= max ==> GamesToMake(q, min, max) >= 1
  {
    var a, b := q / max, q / min;
    DivBounds(q, max);
    DivBounds(q, min);
    MulMonotone(a, min, max);
    assert a <= b by {
      if a > b {
        MulMonotone(min, b + 1, a);
      }
    }
  }

  /** The quotient `q / d` is the largest `k` with `k * d <= q`. */
  lemma DivBounds(q: nat, d: int)
    requires d > 0
    ensures q / d >= 0
    ensures (q / d) * d <= q < (q / d + 1) * d
  {
    var k, r := q / d, q % d;
    assert q == d * k + r && 0 <= r < d;
    assert (k + 1) * d == k * d + d;
  }

  lemma MulMonotone(a: int, x: int, y: int)
    requires a >= 0 && x <= y
    ensures a * x <= a * y
  {
    assert a * y - a * x == a * (y - x);
  }

  /** The sessions that `n` successive calls of the session factory yield:
      the `i`-th call answers `make(i)`, and a call that gives no session
      (none, or a failure) adds nothing. */
  function Collect(make: nat -> Option<Session>, n: int): (r: seq<Session>)
    ensures |r| <= Max(n, 0)
    decreases n
  {
    if n <= 0 then []
    else Collect(make, n - 1) + (if make(n - 1).Some? then [make(n - 1).value] else [])
  }

  /** At most one session per call, each one a call's own result, in call
      order. */
  lemma {:induction false} CollectBounds(make: nat -> Option<Session>, n: int)
    ensures |Collect(make, n)| <= Max(n, 0)
    ensures forall s :: s in Collect(make, n) ==> exists i :: 0 <= i < n && make(i) == Some(s)
    ensures (forall i :: 0 <= i < n ==> make(i).Some?) ==> |Collect(make, n)| == Max(n, 0)
  {
    if n > 0 {
      CollectBounds(make, n - 1);
    }
  }

  /** The first occurrence of `x` removed (`Vector.remove(Object)`). */
  function RemoveFirst<T(==)>(s: seq<T>, x: T): (r: seq<T>)
    ensures x !in s ==> r == s
    ensures x in s ==> |r| == |s| - 1
  {
    if s == [] then []
    else if s[0] == x then s[1..]
    else [s[0]] + RemoveFirst(s[1..], x)
  }

  lemma {:induction false} RemoveFirstCount<T>(s: seq<T>, x: T)
    requires x in s
    ensures multiset(RemoveFirst(s, x)) == multiset(s) - multiset{x}
  {
    assert s == [s[0]] + s[1..];
    if s[0] != x {
      RemoveFirstCount(s[1..], x);
    }
  }

  /** The elements of `s` for which `p` does not hold, in order
      (`Collection.removeIf`). */
  function RemoveIf<T>(s: seq<T>, p: T -> bool): seq<T>
  {
    if s == [] then []
    else if p(s[0]) then RemoveIf(s[1..], p)
    else [s[0]] + RemoveIf(s[1..], p)
  }

  lemma {:induction false} RemoveIfMembers<T>(s: seq<T>, p: T -> bool)
    ensures forall x :: x in RemoveIf(s, p) <==> x in s && !p(x)
  {
    if s != [] {
      RemoveIfMembers(s[1..], p);
      assert forall x :: x in s <==> x == s[0] || x in s[1..];
    }
  }

  /** The predicate `remove(player)` hands to `removeIf` as written: it
      compares a queued player's UUID with that same player's UUID. */
  predicate SameAsItself(p: RankedPlayer)
  {
    p.uuid == p.uuid
  }

  /** `remove(player)` as written: its predicate holds of everyone. */
  function RemoveAsWritten(queue: seq<RankedPlayer>, uuid: string): seq<RankedPlayer>
  {
    RemoveIf(queue, SameAsItself)
  }

  /** As written, removing any player empties the whole queue. */
  lemma {:induction false} RemoveAsWrittenEmptiesQueue(queue: seq<RankedPlayer>, uuid: string)
    ensures RemoveAsWritten(queue, uuid) == []
  {
    if queue != [] {
      RemoveAsWrittenEmptiesQueue(queue[1..], uuid);
    }
  }

  /** A concrete queue that shows it: asking to remove "a" also drops "b". */
  lemma RemoveAsWrittenDropsOthers()
    ensures var queue := [RankedPlayer("a", 1), RankedPlayer("b", 2)];
      && RemoveAsWritten(queue, "a") == []
      && RemoveById(queue, "a") == [RankedPlayer("b", 2)]
  {
    RemoveAsWrittenEmptiesQueue([RankedPlayer("a", 1), RankedPlayer("b", 2)], "a");
  }

  /** `remove(player)` as evidently intended: drop the players whose UUID is
      the given player's. */
  function RemoveById(queue: seq<RankedPlayer>, uuid: string): seq<RankedPlayer>
  {
    RemoveIf(queue, (p: RankedPlayer) => p.uuid == uuid)
  }

  /** The intended removal keeps exactly the other players, and no player
      with the given UUID is left. */
  lemma RemoveByIdKeepsOthers(queue: seq<RankedPlayer>, uuid: string)
    ensures forall p :: p in RemoveById(queue, uuid) <==> p in queue && p.uuid != uuid
    ensures |RemoveById(queue, uuid)| <= |queue|
  {
    RemoveIfMembers(queue, (p: RankedPlayer) => p.uuid == uuid);
    RemoveIfShrinks(queue, (p: RankedPlayer) => p.uuid == uuid);
  }

  lemma {:induction false} RemoveIfShrinks<T>(s: seq<T>, p: T -> bool)
    ensures |RemoveIf(s, p)| <= |s|
  {
    if s != [] {
      RemoveIfShrinks(s[1..], p);
    }
  }

  /** What placing waiting sessions does: walk `pending` (a snapshot of the
      waiting sessions) in order while the balancer still has `unlocked`
      workers; a session that is `placed` (connected, and its worker
      locked) leaves `waiting` for the end of `running` and uses one
      worker up; any other session stays where it is. */
  function Place(pending: seq<Session>, waiting: seq<Session>, running: seq<Session>,
                 unlocked: nat, placed: Session -> bool): (r: (seq<Session>, seq<Session>))
    ensures unlocked == 0 || pending == [] ==> r == (waiting, running)
    ensures |running| <= |r.1| <= |running| + unlocked
    ensures |r.1| - |running| <= |pending|
    decreases |pending|
  {
    if pending == [] || unlocked == 0 then (waiting, running)
    else if placed(pending[0]) then
      Place(pending[1..], RemoveFirst(waiting, pending[0]), running + [pending[0]], unlocked - 1, placed)
    else
      Place(pending[1..], waiting, running, unlocked, placed)
  }

  /** Placing sessions only moves them: waiting and running together hold
      the same sessions before and after. */
  lemma {:induction false} PlaceConserves(pending: seq<Session>, waiting: seq<Session>, running: seq<Session>,
                                          unlocked: nat, placed: Session -> bool)
    requires multiset(pending) <= multiset(waiting)
    ensures var (w, r) := Place(pending, waiting, running, unlocked, placed);
      multiset(w) + multiset(r) == multiset(waiting) + multiset(running)
  {
    if pending != [] && unlocked != 0 {
      assert pending == [pending[0]] + pending[1..];
      if placed(pending[0]) {
        assert pending[0] in multiset(waiting);
        RemoveFirstCount(waiting, pending[0]);
        PlaceConserves(pending[1..], RemoveFirst(waiting, pending[0]), running + [pending[0]], unlocked - 1, placed);
      } else {
        PlaceConserves(pending[1..], waiting, running, unlocked, placed);
      }
    }
  }

  /** Placing sessions appends to `running` at most `unlocked` sessions, each
      of them placed, and leaves every session that could not be placed as
      often in `waiting` as it was. */
  lemma {:induction false} PlaceMovesOnlyPlaced(pending: seq<Session>, waiting: seq<Session>, running: seq<Session>,
                                                unlocked: nat, placed: Session -> bool)
    ensures var (w, r) := Place(pending, waiting, running, unlocked, placed);
      && |running| <= |r| <= |running| + unlocked
      && r[..|running|] == running
      && (forall i :: |running| <= i < |r| ==> placed(r[i]))
      && (forall s :: !placed(s) ==> multiset(w)[s] == multiset(waiting)[s])
  {
    if pending != [] && unlocked != 0 {
      if placed(pending[0]) {
        var waiting' := RemoveFirst(waiting, pending[0]);
        var running' := running + [pending[0]];
        PlaceMovesOnlyPlaced(pending[1..], waiting', running', unlocked - 1, placed);
        var (w, r) := Place(pending, waiting, running, unlocked, placed);
        assert r[..|running'|] == running';
        assert r[..|running|] == running'[..|running|];
        forall s | !placed(s) ensures multiset(waiting')[s] == multiset(waiting)[s] {
          if pending[0] in waiting {
            RemoveFirstCount(waiting, pending[0]);
          }
        }
      } else {
        PlaceMovesOnlyPlaced(pending[1..], waiting, running, unlocked, placed);
      }
    }
  }

  /** Conversely, with a free worker for each and every one of them placed,
      all waiting sessions start running, in their waiting order. */
  lemma {:induction false} PlaceAllPlaced(pending: seq<Session>, running: seq<Session>,
                                          unlocked: nat, placed: Session -> bool)
    requires |pending| <= unlocked
    requires forall s :: s in pending ==> placed(s)
    ensures Place(pending, pending, running, unlocked, placed) == ([], running + pending)
  {
    if pending == [] {
      assert running + pending == running;
    } else {
      assert placed(pending[0]);
      assert RemoveFirst(pending, pending[0]) == pending[1..];
      assert forall s :: s in pending[1..] ==> s in pending;
      PlaceAllPlaced(pending[1..], running + [pending[0]], unlocked - 1, placed);
      assert running + [pending[0]] + pending[1..] == running + pending;
    }
  }

  /** No two queued players share a UUID. */
  predicate DistinctUuids(q: seq<RankedPlayer>) {
    forall i, j :: 0 <= i < j < |q| ==> q[i].uuid != q[j].uuid
  }

  /** Putting a player whose UUID is not queued anywhere into a queue
      without repeated UUIDs keeps it without repeated UUIDs. */
  lemma DistinctUuidsInsertAt(q: seq<RankedPlayer>, k: nat, x: RankedPlayer)
    requires DistinctUuids(q) && k <= |q|
    requires forall p :: p in q ==> p.uuid != x.uuid
    ensures DistinctUuids(q[..k] + [x] + q[k..])
  {
    var r := q[..k] + [x] + q[k..];
    forall i, j | 0 <= i < j < |r| ensures r[i].uuid != r[j].uuid {
      var qi := if i < k then i else i - 1;
      var qj := if j < k then j else j - 1;
      if i != k && j != k {
        assert r[i] == q[qi] && r[j] == q[qj];
      } else if i == k {
        assert r[j] == q[qj];
      } else {
        assert r[i] == q[qi];
      }
    }
  }

  /** The matchmaker variant `from(settings)` builds: WinLoss for the
      win/loss schema, WinRate for the win-rate schema, Randomized for any
      other. */
  function KindFor(algorithm: RankSchema): (k: MatchmakerKind)
    ensures algorithm == WinLossSchema <==> k == WinLoss
    ensures algorithm == WinRateSchema <==> k == WinRate
  {
    if algorithm == WinLossSchema then WinLoss
    else if algorithm == WinRateSchema then WinRate
    else Randomized
  }

  class Matchmaker {
    const teams: seq<Team>
    const kind: MatchmakerKind
    /** How the variant ranks queued players; each variant supplies its own. */
    const rankOrder: (RankedPlayer, RankedPlayer) -> bool
    const minPlayersPerGame: int
    const maxPlayersPerGame: int
    var waitingSessions: seq<Session>
    var runningSessions: seq<Session>
    var waitingPlayers: seq<RankedPlayer>

    /** Sums the team shape into the per-game player bounds; starts with
        nothing queued, waiting or running. */
    constructor (teams: seq<Team>, algorithm: RankSchema, rankOrder: (RankedPlayer, RankedPlayer) -> bool)
      ensures this.teams == teams && this.rankOrder == rankOrder && kind == KindFor(algorithm)
      ensures minPlayersPerGame == SumMins(teams) && maxPlayersPerGame == SumMaxes(teams)
      ensures waitingSessions == [] && runningSessions == [] && waitingPlayers == []
    {
      this.teams := teams;
      this.kind := KindFor(algorithm);
      this.rankOrder := rankOrder;
      var min, max := TeamTotals(teams);
      this.minPlayersPerGame := min;
      this.maxPlayersPerGame := max;
      this.waitingSessions := [];
      this.runningSessions := [];
      this.waitingPlayers := [];
    }

    /** As written: more players are queued than one game needs at least;
        a queue holding exactly the minimum does not count. */
    predicate MinimumPlayersExist()
      reads this
      ensures |waitingPlayers| == minPlayersPerGame ==> !MinimumPlayersExist()
    {
      |waitingPlayers| > minPlayersPerGame
    }

    /** As evidently intended, and as session assembly decides: at least as
        many players are queued as one game needs. It holds exactly when the
        as-written check does, or the queue holds the minimum itself. */
    predicate EnoughPlayers()
      reads this
      ensures EnoughPlayers() <==> MinimumPlayersExist() || |waitingPlayers| == minPlayersPerGame
    {
      |waitingPlayers| >= minPlayersPerGame
    }

    /** The two disagree exactly when the queue holds the minimum itself. */
    lemma MinimumPlayersExistMissesExactMinimum()
      ensures MinimumPlayersExist() ==> EnoughPlayers()
      ensures EnoughPlayers() && !MinimumPlayersExist() <==> |waitingPlayers| == minPlayersPerGame
    {
    }

    /** A player is queued when a queued player has its UUID (ranked players
        are equal exactly when their UUIDs are). */
    predicate Contains(item: RankedPlayer)
      reads this
      ensures item in waitingPlayers ==> Contains(item)
      ensures !Contains(item) <==> forall p :: p in waitingPlayers ==> p.uuid != item.uuid
    {
      exists i :: 0 <= i < |waitingPlayers| && waitingPlayers[i].uuid == item.uuid
    }

    /** Queues a player unless a player with its UUID is already queued, then
        re-sorts only the new player relative to the rest: the others keep
        their order, the new one lands at one position among them. */
    method Add(player: RankedPlayer)
      modifies this`waitingPlayers
      ensures old(Contains(player)) ==> waitingPlayers == old(waitingPlayers)
      ensures !old(Contains(player)) ==>
        exists k :: 0 <= k <= |old(waitingPlayers)|
          && waitingPlayers == old(waitingPlayers)[..k] + [player] + old(waitingPlayers)[k..]
      ensures !old(Contains(player)) ==>
        && |waitingPlayers| == |old(waitingPlayers)| + 1
        && multiset(waitingPlayers) == multiset(old(waitingPlayers)) + multiset{player}
      ensures Contains(player)
      ensures DistinctUuids(old(waitingPlayers)) ==> DistinctUuids(waitingPlayers)
      ensures !old(Contains(player)) && Sorting.Sorted(old(waitingPlayers), rankOrder)
              && Sorting.TotalPreorderOn(old(waitingPlayers) + [player], rankOrder)
              ==> Sorting.Sorted(waitingPlayers, rankOrder)
    {
      if Contains(player) {
        return;
      }
      var queue := waitingPlayers + [player];
      var index := |queue| - 1;
      assert queue[..index] + queue[index + 1..] == old(waitingPlayers);
      Sorting.SingleSortPermutes(queue, index, rankOrder);
      Sorting.InsertSplits(player, old(waitingPlayers), rankOrder);
      if Sorting.Sorted(old(waitingPlayers), rankOrder) && Sorting.TotalPreorderOn(queue, rankOrder) {
        Sorting.SingleSortSorts(queue, index, rankOrder);
      }
      waitingPlayers := Sorting.SingleSort(queue, index, rankOrder);
      ghost var k :| 0 <= k <= |old(waitingPlayers)|
        && waitingPlayers == old(waitingPlayers)[..k] + [player] + old(waitingPlayers)[k..];
      if DistinctUuids(old(waitingPlayers)) {
        DistinctUuidsInsertAt(old(waitingPlayers), k, player);
      }
      assert waitingPlayers[k] == player;
    }

    /** As written: empties the queue whatever player is given. */
    method Remove(uuid: string)
      modifies this`waitingPlayers
      ensures waitingPlayers == RemoveAsWritten(old(waitingPlayers), uuid)
      ensures waitingPlayers == []
    {
      waitingPlayers := RemoveIf(waitingPlayers, SameAsItself);
      RemoveAsWrittenEmptiesQueue(old(waitingPlayers), uuid);
    }

    /** The rank re-sort task: the whole queue reordered by the variant's
        ranking. */
    method CompleteSort()
      modifies this`waitingPlayers
      ensures multiset(waitingPlayers) == multiset(old(waitingPlayers))
      ensures Sorting.TotalPreorderOn(old(waitingPlayers), rankOrder) ==> Sorting.Sorted(waitingPlayers, rankOrder)
    {
      Sorting.SortByPermutes(waitingPlayers, rankOrder);
      if Sorting.TotalPreorderOn(waitingPlayers, rankOrder) {
        Sorting.SortBySorts(waitingPlayers, rankOrder);
      }
      waitingPlayers := Sorting.SortBy(waitingPlayers, rankOrder);
    }

    /** The session assembly task: with fewer players queued than a game
        needs, nothing; a zero team-size sum is an integer division by zero;
        otherwise the session factory is called `GamesToMake` times and each
        session it yields joins the waiting sessions. */
    method AssembleSessions(make: nat -> Option<Session>) returns (outcome: Outcome)
      modifies this`waitingSessions
      ensures !EnoughPlayers() ==> outcome == Pass && waitingSessions == old(waitingSessions)
      ensures EnoughPlayers() && (maxPlayersPerGame == 0 || minPlayersPerGame == 0) ==>
        outcome == Fail(Arithmetic) && waitingSessions == old(waitingSessions)
      ensures EnoughPlayers() && maxPlayersPerGame != 0 && minPlayersPerGame != 0 ==>
        && outcome == Pass
        && waitingSessions == old(waitingSessions)
             + Collect(make, GamesToMake(|waitingPlayers|, minPlayersPerGame, maxPlayersPerGame))
    {
      var playerCount := |waitingPlayers|;
      if playerCount < minPlayersPerGame {
        return Pass;
      }
      if maxPlayersPerGame == 0 || minPlayersPerGame == 0 {
        return Fail(Arithmetic);
      }
      var approximateNumberOfGamesToRun := GamesToMake(playerCount, minPlayersPerGame, maxPlayersPerGame);
      var i := 0;
      while i < approximateNumberOfGamesToRun
        invariant 0 <= i && (approximateNumberOfGamesToRun >= 0 ==> i <= approximateNumberOfGamesToRun)
        invariant approximateNumberOfGamesToRun < 0 ==> i == 0
        invariant waitingSessions == old(waitingSessions) + Collect(make, i)
      {
        var session := make(i);
        if session.Some? {
          waitingSessions := waitingSessions + [session.value];
        }
        i := i + 1;
      }
      assert Collect(make, i) == Collect(make, approximateNumberOfGamesToRun);
      outcome := Pass;
    }

    /** The connection assembly task: with `unlocked` workers free in the
        family's balancer, walk a snapshot of the waiting sessions and move
        each placed session to the running ones, until no worker is free.
        Returns how many workers are still free: one fewer for every session
        that started running. */
    method AssembleConnections(unlocked: nat, placed: Session -> bool) returns (remaining: nat)
      modifies this`waitingSessions, this`runningSessions
      ensures remaining == unlocked - (|runningSessions| - |old(runningSessions)|)
      ensures (waitingSessions, runningSessions)
        == Place(old(waitingSessions), old(waitingSessions), old(runningSessions), unlocked, placed)
      ensures multiset(waitingSessions) + multiset(runningSessions)
        == multiset(old(waitingSessions)) + multiset(old(runningSessions))
    {
      PlaceConserves(waitingSessions, waitingSessions, runningSessions, unlocked, placed);
      if unlocked == 0 {
        return 0;
      }
      var sessionsForLooping := waitingSessions;
      remaining := unlocked;
      var i := 0;
      while i < |sessionsForLooping|
        invariant 0 <= i <= |sessionsForLooping|
        invariant remaining == unlocked - (|runningSessions| - |old(runningSessions)|)
        invariant Place(sessionsForLooping[i..], waitingSessions, runningSessions, remaining, placed)
          == Place(sessionsForLooping, old(waitingSessions), old(runningSessions), unlocked, placed)
      {
        if remaining == 0 {
          break;
        }
        var session := sessionsForLooping[i];
        assert sessionsForLooping[i..][1..] == sessionsForLooping[i + 1..];
        if placed(session) {
          waitingSessions := RemoveFirst(waitingSessions, session);
          runningSessions := runningSessions + [session];
          remaining := remaining - 1;
        }
        i := i + 1;
      }
    }

    /** Teardown: every waiting, then every running session is ended, in
        that order, and both lists are left empty. Returns the sessions
        ended. */
    method Kill() returns (ended: seq<Session>)
      modifies this`waitingSessions, this`runningSessions
      ensures ended == old(waitingSessions) + old(runningSessions)
      ensures waitingSessions == [] && runningSessions == []
    {
      ended := waitingSessions;
      waitingSessions := [];
      ended := ended + runningSessions;
      runningSessions := [];
    }
  }
}
