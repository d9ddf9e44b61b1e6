/** The least-connection load balancer of one family: an ordered list of
    workers and a cursor into it. A cheap `Iterate` step moves the cursor past
    a worker that is at least as busy as the next one; the sorts reorder the
    list and put the cursor back at the front. */
module LoadBalancing {
  import opened Server
  import Sorting

  /** What the comparators see of a worker. */
  datatype Load = Load(players: int, weight: int)

  function LoadOf(l: MCLoader): Load
    reads l
  {
    Load(l.playerCount, l.weight)
  }

  /** The plain policy's ordering key: ascending player count, the worker's
      sort index. */
  function ByPlayerCount(a: Load, b: Load): bool
  {
    a.players <= b.players
  }

  lemma ByPlayerCountIsTotalPreorder()
    ensures Sorting.TotalPreorder(ByPlayerCount)
  {
  }

  /** The loads of `s`, recorded before a sort so that the comparator the
      sort receives reads nothing. */
  function LoadsOf(s: seq<MCLoader>): (m: map<MCLoader, Load>)
    reads set l | l in s
    ensures forall l :: l in s ==> l in m && m[l] == LoadOf(l)
  {
    map l | l in s :: LoadOf(l)
  }

  function LoadIn(m: map<MCLoader, Load>, l: MCLoader): Load
  {
    if l in m then m[l] else Load(0, 0)
  }

  /** A comparator of loads, lifted to workers through a recorded snapshot. */
  function OnLoads(m: map<MCLoader, Load>, order: (Load, Load) -> bool): (MCLoader, MCLoader) -> bool
  {
    (a: MCLoader, b: MCLoader) => order(LoadIn(m, a), LoadIn(m, b))
  }

  lemma OnLoadsIsTotalPreorder(s: seq<MCLoader>, m: map<MCLoader, Load>, order: (Load, Load) -> bool)
    requires Sorting.TotalPreorder(order)
    ensures Sorting.TotalPreorderOn(s, OnLoads(m, order))
  {
    var le := OnLoads(m, order);
    forall a, b, c | a in s && b in s && c in s && le(a, b) && le(b, c) ensures le(a, c) {
      assert order(LoadIn(m, a), LoadIn(m, b)) && order(LoadIn(m, b), LoadIn(m, c));
    }
    forall a, b | a in s && b in s ensures le(a, b) || le(b, a) {
      assert order(LoadIn(m, a), LoadIn(m, b)) || order(LoadIn(m, b), LoadIn(m, a));
    }
  }

  /** Every worker's load is `order`-before every later worker's. */
  ghost predicate SortedByLoad(s: seq<MCLoader>, order: (Load, Load) -> bool)
    reads set l | l in s
  {
    forall i, j :: 0 <= i < j < |s| ==> order(LoadOf(s[i]), LoadOf(s[j]))
  }

  lemma SortedOnSnapshot(s: seq<MCLoader>, m: map<MCLoader, Load>, order: (Load, Load) -> bool)
    requires forall l :: l in s ==> l in m && m[l] == LoadOf(l)
    requires Sorting.Sorted(s, OnLoads(m, order))
    ensures SortedByLoad(s, order)
  {
    forall i, j | 0 <= i < j < |s| ensures order(LoadOf(s[i]), LoadOf(s[j])) {
      assert s[i] in s && s[j] in s;
      assert LoadIn(m, s[i]) == LoadOf(s[i]) && LoadIn(m, s[j]) == LoadOf(s[j]);
      assert OnLoads(m, order)(s[i], s[j]);
    }
  }

  lemma SnapshotOfSorted(s: seq<MCLoader>, m: map<MCLoader, Load>, order: (Load, Load) -> bool)
    requires forall l :: l in s ==> l in m && m[l] == LoadOf(l)
    requires SortedByLoad(s, order)
    ensures Sorting.Sorted(s, OnLoads(m, order))
  {
    forall i, j | 0 <= i < j < |s| ensures OnLoads(m, order)(s[i], s[j]) {
      assert s[i] in s && s[j] in s;
      assert LoadIn(m, s[i]) == LoadOf(s[i]) && LoadIn(m, s[j]) == LoadOf(s[j]);
    }
  }

  /** Sorting on a snapshot of the current loads permutes the workers and,
      for a total preorder, orders them by their live loads. */
  lemma SortOnSnapshot(s: seq<MCLoader>, m: map<MCLoader, Load>, order: (Load, Load) -> bool)
    requires forall l :: l in s ==> l in m && m[l] == LoadOf(l)
    ensures multiset(Sorting.SortBy(s, OnLoads(m, order))) == multiset(s)
    ensures Sorting.TotalPreorder(order) ==> SortedByLoad(Sorting.SortBy(s, OnLoads(m, order)), order)
  {
    var sorted := Sorting.SortBy(s, OnLoads(m, order));
    Sorting.SortByPermutes(s, OnLoads(m, order));
    forall l | l in sorted ensures l in s {
      assert l in multiset(sorted);
    }
    if Sorting.TotalPreorder(order) {
      OnLoadsIsTotalPreorder(s, m, order);
      Sorting.SortBySorts(s, OnLoads(m, order));
      SortedOnSnapshot(sorted, m, order);
    }
  }

  /** Re-sorting the front worker on a snapshot permutes the workers and,
      when the rest were ordered by player count, orders them all. */
  lemma SingleSortOnSnapshot(s: seq<MCLoader>, m: map<MCLoader, Load>)
    requires forall l :: l in s ==> l in m && m[l] == LoadOf(l)
    ensures multiset(Sorting.SingleSort(s, 0, OnLoads(m, ByPlayerCount))) == multiset(s)
    ensures |s| > 0 && SortedByLoad(s[1..], ByPlayerCount) ==>
      SortedByLoad(Sorting.SingleSort(s, 0, OnLoads(m, ByPlayerCount)), ByPlayerCount)
  {
    var sorted := Sorting.SingleSort(s, 0, OnLoads(m, ByPlayerCount));
    Sorting.SingleSortPermutes(s, 0, OnLoads(m, ByPlayerCount));
    forall l | l in sorted ensures l in s {
      assert l in multiset(sorted);
    }
    if |s| > 0 && SortedByLoad(s[1..], ByPlayerCount) {
      ByPlayerCountIsTotalPreorder();
      OnLoadsIsTotalPreorder(s, m, ByPlayerCount);
      assert s[..0] + s[1..] == s[1..];
      assert forall l :: l in s[1..] ==> l in s;
      SnapshotOfSorted(s[1..], m, ByPlayerCount);
      Sorting.SingleSortSorts(s, 0, OnLoads(m, ByPlayerCount));
      SortedOnSnapshot(sorted, m, ByPlayerCount);
    }
  }

  class LeastConnection {
    var servers: seq<MCLoader>
    var index: int
    const weighted: bool
    /** The weighted policy's comparator; its blend of player count and
        weight is a setting of the family. */
    const weightedOrder: (Load, Load) -> bool

    constructor (servers: seq<MCLoader>, weighted: bool, weightedOrder: (Load, Load) -> bool)
      ensures this.servers == servers && index == 0
      ensures this.weighted == weighted && this.weightedOrder == weightedOrder
    {
      this.servers := servers;
      this.index := 0;
      this.weighted := weighted;
      this.weightedOrder := weightedOrder;
    }

    /** The comparator of the active policy. */
    function Order(): (Load, Load) -> bool
    {
      if weighted then weightedOrder else ByPlayerCount
    }

    /** Both the cursor and the position after it hold a worker, and the
        worker at the cursor is at least as busy as the next one. */
    predicate CanAdvance()
      reads this, set l | l in servers
      ensures CanAdvance() ==> 0 <= index < |servers| - 1
      ensures CanAdvance() ==> ByPlayerCount(LoadOf(servers[index + 1]), LoadOf(servers[index]))
    {
      && 0 <= index && index + 1 < |servers|
      && servers[index].playerCount >= servers[index + 1].playerCount
    }

    /** Moves the cursor forward by one exactly when it can advance;
        otherwise, at the end of the list included, nothing changes. */
    method Iterate()
      modifies this`index
      ensures old(CanAdvance()) ==> index == old(index) + 1
      ensures !old(CanAdvance()) ==> index == old(index)
      ensures index >= old(index)
      ensures 0 <= old(index) < |servers| ==> 0 <= index < |servers|
    {
      if 0 <= index < |servers| && 0 <= index + 1 < |servers| {
        var thisItem := servers[index];
        var theNextItem := servers[index + 1];
        if thisItem.playerCount >= theNextItem.playerCount {
          index := index + 1;
        }
      }
    }

    /** Reorders every worker by the active policy and resets the cursor. */
    method CompleteSort()
      modifies this`servers, this`index
      ensures index == 0
      ensures multiset(servers) == multiset(old(servers))
      ensures Sorting.TotalPreorder(Order()) ==> SortedByLoad(servers, Order())
      ensures !weighted ==> SortedByLoad(servers, ByPlayerCount)
    {
      index := 0;
      var loads := LoadsOf(servers);
      var order := if weighted then weightedOrder else ByPlayerCount;
      servers := Sorting.SortBy(servers, OnLoads(loads, order));
      SortOnSnapshot(old(servers), loads, order);
      ByPlayerCountIsTotalPreorder();
    }

    /** Resets the cursor and re-sorts only the worker at the front relative
        to the others by player count. */
    method SingleSort()
      modifies this`servers, this`index
      ensures index == 0
      ensures multiset(servers) == multiset(old(servers))
      ensures |old(servers)| > 0 && SortedByLoad(old(servers)[1..], ByPlayerCount) ==>
        SortedByLoad(servers, ByPlayerCount)
    {
      index := 0;
      var loads := LoadsOf(servers);
      servers := Sorting.SingleSort(servers, index, OnLoads(loads, ByPlayerCount));
      SingleSortOnSnapshot(old(servers), loads);
    }
  }
}
