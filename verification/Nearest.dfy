/**
 The level-by-level search for the nearest territory of some kind: among those
 at the least number of steps, the first by name.
 */
module Nearest {
  import opened Wrappers
  import opened SortedIds
  import opened Turn

  type Map = map<TerritoryId, set<TerritoryId>>

  function NeighborsOf(g: Map, t: TerritoryId): set<TerritoryId>
  {
    if t in g then g[t] else {}
  }

  function Expanded(g: Map, s: set<TerritoryId>): set<TerritoryId>
  {
    s + set t, u | t in s && u in NeighborsOf(g, t) :: u
  }

  /** The territories at most n steps from the start. */
  function Ball(g: Map, start: TerritoryId, n: nat): set<TerritoryId>
  {
    if n == 0 then {start} else Expanded(g, Ball(g, start, n - 1))
  }

  /** A walk goes from neighbour to neighbour. */
  ghost predicate IsWalk(g: Map, p: seq<TerritoryId>)
  {
    p != [] && forall i :: 0 <= i < |p| - 1 ==> p[i] in g && p[i + 1] in g[p[i]]
  }

  ghost predicate Walks(g: Map, start: TerritoryId, t: TerritoryId, n: nat)
  {
    exists p :: IsWalk(g, p) && p[0] == start && p[|p| - 1] == t && |p| <= n + 1
  }

  /** A territory is within n steps exactly when a walk of at most n steps leads to it. */
  lemma {:induction false} WalkIff(g: Map, start: TerritoryId, t: TerritoryId, n: nat)
    ensures t in Ball(g, start, n) <==> Walks(g, start, t, n)
    decreases n
  {
    if n == 0 {
      assert t == start ==> IsWalk(g, [t]);
    } else {
      if t in Ball(g, start, n) { WalkTo(g, start, t, n); }
      if Walks(g, start, t, n) {
        var p :| IsWalk(g, p) && p[0] == start && p[|p| - 1] == t && |p| <= n + 1;
        WalkIn(g, p, n);
      }
    }
  }

  lemma {:induction false} WalkIn(g: Map, p: seq<TerritoryId>, n: nat)
    requires IsWalk(g, p) && |p| <= n + 1
    ensures p[|p| - 1] in Ball(g, p[0], n)
    decreases n
  {
    if |p| > 1 {
      var last := |p| - 1;
      WalkIn(g, p[..last], n - 1);
      assert p[last] in NeighborsOf(g, p[last - 1]);
    } else {
      BallGrows(g, p[0], 0, n);
    }
  }

  lemma {:induction false} WalkTo(g: Map, start: TerritoryId, t: TerritoryId, n: nat)
    requires t in Ball(g, start, n)
    ensures Walks(g, start, t, n)
    decreases n
  {
    if n == 0 {
      assert IsWalk(g, [t]);
    } else if t in Ball(g, start, n - 1) {
      WalkTo(g, start, t, n - 1);
    } else {
      var u :| u in Ball(g, start, n - 1) && t in NeighborsOf(g, u);
      WalkTo(g, start, u, n - 1);
      var p :| IsWalk(g, p) && p[0] == start && p[|p| - 1] == u && |p| <= n;
      assert IsWalk(g, p + [t]);
    }
  }

  ghost predicate Reachable(g: Map, start: TerritoryId, t: TerritoryId)
  {
    exists n: nat :: t in Ball(g, start, n)
  }

  lemma {:induction false} BallGrows(g: Map, start: TerritoryId, m: nat, n: nat)
    requires m <= n
    ensures Ball(g, start, m) <= Ball(g, start, n)
    decreases n
  {
    if m < n { BallGrows(g, start, m, n - 1); }
  }

  /** Once a step adds nothing, nothing more is ever added. */
  lemma {:induction false} BallStays(g: Map, start: TerritoryId, m: nat, n: nat)
    requires m <= n && Ball(g, start, m + 1) == Ball(g, start, m)
    ensures Ball(g, start, n) == Ball(g, start, m)
    decreases n
  {
    if m < n { BallStays(g, start, m, n - 1); }
  }

  /** The steps to t: it is within n of the start, and not nearer. */
  ghost predicate IsAtDistance(g: Map, start: TerritoryId, t: TerritoryId, n: nat)
  {
    t in Ball(g, start, n) && (n > 0 ==> t !in Ball(g, start, n - 1))
  }

  datatype Item = Item(territory: TerritoryId, distance: nat)

  function TerritoriesOf(q: seq<Item>): set<TerritoryId>
  {
    set i | 0 <= i < |q| :: q[i].territory
  }

  /** The matching territories of a level. */
  method MatchingIn(level: seq<Item>, matches: TerritoryId -> bool) returns (candidates: set<TerritoryId>)
    ensures candidates == set t | t in TerritoriesOf(level) && matches(t)
  {
    candidates := {};
    var i := 0;
    while i < |level|
      invariant i <= |level| && candidates == set t | t in TerritoriesOf(level[..i]) && matches(t)
    {
      assert level[..i + 1] == level[..i] + [level[i]];
      assert TerritoriesOf(level[..i + 1]) == TerritoriesOf(level[..i]) + {level[i].territory};
      if matches(level[i].territory) { candidates := candidates + {level[i].territory}; }
      i := i + 1;
    }
    assert level[..i] == level;
  }

  /** A queue of one level, of the territories new in it. */
  ghost predicate IsLevel(queue: seq<Item>, d: nat, fresh': set<TerritoryId>)
  {
    (forall i :: 0 <= i < |queue| ==> queue[i].distance == d) && TerritoriesOf(queue) == fresh'
  }

  lemma LevelAppended(queue: seq<Item>, d: nat, s: set<TerritoryId>, t: TerritoryId)
    requires IsLevel(queue, d, s)
    ensures IsLevel(queue + [Item(t, d)], d, s + {t})
  {
    var more := queue + [Item(t, d)];
    forall x ensures x in TerritoriesOf(more) <==> x in s + {t} {
      if x in s {
        var i :| 0 <= i < |queue| && queue[i].territory == x;
        assert more[i].territory == x;
      }
      assert more[|queue|].territory == t;
    }
  }

  /** The neighbours of one territory not seen before join the queue. */
  method Visit(g: Map, t: TerritoryId, d: nat, visited: set<TerritoryId>, queue: seq<Item>, ghost s: set<TerritoryId>)
    returns (visited': set<TerritoryId>, queue': seq<Item>)
    requires IsLevel(queue, d, s)
    ensures visited' == visited + NeighborsOf(g, t) && IsLevel(queue', d, s + (NeighborsOf(g, t) - visited))
  {
    VisitedAll(NeighborsOf(g, t));
    visited', queue' := VisitEach(Sorted(NeighborsOf(g, t)), d, visited, queue, s);
  }

  method VisitEach(order: seq<TerritoryId>, d: nat, visited: set<TerritoryId>, queue: seq<Item>, ghost s: set<TerritoryId>)
    returns (visited': set<TerritoryId>, queue': seq<Item>)
    requires Ascending(order) && IsLevel(queue, d, s)
    ensures visited' == visited + Visited(order, |order|) && IsLevel(queue', d, s + (Visited(order, |order|) - visited))
  {
    visited', queue' := visited, queue;
    NoneSeen(visited, s);
    var i := 0;
    while i < |order|
      invariant i <= |order| && visited' == visited + Visited(order, i)
      invariant IsLevel(queue', d, s + (Visited(order, i) - visited))
    {
      VisitNext(order, i);
      OneMoreSeen(visited, Visited(order, i), s, order[i]);
      visited', queue' := VisitOne(order[i], d, visited', queue', s + (Visited(order, i) - visited));
      i := i + 1;
    }
  }

  lemma NoneSeen(visited: set<TerritoryId>, s: set<TerritoryId>)
    ensures visited + {} == visited && s + ({} - visited) == s
  {
  }

  lemma OneMoreSeen(visited: set<TerritoryId>, seen: set<TerritoryId>, s: set<TerritoryId>, t: TerritoryId)
    ensures visited + (seen + {t}) == (visited + seen) + {t}
    ensures s + (seen + {t} - visited) == s + (seen - visited) + if t in visited + seen then {} else {t}
  {
  }

  method VisitOne(t: TerritoryId, d: nat, visited: set<TerritoryId>, queue: seq<Item>, ghost s: set<TerritoryId>)
    returns (visited': set<TerritoryId>, queue': seq<Item>)
    requires IsLevel(queue, d, s)
    ensures visited' == visited + {t} && IsLevel(queue', d, s + if t in visited then {} else {t})
  {
    visited', queue' := visited, queue;
    if t in visited {
      assert s + {} == s && visited + {t} == visited;
    } else {
      LevelAppended(queue, d, s, t);
      visited' := visited + {t};
      queue' := queue + [Item(t, d)];
    }
  }

  function AllNeighbors(g: Map, level: seq<Item>): set<TerritoryId>
  {
    if level == [] then {} else AllNeighbors(g, level[..|level| - 1]) + NeighborsOf(g, level[|level| - 1].territory)
  }

  lemma {:induction false} AllNeighborsAre(g: Map, level: seq<Item>)
    ensures AllNeighbors(g, level) == set t, u | t in TerritoriesOf(level) && u in NeighborsOf(g, t) :: u
  {
    if level != [] {
      var last := |level| - 1;
      AllNeighborsAre(g, level[..last]);
      assert level == level[..last] + [level[last]];
      assert TerritoriesOf(level) == TerritoriesOf(level[..last]) + {level[last].territory} by {
        forall x | x in TerritoriesOf(level) ensures x in TerritoriesOf(level[..last]) + {level[last].territory} {
          var i :| 0 <= i < |level| && level[i].territory == x;
          if i < last { assert level[..last][i].territory == x; }
        }
        forall x | x in TerritoriesOf(level[..last]) ensures x in TerritoriesOf(level) {
          var i :| 0 <= i < last && level[..last][i].territory == x;
          assert level[i].territory == x;
        }
      }
    }
  }

  /** The next level: the neighbours of this one not seen before. */
  method NextLevel(g: Map, level: seq<Item>, d: nat, visited: set<TerritoryId>) returns (visited': set<TerritoryId>, queue: seq<Item>)
    ensures visited' == visited + AllNeighbors(g, level) && IsLevel(queue, d, AllNeighbors(g, level) - visited)
  {
    visited', queue := visited, [];
    var i := 0;
    while i < |level|
      invariant i <= |level| && visited' == visited + AllNeighbors(g, level[..i])
      invariant IsLevel(queue, d, AllNeighbors(g, level[..i]) - visited)
    {
      assert level[..i + 1][..i] == level[..i];
      ghost var s := AllNeighbors(g, level[..i]) - visited;
      ghost var before := visited';
      visited', queue := Visit(g, level[i].territory, d, visited', queue, s);
      assert s + (NeighborsOf(g, level[i].territory) - before) == AllNeighbors(g, level[..i + 1]) - visited;
      i := i + 1;
    }
    assert level[..i] == level;
  }

  /** The territories nearer than n steps. */
  function Inside(g: Map, start: TerritoryId, n: nat): set<TerritoryId>
  {
    if n == 0 then {} else Ball(g, start, n - 1)
  }

  lemma NextBall(g: Map, start: TerritoryId, d: nat, level: seq<Item>)
    requires TerritoriesOf(level) == Ball(g, start, d) - Inside(g, start, d)
    ensures Ball(g, start, d) + AllNeighbors(g, level) == Ball(g, start, d + 1)
  {
    AllNeighborsAre(g, level);
    if d > 0 { BallGrows(g, start, d - 1, d); }
    forall u | u in Ball(g, start, d + 1) ensures u in Ball(g, start, d) + AllNeighbors(g, level) {
      if u !in Ball(g, start, d) {
        var t :| t in Ball(g, start, d) && u in NeighborsOf(g, t);
        InnerNeighbors(g, start, d, t, u);
        assert t in TerritoriesOf(level);
      }
    }
  }

  /** Neighbours of nearer territories are no further than d. */
  lemma InnerNeighbors(g: Map, start: TerritoryId, d: nat, t: TerritoryId, u: TerritoryId)
    requires u in NeighborsOf(g, t)
    ensures t in Inside(g, start, d) ==> u in Ball(g, start, d)
  {
  }

  function Everywhere(g: Map, start: TerritoryId): set<TerritoryId>
  {
    {start} + set t, u | t in g && u in g[t] :: u
  }

  lemma {:induction false} BallEverywhere(g: Map, start: TerritoryId, n: nat)
    ensures Ball(g, start, n) <= Everywhere(g, start)
  {
    if n > 0 { BallEverywhere(g, start, n - 1); }
  }

  /** No territory nearer than n steps matches. */
  ghost predicate NoneInside(g: Map, start: TerritoryId, n: nat, matches: TerritoryId -> bool)
  {
    forall t :: t in Inside(g, start, n) ==> !matches(t)
  }

  /** The nearest matching territory, the first by name among those as near; none if none can be reached. */
  method Closest(g: Map, start: TerritoryId, matches: TerritoryId -> bool) returns (r: Option<TerritoryId>)
    ensures r.None? <==> forall t :: Reachable(g, start, t) ==> !matches(t)
    ensures r.Some? ==> matches(r.value) && exists n: nat ::
              IsAtDistance(g, start, r.value, n) && NoneInside(g, start, n, matches)
              && forall t :: t in Ball(g, start, n) && matches(t) ==> r.value <= t
  {
    var queue := [Item(start, 0)];
    var visited := {start};
    ghost var d := 0;
    assert TerritoriesOf(queue) == {start} by { assert queue[0].territory == start; }
    while queue != []
      invariant visited == Ball(g, start, d) && IsLevel(queue, d, Ball(g, start, d) - Inside(g, start, d))
      invariant NoneInside(g, start, d, matches)
      decreases Everywhere(g, start) - Inside(g, start, d)
    {
      var distance := queue[0].distance;
      var level := queue;
      ghost var fresh' := Ball(g, start, d) - Inside(g, start, d);
      assert queue[0].territory in TerritoriesOf(queue);
      BallEverywhere(g, start, d);
      var candidates := MatchingIn(level, matches);
      if candidates != {} {
        FoundAt(g, start, d, matches, candidates);
        return Some(Least(candidates));
      }
      NextBall(g, start, d, level);
      visited, queue := NextLevel(g, level, distance + 1, visited);
      NothingMissed(g, start, d, matches, candidates);
      assert Ball(g, start, d + 1) - Inside(g, start, d + 1) == AllNeighbors(g, level) - Ball(g, start, d);
      d := d + 1;
    }
    NothingLeft(g, start, d, matches);
    return None;
  }

  lemma FoundAt(g: Map, start: TerritoryId, d: nat, matches: TerritoryId -> bool, candidates: set<TerritoryId>)
    requires candidates == (set t | t in Ball(g, start, d) - Inside(g, start, d) && matches(t)) && candidates != {}
    requires NoneInside(g, start, d, matches)
    ensures matches(Least(candidates)) && IsAtDistance(g, start, Least(candidates), d) && Reachable(g, start, Least(candidates))
    ensures forall t :: t in Ball(g, start, d) && matches(t) ==> Least(candidates) <= t
  {
    var first := Least(candidates);
    assert first in candidates;
    forall t | t in Ball(g, start, d) && matches(t) ensures first <= t {
      assert t !in Inside(g, start, d);
      assert t in candidates;
    }
  }

  lemma NothingMissed(g: Map, start: TerritoryId, d: nat, matches: TerritoryId -> bool, candidates: set<TerritoryId>)
    requires candidates == (set t | t in Ball(g, start, d) - Inside(g, start, d) && matches(t)) && candidates == {}
    requires NoneInside(g, start, d, matches)
    ensures NoneInside(g, start, d + 1, matches)
  {
    forall t | t in Ball(g, start, d) ensures !matches(t) {
      assert t !in Inside(g, start, d) && matches(t) ==> t in candidates;
    }
  }

  /** Where a step adds nothing, the search has seen every territory it can reach. */
  lemma SeenAll(g: Map, start: TerritoryId, d: nat, t: TerritoryId)
    requires d > 0 && Ball(g, start, d) == Ball(g, start, d - 1) && Reachable(g, start, t)
    ensures t in Ball(g, start, d - 1)
  {
    var n: nat :| t in Ball(g, start, n);
    if n >= d - 1 { BallStays(g, start, d - 1, n); } else { BallGrows(g, start, n, d - 1); }
  }

  lemma EmptyLevel(g: Map, start: TerritoryId, d: nat)
    requires Ball(g, start, d) - Inside(g, start, d) == {}
    ensures d > 0 && Ball(g, start, d) == Ball(g, start, d - 1)
  {
    assert d == 0 ==> start in Ball(g, start, d) - Inside(g, start, d);
    if d > 0 { BallGrows(g, start, d - 1, d); }
  }

  lemma NothingLeft(g: Map, start: TerritoryId, d: nat, matches: TerritoryId -> bool)
    requires Ball(g, start, d) - Inside(g, start, d) == {} && NoneInside(g, start, d, matches)
    ensures forall t :: Reachable(g, start, t) ==> !matches(t)
  {
    EmptyLevel(g, start, d);
    forall t | Reachable(g, start, t) ensures !matches(t) {
      SeenAll(g, start, d, t);
      assert t in Inside(g, start, d);
    }
  }
}
