/**
 Strongly connected components by Tarjan's algorithm, on any finite graph.
 Components come out after every component they depend on.
 */
module Tarjan {

  /** Each node lists its dependencies, all of which are nodes. */
  ghost predicate IsGraph<D>(graph: map<D, seq<D>>)
  {
    forall x, y :: x in graph && y in graph[x] ==> y in graph
  }

  /** No dependency leaves s. */
  ghost predicate Sealed<D>(graph: map<D, seq<D>>, s: set<D>)
  {
    s <= graph.Keys && forall x, y :: x in s && y in graph[x] ==> y in s
  }

  /** x depends on y, directly or not: every sealed set that has x has y. */
  ghost predicate Reaches<D(!new)>(graph: map<D, seq<D>>, x: D, y: D)
  {
    forall s: set<D> :: Sealed(graph, s) && x in s ==> y in s
  }

  /** A chain of dependencies. */
  ghost predicate IsPath<D>(graph: map<D, seq<D>>, p: seq<D>)
  {
    p != [] && (forall i :: 0 <= i < |p| ==> p[i] in graph) && forall i :: 0 <= i < |p| - 1 ==> p[i + 1] in graph[p[i]]
  }

  ghost predicate Leads<D>(graph: map<D, seq<D>>, p: seq<D>, x: D, y: D)
  {
    IsPath(graph, p) && p[0] == x && p[|p| - 1] == y
  }

  lemma {:induction false} PathStaysSealed<D(!new)>(graph: map<D, seq<D>>, p: seq<D>, s: set<D>, i: nat)
    requires IsPath(graph, p) && Sealed(graph, s) && p[0] in s && i < |p|
    ensures p[i] in s
  {
    if i > 0 {
      PathStaysSealed(graph, p, s, i - 1);
      assert p[i - 1 + 1] in graph[p[i - 1]];
    }
  }

  lemma PathsSealed<D(!new)>(graph: map<D, seq<D>>, x: D, s: set<D>)
    requires IsGraph(graph) && s == set y | y in graph && exists p :: Leads(graph, p, x, y)
    ensures Sealed(graph, s)
  {
    forall y, z | y in s && z in graph[y] ensures z in s {
      var p :| Leads(graph, p, x, y);
      var q := p + [z];
      assert forall i :: 0 <= i < |q| - 1 ==> q[i + 1] in graph[q[i]];
      assert Leads(graph, q, x, z);
    }
  }

  /** Reaching is having a chain of dependencies. */
  lemma ReachesByPath<D(!new)>(graph: map<D, seq<D>>, x: D, y: D)
    requires IsGraph(graph) && x in graph
    ensures Reaches(graph, x, y) <==> exists p :: Leads(graph, p, x, y)
  {
    if p :| Leads(graph, p, x, y) {
      forall s: set<D> | Sealed(graph, s) && x in s ensures y in s {
        PathStaysSealed(graph, p, s, |p| - 1);
      }
    }
    if Reaches(graph, x, y) {
      var s := set z | z in graph && exists p :: Leads(graph, p, x, z);
      assert Leads(graph, [x], x, x);
      PathsSealed(graph, x, s);
    }
  }

  /** The pairs (x, y) where x reaches y. */
  ghost function Reach<D(!new)>(graph: map<D, seq<D>>): set<(D, D)>
  {
    set x, y | x in graph && y in graph && Reaches(graph, x, y) :: (x, y)
  }

  ghost predicate Transitive<D(!new)>(r: set<(D, D)>)
  {
    forall x, y, z :: (x, y) in r && (y, z) in r ==> (x, z) in r
  }

  ghost predicate ReachLaws<D(!new)>(graph: map<D, seq<D>>, r: set<(D, D)>)
  {
    && (forall x :: x in graph ==> (x, x) in r)
    && (forall x, y :: x in graph && y in graph[x] ==> (x, y) in r)
    && Transitive(r)
  }

  lemma ReachHasLaws<D(!new)>(graph: map<D, seq<D>>)
    requires IsGraph(graph)
    ensures ReachLaws(graph, Reach(graph))
  {
  }

  ghost predicate Distinct<D>(q: seq<D>)
  {
    forall i, j :: 0 <= i < j < |q| ==> q[i] != q[j]
  }

  /** The nodes of the listed components. */
  ghost function Listed<D>(found: seq<seq<D>>): set<D>
  {
    set i, x | 0 <= i < |found| && x in found[i] :: x
  }

  /** Each component is listed once, after everything it depends on. */
  ghost predicate InOrder<D>(graph: map<D, seq<D>>, found: seq<seq<D>>)
  {
    && (forall i :: 0 <= i < |found| ==> found[i] != [] && Distinct(found[i]))
    && (forall i, j, x :: 0 <= i < j < |found| && x in found[i] ==> x !in found[j])
    && (forall i :: 0 <= i <= |found| ==> Sealed(graph, Listed(found[..i])))
  }

  /** Members of a component depend on one another, and on no one else who depends on them. */
  ghost predicate AreComponents<D(!new)>(graph: map<D, seq<D>>, found: seq<seq<D>>)
  {
    forall i, x, y :: 0 <= i < |found| && x in found[i] && y in graph ==>
      (y in found[i] <==> Reaches(graph, x, y) && Reaches(graph, y, x))
  }

  lemma ListedAppend<D>(found: seq<seq<D>>, last: seq<D>)
    ensures Listed(found + [last]) == Listed(found) + (set x | x in last)
  {
    forall x | x in Listed(found) + (set x | x in last) ensures x in Listed(found + [last]) {
      if x in Listed(found) {
        var i :| 0 <= i < |found| && x in found[i];
        assert (found + [last])[i] == found[i];
      } else {
        assert (found + [last])[|found|] == last;
      }
    }
  }

  /** What the search has recorded so far; `open` are the nodes being visited. */
  datatype Marks<D> = Marks(index: map<D, nat>, visited: nat, stack: seq<D>, components: seq<seq<D>>, open: set<D>)

  function Number<D(==)>(m: Marks<D>, x: D): nat
  {
    if x in m.index then m.index[x] else 0
  }

  ghost function OnStack<D>(m: Marks<D>): set<D>
  {
    set x | x in m.stack
  }

  ghost predicate Numbered<D>(graph: map<D, seq<D>>, m: Marks<D>)
  {
    && m.index.Keys <= graph.Keys
    && (forall x :: x in m.index ==> m.index[x] < m.visited)
    && (forall x, y :: x in m.index && y in m.index && m.index[x] == m.index[y] ==> x == y)
  }

  /** The stack holds the visited nodes not yet listed, in the order of their visit. */
  ghost predicate Stacked<D>(m: Marks<D>)
  {
    && (forall i, j :: 0 <= i < j < |m.stack| ==> Number(m, m.stack[i]) < Number(m, m.stack[j]))
    && m.index.Keys == OnStack(m) + Listed(m.components)
    && OnStack(m) !! Listed(m.components)
    && m.open <= OnStack(m)
  }

  /** A node already left has only visited dependencies. */
  ghost predicate Explored<D>(graph: map<D, seq<D>>, m: Marks<D>)
  {
    forall x, y :: x in m.index && x !in m.open && x in graph && y in graph[x] ==> y in m.index
  }

  ghost predicate BacksTo<D>(r: set<(D, D)>, m: Marks<D>, y: D, x: D)
  {
    x in m.open && Number(m, x) <= Number(m, y) && (y, x) in r
  }

  ghost predicate LeadsBack<D(!new)>(r: set<(D, D)>, m: Marks<D>, y: D)
  {
    exists x :: BacksTo(r, m, y, x)
  }

  /** Stacked nodes lead back to an open node. */
  ghost predicate LinkedBack<D(!new)>(r: set<(D, D)>, m: Marks<D>)
  {
    forall y {:trigger LeadsBack(r, m, y)} :: y in m.stack ==> LeadsBack(r, m, y)
  }

  lemma OldestLeadsBack<D(!new)>(r: set<(D, D)>, m: Marks<D>)
    requires LinkedBack(r, m)
    ensures m.stack != [] ==> LeadsBack(r, m, m.stack[0])
  {
    assert m.stack != [] ==> m.stack[0] in m.stack;
  }

  /** Open nodes lead to what was stacked later. */
  ghost predicate LinkedDown<D(!new)>(r: set<(D, D)>, m: Marks<D>)
  {
    forall x, y :: x in m.open && y in m.stack && Number(m, x) <= Number(m, y) ==> (x, y) in r
  }

  /** What a visit keeps true. */
  ghost predicate Valid<D(!new)>(graph: map<D, seq<D>>, r: set<(D, D)>, m: Marks<D>)
  {
    && Numbered(graph, m) && Stacked(m) && Explored(graph, m) && LinkedBack(r, m) && LinkedDown(r, m)
    && InOrder(graph, m.components) && AreComponents(graph, m.components)
  }

  /** Starting to visit d. */
  function Opened<D>(m: Marks<D>, d: D): Marks<D>
  {
    Marks(m.index[d := m.visited], m.visited + 1, m.stack + [d], m.components, m.open + {d})
  }

  lemma OpenedNumbers<D>(graph: map<D, seq<D>>, m: Marks<D>, d: D)
    requires Numbered(graph, m) && Stacked(m) && d in graph && d !in m.index
    ensures var n := Opened(m, d);
            && Numbered(graph, n) && Stacked(n) && OnStack(n) == OnStack(m) + {d} && Number(n, d) == m.visited
            && forall x :: x in m.index ==> Number(n, x) == Number(m, x) < Number(n, d)
  {
    var n := Opened(m, d);
    assert n.index.Keys == m.index.Keys + {d};
    assert OnStack(n) == OnStack(m) + {d};
    forall i | 0 <= i < |m.stack| ensures m.stack[i] in m.index {
      assert m.stack[i] in OnStack(m);
    }
  }

  lemma OpenedLinks<D(!new)>(graph: map<D, seq<D>>, r: set<(D, D)>, m: Marks<D>, d: D)
    requires Numbered(graph, m) && Stacked(m) && LinkedBack(r, m) && LinkedDown(r, m) && d in graph && d !in m.index
    requires (d, d) in r && forall x :: x in m.open ==> (x, d) in r
    ensures LinkedBack(r, Opened(m, d)) && LinkedDown(r, Opened(m, d))
  {
    var n := Opened(m, d);
    OpenedNumbers(graph, m, d);
    forall y | y in n.stack ensures LeadsBack(r, n, y) {
      if y == d {
        assert BacksTo(r, n, d, d);
      } else {
        assert y in OnStack(m) && LeadsBack(r, m, y);
        var x :| BacksTo(r, m, y, x);
        assert x in OnStack(m);
        assert BacksTo(r, n, y, x);
      }
    }
    forall x, y | x in n.open && y in n.stack && Number(n, x) <= Number(n, y) ensures (x, y) in r {
      if x != d { assert x in OnStack(m); }
      if y != d { assert y in OnStack(m); }
    }
  }

  lemma OpenedValid<D(!new)>(graph: map<D, seq<D>>, r: set<(D, D)>, m: Marks<D>, d: D)
    requires Valid(graph, r, m) && d in graph && d !in m.index
    requires (d, d) in r && forall x :: x in m.open ==> (x, d) in r
    ensures Valid(graph, r, Opened(m, d))
  {
    OpenedNumbers(graph, m, d);
    OpenedLinks(graph, r, m, d);
  }

  /** m2 extends m1: what m1 recorded is kept, what is new was visited later. */
  ghost predicate Extends<D(!new)>(m1: Marks<D>, m2: Marks<D>)
  {
    && m1.index.Keys <= m2.index.Keys && (forall x :: x in m1.index ==> m2.index[x] == m1.index[x])
    && (forall x :: x in m2.index && x !in m1.index ==> m2.index[x] >= m1.visited)
    && m1.visited <= m2.visited && m1.stack <= m2.stack
  }

  /** Dependencies of what was stacked from position k on, on older stacked nodes, are no older than low. */
  ghost predicate LowBounds<D(!new)>(graph: map<D, seq<D>>, m: Marks<D>, k: nat, low: int)
  {
    forall x, y :: k <= |m.stack| && x in m.stack[k..] && x in graph && y in graph[x] && y in m.stack[..k] ==> low <= Number(m, y)
  }

  /** d leads to the stacked node numbered low. */
  ghost predicate LowReached<D(!new)>(r: set<(D, D)>, m: Marks<D>, d: D, low: int)
  {
    exists y :: y in m.stack && Number(m, y) == low && (d, y) in r
  }

  lemma KeptLinks<D(!new)>(graph: map<D, seq<D>>, r: set<(D, D)>, m: Marks<D>, d: D, low: int)
    requires LinkedBack(r, m) && Transitive(r) && d in m.open
    requires LowReached(r, m, d, low) && low < Number(m, d)
    ensures LinkedBack(r, m.(open := m.open - {d}))
  {
    var n := m.(open := m.open - {d});
    var z :| z in m.stack && Number(m, z) == low && (d, z) in r;
    assert LeadsBack(r, m, z);
    var root :| BacksTo(r, m, z, root);
    forall y | y in n.stack ensures LeadsBack(r, n, y) {
      assert LeadsBack(r, m, y);
      var x :| BacksTo(r, m, y, x);
      if x == d {
        assert (y, z) in r;
        assert BacksTo(r, n, y, root);
      } else {
        assert BacksTo(r, n, y, x);
      }
    }
  }

  /** The visit of d ends on a number below its own: d stays on the stack. */
  lemma KeptValid<D(!new)>(graph: map<D, seq<D>>, r: set<(D, D)>, m: Marks<D>, d: D, low: int)
    requires Valid(graph, r, m) && Transitive(r) && d in m.open && d in graph
    requires forall y :: y in graph[d] ==> y in m.index
    requires LowReached(r, m, d, low) && low < Number(m, d)
    ensures Valid(graph, r, m.(open := m.open - {d}))
  {
    KeptLinks(graph, r, m, d, low);
  }

  function Min(a: int, b: int): int
  {
    if a <= b then a else b
  }

  function Members<D>(q: seq<D>): set<D>
  {
    set x | x in q
  }

  lemma MembersConcat<D>(a: seq<D>, b: seq<D>)
    ensures Members(a + b) == Members(a) + Members(b)
  {
    forall x | x in Members(a) + Members(b) ensures x in a + b {
      if x in a {
        var i :| 0 <= i < |a| && a[i] == x;
        assert (a + b)[i] == x;
      } else {
        var i :| 0 <= i < |b| && b[i] == x;
        assert (a + b)[|a| + i] == x;
      }
    }
  }

  /** Listing what was stacked from position k on as one component. */
  function Popped<D>(m: Marks<D>, k: nat, component: seq<D>, d: D): Marks<D>
    requires k <= |m.stack|
  {
    m.(stack := m.stack[..k], components := m.components + [component], open := m.open - {d})
  }

  /** d is the oldest of the nodes stacked from position k on, and no dependency leads below them. */
  ghost predicate IsRoot<D(!new)>(graph: map<D, seq<D>>, m: Marks<D>, k: nat, d: D)
  {
    && k < |m.stack| && m.stack[k] == d && d in m.open && d in graph
    && m.open - {d} <= Members(m.stack[..k])
    && (forall y :: y in graph[d] ==> y in m.index)
    && LowBounds(graph, m, k, Number(m, d))
  }

  lemma SplitStack<D>(q: seq<D>, k: nat)
    requires k <= |q|
    ensures Members(q) == Members(q[..k]) + Members(q[k..])
  {
    forall x | x in q ensures x in q[..k] || x in q[k..] {
      var i :| 0 <= i < |q| && q[i] == x;
      if i < k { assert q[..k][i] == x; } else { assert q[k..][i - k] == x; }
    }
  }

  lemma OlderBelow<D>(m: Marks<D>, k: nat, x: D, y: D)
    requires Stacked(m) && k <= |m.stack| && x in m.stack[..k] && y in m.stack[k..]
    ensures Number(m, x) < Number(m, y)
  {
    var i :| 0 <= i < k && m.stack[..k][i] == x;
    var j :| 0 <= j < |m.stack| - k && m.stack[k..][j] == y;
    assert m.stack[i] == x && m.stack[k + j] == y;
  }

  lemma PoppedStack<D>(graph: map<D, seq<D>>, m: Marks<D>, k: nat, component: seq<D>, d: D)
    requires Stacked(m) && k <= |m.stack| && Members(component) == Members(m.stack[k..])
    requires m.open - {d} <= Members(m.stack[..k])
    ensures Stacked(Popped(m, k, component, d))
  {
    var n := Popped(m, k, component, d);
    SplitStack(m.stack, k);
    ListedAppend(m.components, component);
    assert OnStack(m) == Members(m.stack) && OnStack(n) == Members(m.stack[..k]);
    assert Listed(n.components) == Listed(m.components) + Members(component);
    forall x | x in m.stack[..k] && x in m.stack[k..] ensures false {
      OlderBelow(m, k, x, x);
    }
  }

  lemma PoppedLinks<D(!new)>(r: set<(D, D)>, m: Marks<D>, k: nat, component: seq<D>, d: D)
    requires Stacked(m) && LinkedBack(r, m) && LinkedDown(r, m) && k < |m.stack| && m.stack[k] == d
    ensures LinkedBack(r, Popped(m, k, component, d)) && LinkedDown(r, Popped(m, k, component, d))
  {
    var n := Popped(m, k, component, d);
    assert d in m.stack[k..] by { assert m.stack[k..][0] == d; }
    forall y | y in n.stack ensures LeadsBack(r, n, y) {
      OlderBelow(m, k, y, d);
      assert LeadsBack(r, m, y);
      var x :| BacksTo(r, m, y, x);
      assert BacksTo(r, n, y, x);
    }
  }

  /** Dependencies of the component lie in it or in components already listed. */
  lemma ComponentSealed<D(!new)>(graph: map<D, seq<D>>, r: set<(D, D)>, m: Marks<D>, k: nat, d: D)
    requires IsGraph(graph) && Valid(graph, r, m) && IsRoot(graph, m, k, d)
    ensures Sealed(graph, Listed(m.components) + Members(m.stack[k..]))
  {
    SplitStack(m.stack, k);
    assert Listed(m.components[..|m.components|]) == Listed(m.components) by {
      assert m.components[..|m.components|] == m.components;
    }
    forall x, y | x in m.stack[k..] && y in graph[x] ensures y in Listed(m.components) + Members(m.stack[k..]) {
      assert x in OnStack(m);
      if x != d && x in m.open {
        OlderBelow(m, k, x, x);
      }
      assert y in m.index;
      if y in m.stack[..k] {
        OlderBelow(m, k, y, d);
      }
    }
  }

  lemma ComponentConnected<D(!new)>(graph: map<D, seq<D>>, r: set<(D, D)>, m: Marks<D>, k: nat, d: D, x: D)
    requires Stacked(m) && LinkedBack(r, m) && LinkedDown(r, m) && Transitive(r)
    requires k < |m.stack| && m.stack[k] == d && d in m.open && x in m.stack[k..]
    requires forall o :: o in m.open ==> (o, d) in r
    ensures (d, x) in r && (x, d) in r
  {
    var i :| 0 <= i < |m.stack| - k && m.stack[k..][i] == x;
    assert m.stack[k + i] == x;
    assert Number(m, d) <= Number(m, x);
    assert LeadsBack(r, m, x);
    var o :| BacksTo(r, m, x, o);
    assert (o, d) in r;
  }

  lemma PoppedComponents<D(!new)>(graph: map<D, seq<D>>, m: Marks<D>, component: seq<D>)
    requires IsGraph(graph) && InOrder(graph, m.components) && AreComponents(graph, m.components)
    requires component != [] && Distinct(component)
    requires Members(component) !! Listed(m.components) && Members(component) <= graph.Keys
    requires Sealed(graph, Listed(m.components) + Members(component))
    requires forall x, y :: x in component && y in component ==> Reaches(graph, x, y)
    ensures InOrder(graph, m.components + [component]) && AreComponents(graph, m.components + [component])
  {
    var found := m.components + [component];
    ListedAppend(m.components, component);
    forall i | 0 <= i <= |found| ensures Sealed(graph, Listed(found[..i])) {
      if i < |found| {
        assert found[..i] == m.components[..i];
      } else {
        assert found[..i] == found;
      }
    }
    assert Listed(m.components[..|m.components|]) == Listed(m.components) by {
      assert m.components[..|m.components|] == m.components;
    }
    forall i, j, x | 0 <= i < j < |found| && x in found[i] ensures x !in found[j] {
      if j == |m.components| { assert x in Listed(m.components); }
    }
    forall i, x, y | 0 <= i < |found| && x in found[i] && y in graph
      ensures y in found[i] <==> Reaches(graph, x, y) && Reaches(graph, y, x)
    {
      if i < |m.components| {
        assert found[i] == m.components[i];
      } else if Reaches(graph, x, y) && Reaches(graph, y, x) {
        assert y in Listed(m.components) + Members(component);
      }
    }
  }

  /** The first i dependencies of d, open at position k of the stack, are taken into account. */
  ghost predicate InProgress<D(!new)>(graph: map<D, seq<D>>, r: set<(D, D)>, m: Marks<D>, k: nat, d: D, i: nat, low: int)
  {
    && d in graph && i <= |graph[d]|
    && k < |m.stack| && m.stack[k] == d && d in m.open && d in m.index
    && m.open - {d} <= Members(m.stack[..k])
    && (forall y :: y in graph[d][..i] ==> y in m.index)
    && low <= Number(m, d) && LowReached(r, m, d, low)
    && (forall y :: y in graph[d][..i] && y in m.stack[..k] ==> low <= Number(m, y))
    && LaterBounds(graph, m, k, low)
  }

  ghost predicate LaterBounds<D(!new)>(graph: map<D, seq<D>>, m: Marks<D>, k: nat, low: int)
  {
    forall x, y :: k < |m.stack| && x in m.stack[k + 1..] && x in graph && y in graph[x] && y in m.stack[..k] ==> low <= Number(m, y)
  }

  lemma ProgressStart<D(!new)>(graph: map<D, seq<D>>, r: set<(D, D)>, m: Marks<D>, d: D)
    requires Numbered(graph, m) && Stacked(m) && d in graph && d !in m.index && (d, d) in r
    ensures InProgress(graph, r, Opened(m, d), |m.stack|, d, 0, m.visited)
  {
    var n := Opened(m, d);
    OpenedNumbers(graph, m, d);
    assert n.stack[|m.stack|] == d;
    assert n.stack[..|m.stack|] == m.stack;
    assert n.stack[|m.stack| + 1..] == [];
    assert d in n.stack && Number(n, d) == m.visited;
    assert OnStack(m) == Members(m.stack);
  }

  lemma TakeOneMore<D>(q: seq<D>, i: nat)
    requires i < |q|
    ensures Members(q[..i + 1]) == Members(q[..i]) + {q[i]}
  {
    assert q[..i + 1] == q[..i] + [q[i]];
  }

  /** The next dependency was already visited. */
  lemma ProgressKnown<D(!new)>(graph: map<D, seq<D>>, r: set<(D, D)>, m: Marks<D>, k: nat, d: D, i: nat, low: int)
    requires InProgress(graph, r, m, k, d, i, low) && i < |graph[d]|
    requires Stacked(m) && (d, graph[d][i]) in r && graph[d][i] in m.index
    ensures var y := graph[d][i];
            InProgress(graph, r, m, k, d, i + 1, if y in m.stack then Min(low, m.index[y]) else low)
  {
    var y := graph[d][i];
    TakeOneMore(graph[d], i);
    forall x | x in graph[d][..i + 1] ensures x in graph[d][..i] || x == y {
      assert x in Members(graph[d][..i + 1]);
    }
    if y in m.stack && m.index[y] < low {
      assert LowReached(r, m, d, m.index[y]);
    }
    assert y in m.stack[..k] ==> y in m.stack;
  }

  /** The visit of the next dependency left what it found on the stack, or listed it. */
  ghost predicate Returned<D(!new)>(graph: map<D, seq<D>>, r: set<(D, D)>, m: Marks<D>, n: Marks<D>, y: D, low: int)
  {
    && Extends(m, n) && n.open == m.open && y in n.index
    && if n.stack == m.stack then low == n.index[y]
       else low < n.index[y] && LowReached(r, m, y, low) && LowBounds(graph, n, |m.stack|, low)
  }

  lemma ExtendedStack<D(!new)>(m: Marks<D>, n: Marks<D>, k: nat)
    requires Extends(m, n) && Stacked(m) && k < |m.stack|
    ensures n.stack[..k] == m.stack[..k] && n.stack[k] == m.stack[k]
    ensures forall x :: x in n.stack[k + 1..] ==> x in m.stack[k + 1..] || x in n.stack[|m.stack|..]
    ensures forall x :: x in m.stack ==> x in n.stack && x in m.index && Number(n, x) == Number(m, x)
    ensures forall x :: x in m.stack[..k] ==> x in m.stack
    ensures n.stack[..|m.stack|] == m.stack
  {
    forall x | x in m.stack ensures x in n.stack && x in m.index && Number(n, x) == Number(m, x) {
      assert x in OnStack(m);
    }
    forall x | x in n.stack[k + 1..] ensures x in m.stack[k + 1..] || x in n.stack[|m.stack|..] {
      var j :| 0 <= j < |n.stack| - k - 1 && n.stack[k + 1..][j] == x;
      if k + 1 + j < |m.stack| {
        assert m.stack[k + 1..][j] == x;
      } else {
        assert n.stack[|m.stack|..][k + 1 + j - |m.stack|] == x;
      }
    }
  }

  lemma ProgressBounds<D(!new)>(graph: map<D, seq<D>>, m: Marks<D>, n: Marks<D>, k: nat, low: int, low': int)
    requires Extends(m, n) && Stacked(m) && k < |m.stack| && LaterBounds(graph, m, k, low)
    requires n.stack == m.stack || LowBounds(graph, n, |m.stack|, low')
    ensures LaterBounds(graph, n, k, Min(low, low'))
  {
    ExtendedStack(m, n, k);
    forall x, y | x in n.stack[k + 1..] && x in graph && y in graph[x] && y in n.stack[..k]
      ensures Min(low, low') <= Number(n, y)
    {
      assert y in m.stack;
      if x in m.stack[k + 1..] {
        assert low <= Number(m, y);
      } else {
        assert n.stack != m.stack;
        assert y in n.stack[..|m.stack|];
      }
    }
  }

  lemma ProgressReached<D(!new)>(graph: map<D, seq<D>>, r: set<(D, D)>, m: Marks<D>, n: Marks<D>, d: D, y: D, low: int, low': int)
    requires Stacked(m) && Transitive(r) && (d, y) in r && d in m.stack && LowReached(r, m, d, low) && Returned(graph, r, m, n, y, low')
    requires low <= Number(m, d) && y !in m.index && d in m.index && Number(m, d) < m.visited
    ensures LowReached(r, n, d, Min(low, low')) && Min(low, low') <= Number(n, d)
  {
    var z :| z in m.stack && Number(m, z) == low && (d, z) in r;
    assert z in OnStack(m) && d in OnStack(m);
    assert z in n.stack && Number(n, z) == low;
    if low' < low {
      assert n.stack != m.stack by { assert n.index[y] >= m.visited; }
      var u :| u in m.stack && Number(m, u) == low' && (y, u) in r;
      assert u in OnStack(m);
      assert u in n.stack && Number(n, u) == low' && (d, u) in r;
    }
  }

  lemma ProgressReturned<D(!new)>(graph: map<D, seq<D>>, r: set<(D, D)>, m: Marks<D>, n: Marks<D>, k: nat, d: D, i: nat, low: int, low': int)
    requires InProgress(graph, r, m, k, d, i, low) && i < |graph[d]| && Numbered(graph, m) && Stacked(m) && Transitive(r)
    requires graph[d][i] !in m.index && (d, graph[d][i]) in r && Returned(graph, r, m, n, graph[d][i], low')
    ensures InProgress(graph, r, n, k, d, i + 1, Min(low, low'))
  {
    var y := graph[d][i];
    assert d in m.stack;
    ExtendedStack(m, n, k);
    TakeOneMore(graph[d], i);
    ProgressReached(graph, r, m, n, d, y, low, low');
    ProgressBounds(graph, m, n, k, low, low');
    forall x | x in graph[d][..i + 1]
      ensures x in n.index && (x in n.stack[..k] ==> Min(low, low') <= Number(n, x))
    {
      assert x in Members(graph[d][..i + 1]);
      if x == y {
        assert x !in OnStack(m);
      } else {
        assert x in graph[d][..i];
      }
    }
  }

  /** d is open, at position |m.stack|, since the search was as m records it; it is now as n records. */
  ghost predicate Visiting<D(!new)>(graph: map<D, seq<D>>, r: set<(D, D)>, m: Marks<D>, n: Marks<D>, d: D, i: nat, low: int)
  {
    && Valid(graph, r, n) && n.open == m.open + {d} && Extends(m, n) && d !in m.index && d !in m.open
    && InProgress(graph, r, n, |m.stack|, d, i, low)
  }

  lemma VisitStarts<D(!new)>(graph: map<D, seq<D>>, r: set<(D, D)>, m: Marks<D>, d: D)
    requires Valid(graph, r, m) && d in graph && d !in m.index && (d, d) in r
    requires forall x :: x in m.open ==> (x, d) in r
    ensures Visiting(graph, r, m, Opened(m, d), d, 0, m.visited)
  {
    OpenedValid(graph, r, m, d);
    ProgressStart(graph, r, m, d);
    assert d !in m.open by { assert m.open <= OnStack(m); }
  }

  lemma ExtendsTrans<D(!new)>(m: Marks<D>, n: Marks<D>, o: Marks<D>)
    requires Extends(m, n) && Extends(n, o)
    ensures Extends(m, o)
  {
  }

  lemma VisitContinues<D(!new)>(graph: map<D, seq<D>>, r: set<(D, D)>, m: Marks<D>, n: Marks<D>, o: Marks<D>, d: D, i: nat, low: int, low': int)
    requires Visiting(graph, r, m, n, d, i, low) && i < |graph[d]| && Transitive(r) && graph[d][i] !in n.index
    requires (d, graph[d][i]) in r && Valid(graph, r, o) && Returned(graph, r, n, o, graph[d][i], low')
    ensures Visiting(graph, r, m, o, d, i + 1, Min(low, low'))
  {
    ProgressReturned(graph, r, n, o, |m.stack|, d, i, low, low');
    ExtendsTrans(m, n, o);
  }

  lemma VisitSkips<D(!new)>(graph: map<D, seq<D>>, r: set<(D, D)>, m: Marks<D>, n: Marks<D>, d: D, i: nat, low: int)
    requires Visiting(graph, r, m, n, d, i, low) && i < |graph[d]| && (d, graph[d][i]) in r && graph[d][i] in n.index
    ensures var y := graph[d][i];
            Visiting(graph, r, m, n, d, i + 1, if y in n.stack then Min(low, n.index[y]) else low)
  {
    ProgressKnown(graph, r, n, |m.stack|, d, i, low);
  }

  /** When d is left on a number below its own, it stays on the stack for an older node. */
  lemma VisitKeeps<D(!new)>(graph: map<D, seq<D>>, r: set<(D, D)>, m: Marks<D>, n: Marks<D>, d: D, low: int)
    requires d in graph && Visiting(graph, r, m, n, d, |graph[d]|, low) && Transitive(r) && low != Number(n, d)
    requires forall x :: x in m.stack ==> x in m.index
    ensures var o := n.(open := n.open - {d});
            Valid(graph, r, o) && Returned(graph, r, m, o, d, low)
  {
    assert graph[d][..|graph[d]|] == graph[d];
    KeptValid(graph, r, n, d, low);
    KeptReturned(graph, r, m, n, d, low);
  }

  lemma BoundsOfVisit<D(!new)>(graph: map<D, seq<D>>, r: set<(D, D)>, n: Marks<D>, k: nat, d: D, low: int)
    requires d in graph && InProgress(graph, r, n, k, d, |graph[d]|, low)
    ensures LowBounds(graph, n, k, low)
  {
    assert graph[d][..|graph[d]|] == graph[d];
    forall x, z | x in n.stack[k..] && x in graph && z in graph[x] && z in n.stack[..k] ensures low <= Number(n, z) {
      if x != d {
        var l :| 0 <= l < |n.stack| - k && n.stack[k..][l] == x;
        assert n.stack[k + 1..][l - 1] == x;
      }
    }
  }

  lemma ReachedBelow<D(!new)>(r: set<(D, D)>, m: Marks<D>, n: Marks<D>, d: D, low: int)
    requires Stacked(n) && Extends(m, n) && |m.stack| < |n.stack| && n.stack[|m.stack|] == d
    requires LowReached(r, n, d, low) && low < Number(n, d)
    requires forall x :: x in m.stack ==> x in m.index
    ensures LowReached(r, m, d, low)
  {
    var y :| y in n.stack && Number(n, y) == low && (d, y) in r;
    var j :| 0 <= j < |n.stack| && n.stack[j] == y;
    assert j < |m.stack|;
    assert y == m.stack[j];
    assert Number(m, y) == low;
  }

  lemma KeptReturned<D(!new)>(graph: map<D, seq<D>>, r: set<(D, D)>, m: Marks<D>, n: Marks<D>, d: D, low: int)
    requires d in graph && Visiting(graph, r, m, n, d, |graph[d]|, low) && low != Number(n, d)
    requires forall x :: x in m.stack ==> x in m.index
    ensures Returned(graph, r, m, n.(open := n.open - {d}), d, low)
  {
    BoundsOfVisit(graph, r, n, |m.stack|, d, low);
    ReachedBelow(r, m, n, d, low);
    var o := n.(open := n.open - {d});
    assert o.open == m.open;
    assert o.stack != m.stack;
  }

  /** When d is left on its own number, what was stacked since makes one component. */
  lemma VisitLists<D(!new)>(graph: map<D, seq<D>>, r: set<(D, D)>, m: Marks<D>, n: Marks<D>, d: D, component: seq<D>)
    requires d in graph && Visiting(graph, r, m, n, d, |graph[d]|, Number(n, d)) && IsGraph(graph)
    requires Transitive(r) && (forall x, y :: (x, y) in r ==> Reaches(graph, x, y))
    requires forall o :: o in n.open ==> (o, d) in r
    requires Distinct(component) && Members(component) == Members(n.stack[|m.stack|..])
    ensures var o := Popped(n, |m.stack|, component, d);
            Valid(graph, r, o) && Returned(graph, r, m, o, d, Number(n, d))
  {
    var k := |m.stack|;
    RootAfterVisit(graph, r, m, n, d);
    assert n.stack[k..][0] == d;
    assert d in component by { assert d in Members(n.stack[k..]); }
    PoppedStack(graph, n, k, component, d);
    PoppedLinks(r, n, k, component, d);
    ComponentSealed(graph, r, n, k, d);
    SplitStack(n.stack, k);
    forall x, y | x in component && y in component ensures Reaches(graph, x, y) {
      assert x in Members(component) && y in Members(component);
      ComponentConnected(graph, r, n, k, d, x);
      ComponentConnected(graph, r, n, k, d, y);
      assert (x, y) in r;
    }
    PoppedComponents(graph, n, component);
    ListedReturned(graph, r, m, n, d, component);
  }

  lemma RootAfterVisit<D(!new)>(graph: map<D, seq<D>>, r: set<(D, D)>, m: Marks<D>, n: Marks<D>, d: D)
    requires d in graph && Visiting(graph, r, m, n, d, |graph[d]|, Number(n, d))
    ensures IsRoot(graph, n, |m.stack|, d)
  {
    assert graph[d][..|graph[d]|] == graph[d];
    BoundsOfVisit(graph, r, n, |m.stack|, d, Number(n, d));
  }

  lemma ListedReturned<D(!new)>(graph: map<D, seq<D>>, r: set<(D, D)>, m: Marks<D>, n: Marks<D>, d: D, component: seq<D>)
    requires d in graph && Visiting(graph, r, m, n, d, |graph[d]|, Number(n, d))
    ensures Returned(graph, r, m, Popped(n, |m.stack|, component, d), d, Number(n, d))
  {
    assert n.stack[..|m.stack|] == m.stack;
  }

  ghost predicate Lawful<D(!new)>(graph: map<D, seq<D>>, r: set<(D, D)>)
  {
    IsGraph(graph) && ReachLaws(graph, r) && forall x, y :: (x, y) in r ==> Reaches(graph, x, y)
  }

  ghost predicate OpenReach<D(!new)>(r: set<(D, D)>, m: Marks<D>, d: D)
  {
    forall x :: x in m.open ==> (x, d) in r
  }

  lemma OpenReachesNext<D(!new)>(graph: map<D, seq<D>>, r: set<(D, D)>, m: Marks<D>, n: Marks<D>, d: D, i: nat)
    requires Lawful(graph, r) && d in graph && i < |graph[d]| && n.open == m.open + {d} && OpenReach(r, m, d)
    ensures OpenReach(r, n, graph[d][i]) && graph[d][i] in graph
  {
    assert (d, graph[d][i]) in r;
  }

  /** The bookkeeping of one run: index, low link, stack, and the components found. */
  class Search<D(==, !new)> {
    const graph: map<D, seq<D>>
    ghost const reach: set<(D, D)>
    var index: map<D, nat>
    var low: map<D, nat>
    var stack: seq<D>
    var onStack: set<D>
    var components: seq<seq<D>>
    ghost var open: set<D>

    // The invariants of the search, folded: Visit is checked on how they follow from one another,
    // and the lemmas below unfold them.
    ghost const sound: Marks<D> -> bool
    ghost const callable: (Marks<D>, D) -> bool
    ghost const visiting: (Marks<D>, Marks<D>, D, nat, int) -> bool
    ghost const visited: (Marks<D>, Marks<D>, D, int) -> bool

    static lemma PopOne(whole: seq<D>, component: seq<D>, top: nat)
      requires Distinct(whole) && top < |whole|
      requires Distinct(component) && Members(component) == Members(whole[top + 1..])
      ensures Distinct(component + [whole[top]]) && Members(component + [whole[top]]) == Members(whole[top..])
      ensures Members(whole[..top]) == Members(whole[..top + 1]) - {whole[top]}
    {
      assert whole[top..] == [whole[top]] + whole[top + 1..];
      assert whole[..top + 1] == whole[..top] + [whole[top]];
      MembersConcat([whole[top]], whole[top + 1..]);
      MembersConcat(whole[..top], [whole[top]]);
      MembersConcat(component, [whole[top]]);
      forall i | 0 <= i < |component| ensures component[i] != whole[top] {
        assert component[i] in Members(component);
        var j :| 0 <= j < |whole| - top - 1 && whole[top + 1..][j] == component[i];
        assert whole[top + 1 + j] == component[i];
      }
      forall i | 0 <= i < top ensures whole[..top][i] != whole[top] {
      }
    }

    ghost predicate UnfoldSound(m: Marks<D>) { true }
    ghost predicate UnfoldCallable(m: Marks<D>, d: D) { true }
    ghost predicate UnfoldVisiting(m: Marks<D>, n: Marks<D>, d: D, i: nat, low: int) { true }
    ghost predicate UnfoldVisited(m: Marks<D>, n: Marks<D>, d: D, low: int) { true }

    ghost predicate Folded()
    {
      && (forall m {:trigger UnfoldSound(m)} :: UnfoldSound(m) ==>
            (sound(m) <==> Lawful(graph, reach) && Valid(graph, reach, m)))
      && (forall m, d {:trigger UnfoldCallable(m, d)} :: UnfoldCallable(m, d) ==>
            (callable(m, d) <==> OpenReach(reach, m, d)))
      && (forall m, n, d, i, low {:trigger UnfoldVisiting(m, n, d, i, low)} :: UnfoldVisiting(m, n, d, i, low) ==>
            (visiting(m, n, d, i, low) <==>
               && Lawful(graph, reach) && Valid(graph, reach, m) && OpenReach(reach, m, d)
               && Visiting(graph, reach, m, n, d, i, low)))
      && (forall m, n, d, low {:trigger UnfoldVisited(m, n, d, low)} :: UnfoldVisited(m, n, d, low) ==>
            (visited(m, n, d, low) <==> Returned(graph, reach, m, n, d, low)))
    }

    constructor (graph: map<D, seq<D>>)
      requires IsGraph(graph)
      ensures this.graph == graph && reach == Reach(graph) && Folded()
      ensures Recorded() == Marks(map[], 0, [], [], {}) && onStack == {} && sound(Recorded())
    {
      this.graph := graph;
      reach := Reach(graph);
      index, low, stack, onStack, components := map[], map[], [], {}, [];
      open := {};
      sound := m => Lawful(graph, Reach(graph)) && Valid(graph, Reach(graph), m);
      callable := (m, d) => OpenReach(Reach(graph), m, d);
      visiting := (m: Marks<D>, n: Marks<D>, d: D, i: nat, low: int) =>
        Lawful(graph, Reach(graph)) && Valid(graph, Reach(graph), m) && OpenReach(Reach(graph), m, d)
        && Visiting(graph, Reach(graph), m, n, d, i, low);
      visited := (m, n, d, low) => Returned(graph, Reach(graph), m, n, d, low);
      new;
      ReachHasLaws(graph);
    }

    ghost function Recorded(): Marks<D>
      reads this
    {
      Marks(index, |index|, stack, components, open)
    }

    lemma Begin(m: Marks<D>, d: D)
      requires Folded() && sound(m) && callable(m, d) && d in graph && d !in m.index
      ensures visiting(m, Opened(m, d), d, 0, m.visited)
    {
      assert UnfoldSound(m) && UnfoldCallable(m, d) && UnfoldVisiting(m, Opened(m, d), d, 0, m.visited);
      VisitStarts(graph, reach, m, d);
    }

    /** While d is visited, its next dependency may be visited. */
    lemma Next(m: Marks<D>, n: Marks<D>, d: D, i: nat, low: int)
      requires Folded() && visiting(m, n, d, i, low) && d in graph && i < |graph[d]|
      ensures sound(n) && callable(n, graph[d][i]) && graph[d][i] in graph
    {
      assert UnfoldVisiting(m, n, d, i, low) && UnfoldSound(n) && UnfoldCallable(n, graph[d][i]);
      OpenReachesNext(graph, reach, m, n, d, i);
    }

    lemma Resume(m: Marks<D>, n: Marks<D>, o: Marks<D>, d: D, i: nat, low: int, low': int)
      requires Folded() && visiting(m, n, d, i, low) && d in graph && i < |graph[d]| && graph[d][i] !in n.index
      requires sound(o) && visited(n, o, graph[d][i], low')
      ensures visiting(m, o, d, i + 1, Min(low, low'))
    {
      assert UnfoldVisiting(m, n, d, i, low) && UnfoldSound(o) && UnfoldVisited(n, o, graph[d][i], low');
      assert UnfoldVisiting(m, o, d, i + 1, Min(low, low'));
      assert (d, graph[d][i]) in reach;
      VisitContinues(graph, reach, m, n, o, d, i, low, low');
    }

    lemma Pass(m: Marks<D>, n: Marks<D>, d: D, i: nat, low: int)
      requires Folded() && visiting(m, n, d, i, low) && d in graph && i < |graph[d]| && graph[d][i] in n.index
      ensures visiting(m, n, d, i + 1, if graph[d][i] in n.stack then Min(low, n.index[graph[d][i]]) else low)
    {
      var low' := if graph[d][i] in n.stack then Min(low, n.index[graph[d][i]]) else low;
      assert UnfoldVisiting(m, n, d, i, low) && UnfoldVisiting(m, n, d, i + 1, low');
      assert (d, graph[d][i]) in reach;
      VisitSkips(graph, reach, m, n, d, i, low);
    }

    lemma LeaveStacked(m: Marks<D>, n: Marks<D>, d: D, low: int)
      requires Folded() && d in graph && visiting(m, n, d, |graph[d]|, low) && low != Number(n, d)
      ensures sound(n.(open := n.open - {d})) && visited(m, n.(open := n.open - {d}), d, low)
    {
      var o := n.(open := n.open - {d});
      assert UnfoldVisiting(m, n, d, |graph[d]|, low) && UnfoldSound(o) && UnfoldVisited(m, o, d, low);
      forall x | x in m.stack ensures x in m.index { assert x in OnStack(m); }
      VisitKeeps(graph, reach, m, n, d, low);
    }

    lemma LeaveListed(m: Marks<D>, n: Marks<D>, d: D, component: seq<D>)
      requires Folded() && d in graph && visiting(m, n, d, |graph[d]|, Number(n, d)) && |m.stack| <= |n.stack|
      requires Distinct(component) && Members(component) == Members(n.stack[|m.stack|..])
      ensures var o := Popped(n, |m.stack|, component, d); sound(o) && visited(m, o, d, Number(n, d))
    {
      var o := Popped(n, |m.stack|, component, d);
      assert UnfoldVisiting(m, n, d, |graph[d]|, Number(n, d)) && UnfoldSound(o) && UnfoldVisited(m, o, d, Number(n, d));
      OpenReachesSelf(m, n, d);
      VisitLists(graph, reach, m, n, d, component);
    }

    lemma OpenReachesSelf(m: Marks<D>, n: Marks<D>, d: D)
      requires Lawful(graph, reach) && OpenReach(reach, m, d) && n.open == m.open + {d} && d in graph
      ensures OpenReach(reach, n, d)
    {
    }

    /** What Visit relies on about the stack and the numbers. */
    lemma Facts(m: Marks<D>, n: Marks<D>, d: D, i: nat, low: int)
      requires Folded() && visiting(m, n, d, i, low)
      ensures |m.stack| < |n.stack| && n.stack[|m.stack|] == d && Distinct(n.stack) && d in n.index
      ensures m.index.Keys < n.index.Keys && n.index.Keys <= graph.Keys
    {
      assert UnfoldVisiting(m, n, d, i, low);
    }

    lemma ReturnFacts(m: Marks<D>, n: Marks<D>, d: D, low: int)
      requires Folded() && visited(m, n, d, low)
      ensures m.index.Keys <= n.index.Keys && d in n.index && n.open == m.open
    {
      assert UnfoldVisited(m, n, d, low);
    }

    lemma Done(m: Marks<D>)
      requires Folded() && sound(m) && m.open == {}
      ensures InOrder(graph, m.components) && AreComponents(graph, m.components) && m.index.Keys == Listed(m.components)
      ensures m.index.Keys <= graph.Keys
    {
      assert UnfoldSound(m);
      OldestLeadsBack(reach, m);
    }

    lemma NothingOpen(m: Marks<D>, d: D)
      requires Folded() && sound(m) && m.open == {}
      ensures callable(m, d)
    {
      assert UnfoldCallable(m, d);
    }

    /** Pops the stack down to d, at position k, and lists what was popped as a component. */
    method PopDownTo(d: D, ghost k: nat) returns (component: seq<D>)
      requires k < |stack| && stack[k] == d && Distinct(stack) && onStack == Members(stack)
      modifies this`stack, this`onStack, this`components, this`open
      ensures Distinct(component) && Members(component) == Members(old(stack)[k..])
      ensures stack == old(stack)[..k] && onStack == Members(stack)
      ensures components == old(components) + [component] && open == old(open) - {d}
    {
      component := [];
      ghost var whole := stack;
      while true
        invariant k < |stack| <= |whole| && stack == whole[..|stack|] && onStack == Members(stack)
        invariant Distinct(component) && Members(component) == Members(whole[|stack|..])
        invariant components == old(components) && open == old(open)
        decreases |stack|
      {
        var top := |stack| - 1;
        var member := stack[top];
        PopOne(whole, component, top);
        stack := stack[..top];
        onStack := onStack - {member};
        component := component + [member];
        if member == d {
          assert top == k;
          break;
        }
      }
      components := components + [component];
      open := open - {d};
    }

    /** All dependencies of d were followed. */
    method Leave(d: D, ghost m: Marks<D>)
      requires Folded() && d in graph && d in low && d in index && onStack == Members(stack)
      requires visiting(m, Recorded(), d, |graph[d]|, low[d])
      modifies this`stack, this`onStack, this`components, this`open
      ensures sound(Recorded()) && visited(m, Recorded(), d, low[d]) && onStack == Members(stack)
    {
      ghost var n := Recorded();
      Facts(m, n, d, |graph[d]|, low[d]);
      if low[d] == index[d] {
        var component := PopDownTo(d, |m.stack|);
        LeaveListed(m, n, d, component);
        assert Recorded() == Popped(n, |m.stack|, component, d);
      } else {
        open := open - {d};
        LeaveStacked(m, n, d, low[d]);
        assert Recorded() == n.(open := n.open - {d});
      }
    }

    /** Follows the i-th dependency of d. */
    method Follow(d: D, i: nat, ghost m: Marks<D>)
      requires Folded() && d in graph && i < |graph[d]| && d in low && d in index && onStack == Members(stack)
      requires visiting(m, Recorded(), d, i, low[d])
      modifies this
      ensures d in low && d in index && onStack == Members(stack) && old(index).Keys <= index.Keys
      ensures visiting(m, Recorded(), d, i + 1, low[d])
      ensures forall x :: x in old(index) && x in old(low) && x != d ==> x in low && low[x] == old(low[x])
      decreases graph.Keys - index.Keys, 1
    {
      var y := graph[d][i];
      ghost var n, before := Recorded(), low[d];
      Next(m, n, d, i, before);
      if y !in index {
        Visit(y);
        ghost var after, link := Recorded(), low[y];
        ReturnFacts(n, after, y, link);
        Resume(m, n, after, d, i, before, link);
        assert low[d] == before;
        low := low[d := if low[d] <= low[y] then low[d] else low[y]];
        assert Recorded() == after && low[d] == Min(before, link);
      } else {
        Pass(m, n, d, i, before);
        if y in onStack {
          low := low[d := if low[d] <= index[y] then low[d] else index[y]];
        }
        assert Recorded() == n;
      }
    }

    method Visit(d: D)
      requires Folded() && sound(Recorded()) && callable(Recorded(), d) && d in graph && d !in index
      requires onStack == Members(stack)
      modifies this
      ensures sound(Recorded()) && d in low && visited(old(Recorded()), Recorded(), d, low[d])
      ensures onStack == Members(stack)
      ensures forall x :: x in old(index) && x in old(low) ==> x in low && low[x] == old(low[x])
      decreases graph.Keys - index.Keys, 0
    {
      ghost var m := Recorded();
      Begin(m, d);
      low := low[d := |index|];
      index := index[d := |index|];
      stack := stack + [d];
      onStack := onStack + {d};
      open := open + {d};
      assert Recorded() == Opened(m, d);
      var i := 0;
      while i < |graph[d]|
        invariant i <= |graph[d]| && d in low && d in index && onStack == Members(stack)
        invariant visiting(m, Recorded(), d, i, low[d])
        invariant m.index.Keys < index.Keys && d !in m.index
        invariant forall x :: x in m.index && x in old(low) ==> x in low && low[x] == old(low[x])
      {
        Follow(d, i, m);
        i := i + 1;
      }
      Leave(d, m);
    }
  }

  lemma ListedNext<D>(found: seq<seq<D>>, i: nat)
    requires i < |found|
    ensures Listed(found[..i + 1]) == Listed(found[..i]) + Members(found[i])
  {
    assert found[..i + 1] == found[..i] + [found[i]];
    ListedAppend(found[..i], found[i]);
  }

  /** The strongly connected components of a graph, each after those it depends on. */
  method StronglyConnected<D(==, !new)>(graph: map<D, seq<D>>, nodes: seq<D>) returns (components: seq<seq<D>>)
    requires IsGraph(graph) && Members(nodes) == graph.Keys
    ensures InOrder(graph, components) && AreComponents(graph, components)
    ensures Listed(components) == graph.Keys
  {
    var search := new Search(graph);
    var i := 0;
    while i < |nodes|
      invariant i <= |nodes| && search.graph == graph && search.Folded()
      invariant search.sound(search.Recorded()) && search.open == {} && search.onStack == Members(search.stack)
      invariant Members(nodes[..i]) <= search.index.Keys
    {
      var d := nodes[i];
      TakeOneMore(nodes, i);
      assert d in Members(nodes);
      if d !in search.index {
        ghost var before := search.Recorded();
        search.NothingOpen(before, d);
        search.Visit(d);
        search.ReturnFacts(before, search.Recorded(), d, search.low[d]);
      }
      i := i + 1;
    }
    assert nodes[..i] == nodes;
    components := search.components;
    search.Done(search.Recorded());
  }
}
