/**
 Sorted enumeration of identifiers. The engine never ranges over a Go map
 directly when the order could show: it first collects and sorts the keys.
 Identifiers are natural numbers here, in the order the engine sorts them.
 */
module SortedIds {

  ghost predicate Below(q: seq<nat>, i: int, j: int)
  {
    0 <= i < j < |q| ==> q[i] < q[j]
  }

  ghost predicate Ascending(q: seq<nat>)
  {
    forall i, j :: Below(q, i, j)
  }

  /** The first is below all the others, which ascend too. */
  lemma AscendingTail(q: seq<nat>)
    requires Ascending(q) && q != []
    ensures Ascending(q[1..]) && forall x :: x in q[1..] ==> q[0] < x
  {
    forall i, j ensures Below(q[1..], i, j) {
      assert Below(q, i + 1, j + 1);
    }
    forall x | x in q[1..] ensures q[0] < x {
      var j :| 0 <= j < |q[1..]| && q[1..][j] == x;
      assert Below(q, 0, j + 1);
    }
  }

  /** An identifier comes before i exactly when it is below the one at i. */
  lemma ListedBefore(q: seq<nat>, i: nat, j: nat)
    requires Ascending(q) && i < |q| && j < |q|
    ensures j < i <==> q[j] < q[i]
  {
    assert Below(q, i, j) && Below(q, j, i);
  }

  lemma AscendingCons(m: nat, q: seq<nat>)
    requires Ascending(q) && forall x :: x in q ==> m < x
    ensures Ascending([m] + q)
  {
    var r := [m] + q;
    forall i, j ensures Below(r, i, j) {
      assert Below(q, i - 1, j - 1);
      if 0 <= i < j < |r| { assert r[j] == q[j - 1] && q[j - 1] in q; }
    }
  }

  ghost predicate IsLeast(m: nat, s: set<nat>)
  {
    m in s && forall x :: x in s ==> m <= x
  }

  lemma FindLeast(s: set<nat>) returns (m: nat)
    requires s != {}
    ensures IsLeast(m, s)
    decreases |s|
  {
    m :| m in s;
    var rest := s - {m};
    if rest != {} {
      var r := FindLeast(rest);
      forall x | x in s ensures r <= x || m <= x { assert x == m || x in rest; }
      m := if m <= r then m else r;
    } else {
      assert s == rest + {m};
    }
  }

  /** The least identifier of a nonempty set. */
  function Least(s: set<nat>): (m: nat)
    requires s != {}
    ensures m in s
    ensures forall x :: x in s ==> m <= x
  {
    assert exists m :: IsLeast(m, s) by { var m := FindLeast(s); }
    var m :| m in s && forall x :: x in s ==> m <= x;
    m
  }

  /** The keys of a map, sorted: sortedArmyMap and sortedTerritoryMap. */
  function Sorted(s: set<nat>): (q: seq<nat>)
    ensures Ascending(q)
    ensures forall x :: x in q <==> x in s
    ensures |q| == |s|
    decreases |s|
  {
    if s == {} then [] else
      var m := Least(s);
      AscendingCons(m, Sorted(s - {m}));
      [m] + Sorted(s - {m})
  }

  /** The members of a sequence that belong to a set, in their order. */
  function Filter(q: seq<nat>, keep: set<nat>): (r: seq<nat>)
    ensures forall x :: x in r <==> x in q && x in keep
  {
    if q == [] then []
    else if q[0] in keep then [q[0]] + Filter(q[1..], keep)
    else Filter(q[1..], keep)
  }

  lemma EmptyOrMember(q: seq<nat>)
    ensures q == [] || exists x :: x in q
  {
    assert q != [] ==> q[0] in q;
  }

  /** Two ascending sequences with the same members are the same sequence. */
  lemma {:induction false} AscendingUnique(a: seq<nat>, b: seq<nat>)
    requires Ascending(a) && Ascending(b)
    requires forall x :: x in a <==> x in b
    ensures a == b
  {
    if a == [] {
      EmptyOrMember(b);
    } else {
      assert b != [] by { assert a[0] in b; }
      AscendingTail(a);
      AscendingTail(b);
      assert a == [a[0]] + a[1..] && b == [b[0]] + b[1..];
      assert a[0] in b && b[0] in a;
      forall x ensures x in a[1..] <==> x in b[1..] {
        assert x in a <==> x in b;
      }
      AscendingUnique(a[1..], b[1..]);
    }
  }

  lemma {:induction false} FilterAscending(q: seq<nat>, keep: set<nat>)
    requires Ascending(q)
    ensures Ascending(Filter(q, keep))
  {
    if q != [] {
      AscendingTail(q);
      FilterAscending(q[1..], keep);
      if q[0] in keep { AscendingCons(q[0], Filter(q[1..], keep)); }
    }
  }

  /** Sorting part of a set lists that part in the order of the whole. */
  lemma SortedOfPart(s: set<nat>, keep: set<nat>)
    ensures Sorted(s * keep) == Filter(Sorted(s), keep)
  {
    FilterAscending(Sorted(s), keep);
    AscendingUnique(Sorted(s * keep), Filter(Sorted(s), keep));
  }

  /** The identifiers a loop over q has visited after i steps. */
  ghost function Visited(q: seq<nat>, i: nat): set<nat>
    requires i <= |q|
  {
    set x | x in q[..i]
  }

  lemma VisitNext(q: seq<nat>, i: nat)
    requires Ascending(q) && i < |q|
    ensures Visited(q, i + 1) == Visited(q, i) + {q[i]} && q[i] !in Visited(q, i) && q[i] in q
  {
    assert q[..i + 1] == q[..i] + [q[i]];
    forall j | 0 <= j < i ensures q[j] != q[i] {
      assert Below(q, j, i);
    }
  }

  lemma VisitedAll(s: set<nat>)
    ensures Visited(Sorted(s), |Sorted(s)|) == s && Visited(Sorted(s), 0) == {}
  {
    assert Sorted(s)[..|Sorted(s)|] == Sorted(s);
  }

  /** What is left to visit. */
  ghost function ToVisit(s: set<nat>, i: nat): set<nat>
    requires i <= |Sorted(s)|
  {
    s - Visited(Sorted(s), i)
  }

  lemma VisitLess(s: set<nat>, i: nat)
    requires i < |Sorted(s)|
    ensures Sorted(s)[i] in ToVisit(s, i) && Sorted(s)[i] in s && ToVisit(s, i + 1) == ToVisit(s, i) - {Sorted(s)[i]}
  {
    VisitNext(Sorted(s), i);
  }

  lemma VisitEnds(s: set<nat>)
    ensures ToVisit(s, 0) == s && ToVisit(s, |Sorted(s)|) == {}
  {
    VisitedAll(s);
  }

  /** The place after i in a ring of n. */
  function Successor(i: nat, n: nat): nat
  {
    if i + 1 < n then i + 1 else 0
  }
}
