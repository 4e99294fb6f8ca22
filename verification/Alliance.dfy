/**
 Alliances by marriage: the weight of a marriage, and the active head of each
 house, taken greedily from the heaviest alliance down.
 */
module Alliances {
  import opened Wrappers
  import opened Turn

  datatype Marriage = Marriage(a: NobleId, b: NobleId, turn: nat)

  /** What alliances read of the state; `rank` adds a noble's succession and title ranks. */
  datatype Court = Court(
    marriages: seq<Marriage>,
    owner: map<NobleId, PlayerId>,
    rank: map<NobleId, nat>,
    active: set<Marriage>,
    voiding: set<NobleId>,
    densityBonus: nat)

  function HouseOf(c: Court, n: NobleId): PlayerId
  {
    if n in c.owner then c.owner[n] else 0
  }

  function RankOf(c: Court, n: NobleId): nat
  {
    if n in c.rank then c.rank[n] else 0
  }

  /** Both spouses alive and neither carrying a dignity that voids the alliance. */
  predicate IsAlliance(c: Court, m: Marriage)
  {
    m in c.active && m.a !in c.voiding && m.b !in c.voiding
  }

  predicate SameMarriage(m: Marriage, n: Marriage)
  {
    m.a == n.a && m.b == n.b
  }

  predicate SameHouses(c: Court, m: Marriage, n: Marriage)
  {
    || (HouseOf(c, m.a) == HouseOf(c, n.a) && HouseOf(c, m.b) == HouseOf(c, n.b))
    || (HouseOf(c, m.a) == HouseOf(c, n.b) && HouseOf(c, m.b) == HouseOf(c, n.a))
  }

  function Min(x: nat, y: nat): nat
  {
    if x <= y then x else y
  }

  /** The alliances between the same two houses among some marriages. */
  function AlliesAmong(c: Court, m: Marriage, q: seq<Marriage>): nat
  {
    if q == [] then 0
    else AlliesAmong(c, m, q[..|q| - 1]) + if IsAlliance(c, q[|q| - 1]) && SameHouses(c, m, q[|q| - 1]) then 1 else 0
  }

  /** The same without the marriage itself, however often it is recorded. */
  function OthersAmong(c: Court, m: Marriage, q: seq<Marriage>): nat
  {
    if q == [] then 0
    else OthersAmong(c, m, q[..|q| - 1])
         + if !SameMarriage(q[|q| - 1], m) && IsAlliance(c, q[|q| - 1]) && SameHouses(c, m, q[|q| - 1]) then 1 else 0
  }

  /** Recorded once, a marriage is one of the alliances of its houses, and the others are the rest. */
  lemma {:induction false} AllButOne(c: Court, m: Marriage, q: seq<Marriage>)
    requires IsAlliance(c, m)
    requires forall i, j :: 0 <= i < j < |q| ==> !SameMarriage(q[i], q[j])
    requires forall i :: 0 <= i < |q| && SameMarriage(q[i], m) ==> q[i] == m
    ensures AlliesAmong(c, m, q) == OthersAmong(c, m, q) + if m in q then 1 else 0
  {
    if q != [] {
      var rest, last := q[..|q| - 1], q[|q| - 1];
      AllButOne(c, m, rest);
      assert q == rest + [last];
      if SameMarriage(last, m) {
        assert m !in rest;
      }
    }
  }

  /** Every alliance between two houses counts the same alliances: only the spouses tell their weights apart. */
  lemma {:induction false} HousesShareBonus(c: Court, m: Marriage, n: Marriage, q: seq<Marriage>)
    requires SameHouses(c, m, n)
    ensures AlliesAmong(c, m, q) == AlliesAmong(c, n, q)
  {
    if q != [] {
      HousesShareBonus(c, m, n, q[..|q| - 1]);
    }
  }

  /** The weaker spouse's rank, and a bonus for every other alliance of the two houses. */
  function WeightOf(c: Court, m: Marriage): nat
  {
    Min(RankOf(c, m.a), RankOf(c, m.b)) + c.densityBonus * OthersAmong(c, m, c.marriages)
  }

  /** The weight of an alliance; none for another marriage. */
  method AllianceWeight(c: Court, m: Marriage) returns (weight: Option<nat>)
    ensures weight.Some? <==> IsAlliance(c, m)
    ensures weight.Some? ==> weight.value == WeightOf(c, m)
  {
    if !IsAlliance(c, m) {
      return None;
    }
    var others := CountOthers(c, m);
    weight := Some(Min(RankOf(c, m.a), RankOf(c, m.b)) + c.densityBonus * others);
  }

  /** The other alliances between the houses of a marriage. */
  method CountOthers(c: Court, m: Marriage) returns (others: nat)
    ensures others == OthersAmong(c, m, c.marriages)
  {
    var i := 0;
    others := 0;
    while i < |c.marriages|
      invariant i <= |c.marriages|
      invariant others == OthersAmong(c, m, c.marriages[..i])
    {
      var other := c.marriages[i];
      assert c.marriages[..i + 1][..i] == c.marriages[..i];
      if !SameMarriage(other, m) && IsAlliance(c, other) && SameHouses(c, m, other) {
        others := others + 1;
      }
      i := i + 1;
    }
    assert c.marriages[..i] == c.marriages;
  }

  // ---------- active heads

  /** A cross-house alliance, in the order recorded. */
  datatype Candidate = Candidate(houseA: PlayerId, houseB: PlayerId, weight: nat, turn: nat)

  /** The i-th candidate comes before the j-th: heavier, else older, else recorded first. */
  predicate Precedes(q: seq<Candidate>, i: nat, j: nat)
    requires i < |q| && j < |q|
  {
    if q[i].weight != q[j].weight then q[i].weight > q[j].weight
    else if q[i].turn != q[j].turn then q[i].turn < q[j].turn
    else i < j
  }

  predicate IsOf(m: Candidate, house: PlayerId)
  {
    m.houseA == house || m.houseB == house
  }

  type Heads = map<PlayerId, nat>

  /** The candidate is the head of both its houses. */
  predicate IsHead(q: seq<Candidate>, heads: Heads, i: nat)
    requires i < |q|
  {
    && q[i].houseA in heads && heads[q[i].houseA] == i
    && q[i].houseB in heads && heads[q[i].houseB] == i
  }

  /** A house's head is one of its alliances, and the head of the other house too. */
  ghost predicate IsSymmetric(q: seq<Candidate>, heads: Heads)
  {
    forall h :: h in heads ==> heads[h] < |q| && IsOf(q[heads[h]], h) && IsHead(q, heads, heads[h])
  }

  /** One of the candidate's houses prefers its own head. */
  ghost predicate IsBlocked(q: seq<Candidate>, heads: Heads, i: nat)
    requires i < |q|
  {
    exists h :: h in heads && IsOf(q[i], h) && heads[h] < |q| && Precedes(q, heads[h], i)
  }

  /** Every alliance is a head, or one of its houses has a head that precedes it. */
  ghost predicate IsStable(q: seq<Candidate>, heads: Heads)
  {
    IsSymmetric(q, heads) && forall i :: 0 <= i < |q| ==> IsHead(q, heads, i) || IsBlocked(q, heads, i)
  }

  // ---------- at most one stable assignment

  /** The candidates in order of precedence. */
  ghost predicate IsOrder(q: seq<Candidate>, order: seq<nat>)
  {
    && (forall k :: 0 <= k < |order| ==> order[k] < |q|)
    && (forall i :: 0 <= i < |q| ==> i in order)
    && forall k, l :: 0 <= k < l < |order| ==> order[k] < |q| && order[l] < |q| && Precedes(q, order[k], order[l])
  }

  lemma PrecedesOnce(q: seq<Candidate>, i: nat, j: nat)
    requires i < |q| && j < |q|
    ensures i != j ==> (Precedes(q, i, j) <==> !Precedes(q, j, i))
    ensures !Precedes(q, i, i)
  {
  }

  /** What blocks a candidate in one assignment keeps it from being a head in the other. */
  lemma BlockedNoHead(q: seq<Candidate>, order: seq<nat>, x: Heads, y: Heads, k: nat)
    requires IsOrder(q, order) && IsStable(q, x) && IsStable(q, y) && k < |order| && order[k] < |q|
    requires forall l :: 0 <= l < k ==> order[l] < |q| && (IsHead(q, x, order[l]) <==> IsHead(q, y, order[l]))
    ensures IsBlocked(q, y, order[k]) ==> !IsHead(q, x, order[k])
  {
    var i := order[k];
    if IsBlocked(q, y, i) {
      var h :| h in y && IsOf(q[i], h) && y[h] < |q| && Precedes(q, y[h], i);
      var j := y[h];
      assert j in order;
      var l :| 0 <= l < |order| && order[l] == j;
      PrecedesOnce(q, i, j);
      assert l < k;
      assert IsHead(q, y, j) && IsHead(q, x, j);
      assert h in x && x[h] == j && j != i;
    }
  }

  /** A head in one stable assignment is a head in the other, if they agree on all that precedes it. */
  lemma HeadCarries(q: seq<Candidate>, order: seq<nat>, x: Heads, y: Heads, k: nat)
    requires IsOrder(q, order) && IsStable(q, x) && IsStable(q, y) && k < |order| && order[k] < |q|
    requires forall l :: 0 <= l < k ==> order[l] < |q| && (IsHead(q, x, order[l]) <==> IsHead(q, y, order[l]))
    ensures IsHead(q, x, order[k]) ==> IsHead(q, y, order[k])
  {
    BlockedNoHead(q, order, x, y, k);
  }

  lemma {:induction false} SameHeads(q: seq<Candidate>, order: seq<nat>, x: Heads, y: Heads, k: nat)
    requires IsOrder(q, order) && IsStable(q, x) && IsStable(q, y) && k <= |order|
    ensures forall l :: 0 <= l < k ==> order[l] < |q| && (IsHead(q, x, order[l]) <==> IsHead(q, y, order[l]))
  {
    if k > 0 {
      SameHeads(q, order, x, y, k - 1);
      HeadCarries(q, order, x, y, k - 1);
      HeadCarries(q, order, y, x, k - 1);
    }
  }

  lemma HeadsIncluded(q: seq<Candidate>, order: seq<nat>, x: Heads, y: Heads, h: PlayerId)
    requires IsOrder(q, order) && IsStable(q, x) && IsStable(q, y) && h in x
    ensures h in y && y[h] == x[h]
  {
    SameHeads(q, order, x, y, |order|);
    var i := x[h];
    assert i in order;
    var l :| 0 <= l < |order| && order[l] == i;
    assert IsHead(q, x, i) && IsHead(q, y, i);
  }

  /** The active heads are the only stable assignment. */
  lemma StableUnique(q: seq<Candidate>, order: seq<nat>, x: Heads, y: Heads)
    requires IsOrder(q, order) && IsStable(q, x) && IsStable(q, y)
    ensures x == y
  {
    forall h ensures h in x <==> h in y {
      if h in x { HeadsIncluded(q, order, x, y, h); }
      if h in y { HeadsIncluded(q, order, y, x, h); }
    }
    forall h | h in x ensures x[h] == y[h] {
      HeadsIncluded(q, order, x, y, h);
    }
  }

  // ---------- activeHeads

  /** Where candidate i goes in an order of the candidates before it: after all that precede it. */
  method InsertCandidate(q: seq<Candidate>, order: seq<nat>, i: nat) returns (more: seq<nat>)
    requires i < |q| && IsOrder(q[..i], order)
    ensures IsOrder(q[..i + 1], more)
  {
    assert forall k :: 0 <= k < |order| ==> order[k] < i && q[..i][order[k]] == q[order[k]];
    var p := |order|;
    while p > 0 && Precedes(q, i, order[p - 1])
      invariant 0 <= p <= |order|
      invariant forall k :: p <= k < |order| ==> order[k] < i && Precedes(q, i, order[k])
    {
      p := p - 1;
    }
    more := order[..p] + [i] + order[p..];
    InsertedOrder(q, order, i, p);
  }

  lemma PrecedesTrans(q: seq<Candidate>, i: nat, j: nat, k: nat)
    requires i < |q| && j < |q| && k < |q| && Precedes(q, i, j) && Precedes(q, j, k)
    ensures Precedes(q, i, k)
  {
  }

  lemma InsertedOrder(q: seq<Candidate>, order: seq<nat>, i: nat, p: nat)
    requires i < |q| && p <= |order| && IsOrder(q[..i], order)
    requires forall k :: p <= k < |order| ==> order[k] < i && Precedes(q, i, order[k])
    requires p > 0 ==> order[p - 1] < i && !Precedes(q, i, order[p - 1])
    ensures IsOrder(q[..i + 1], order[..p] + [i] + order[p..])
  {
    var more := order[..p] + [i] + order[p..];
    var sub := q[..i + 1];
    assert forall k :: 0 <= k < |order| ==> order[k] < |q[..i]|;
    forall k | 0 <= k < p ensures Precedes(sub, order[k], i) {
      PrecedesOnce(q, order[p - 1], i);
      if k < p - 1 {
        assert Precedes(q[..i], order[k], order[p - 1]);
        PrecedesTrans(q, order[k], order[p - 1], i);
      }
    }
    InsertedLists(order, i, p);
    forall k, l | 0 <= k < l < |more| ensures more[k] < |sub| && more[l] < |sub| && Precedes(sub, more[k], more[l]) {
      if k != p && l != p {
        var k', l' := if k < p then k else k - 1, if l < p then l else l - 1;
        assert Precedes(q[..i], order[k'], order[l']);
      }
    }
  }

  lemma InsertedLists(order: seq<nat>, i: nat, p: nat)
    requires p <= |order| && forall x :: 0 <= x < i ==> x in order
    ensures forall x :: 0 <= x < i + 1 ==> x in order[..p] + [i] + order[p..]
  {
    var more := order[..p] + [i] + order[p..];
    forall x | 0 <= x < i + 1 ensures x in more {
      if x < i {
        assert x in order;
        var k :| 0 <= k < |order| && order[k] == x;
        assert more[if k < p then k else k + 1] == x;
      } else {
        assert more[p] == i;
      }
    }
  }

  /** Orders the candidates by precedence, keeping ties as recorded. */
  method SortCandidates(q: seq<Candidate>) returns (order: seq<nat>)
    ensures IsOrder(q, order)
  {
    order := [];
    var i := 0;
    while i < |q|
      invariant i <= |q| && IsOrder(q[..i], order)
    {
      order := InsertCandidate(q, order, i);
      i := i + 1;
    }
    assert q[..i] == q;
  }

  /** The candidates seen are heads, or blocked by one seen before. */
  ghost predicate Matching(q: seq<Candidate>, order: seq<nat>, k: nat, heads: Heads)
  {
    && k <= |order| && IsSymmetric(q, heads)
    && (forall h :: h in heads ==> heads[h] in order[..k])
    && forall l :: 0 <= l < k ==> order[l] < |q| && (IsHead(q, heads, order[l]) || IsBlocked(q, heads, order[l]))
  }

  lemma HouseTaken(q: seq<Candidate>, order: seq<nat>, k: nat, heads: Heads, h: PlayerId)
    requires IsOrder(q, order) && k < |order| && Matching(q, order, k, heads) && h in heads && IsOf(q[order[k]], h)
    ensures Matching(q, order, k + 1, heads)
  {
    assert heads[h] in order[..k];
    var l :| 0 <= l < k && order[l] == heads[h];
    assert Precedes(q, order[l], order[k]);
    assert IsBlocked(q, heads, order[k]);
    assert order[..k + 1] == order[..k] + [order[k]];
  }

  lemma HouseFree(q: seq<Candidate>, order: seq<nat>, k: nat, heads: Heads)
    requires IsOrder(q, order) && k < |order| && Matching(q, order, k, heads)
    requires q[order[k]].houseA !in heads && q[order[k]].houseB !in heads
    ensures Matching(q, order, k + 1, heads[q[order[k]].houseA := order[k]][q[order[k]].houseB := order[k]])
  {
    var i := order[k];
    var more := heads[q[i].houseA := i][q[i].houseB := i];
    assert order[..k + 1] == order[..k] + [i];
    forall h | h in more ensures more[h] < |q| && IsOf(q[more[h]], h) && IsHead(q, more, more[h]) && more[h] in order[..k + 1] {
      if h in heads { assert IsHead(q, heads, heads[h]); }
    }
    forall l | 0 <= l < k + 1 ensures order[l] < |q| && (IsHead(q, more, order[l]) || IsBlocked(q, more, order[l])) {
      if l < k && IsBlocked(q, heads, order[l]) {
        var h :| h in heads && IsOf(q[order[l]], h) && heads[h] < |q| && Precedes(q, heads[h], order[l]);
        assert h in more && more[h] == heads[h];
      }
    }
  }

  /** Takes the alliances from the heaviest down, each house at most once: the stable assignment. */
  method ActiveHeads(q: seq<Candidate>) returns (heads: Heads)
    ensures IsStable(q, heads)
    ensures forall other: Heads :: IsStable(q, other) ==> other == heads
  {
    var order := SortCandidates(q);
    heads := map[];
    var k := 0;
    while k < |order|
      invariant Matching(q, order, k, heads)
    {
      var m := q[order[k]];
      if m.houseA in heads {
        HouseTaken(q, order, k, heads, m.houseA);
      } else if m.houseB in heads {
        HouseTaken(q, order, k, heads, m.houseB);
      } else {
        HouseFree(q, order, k, heads);
        heads := heads[m.houseA := order[k]][m.houseB := order[k]];
      }
      k := k + 1;
    }
    forall i | 0 <= i < |q| ensures IsHead(q, heads, i) || IsBlocked(q, heads, i) {
      assert i in order;
    }
    forall other: Heads | IsStable(q, other) ensures other == heads {
      StableUnique(q, order, other, heads);
    }
  }

  // ---------- the alliances of a state

  /** The marriage is an alliance between two houses. */
  predicate Crosses(c: Court, m: Marriage)
  {
    IsAlliance(c, m) && HouseOf(c, m.a) != HouseOf(c, m.b)
  }

  function CandidateOf(c: Court, m: Marriage): Candidate
  {
    Candidate(HouseOf(c, m.a), HouseOf(c, m.b), WeightOf(c, m), m.turn)
  }

  /** q lists the alliances between houses among the first n marriages, as recorded; from tells where. */
  ghost predicate AreAlliances(c: Court, n: nat, q: seq<Candidate>, from: seq<nat>)
  {
    && |q| == |from| && n <= |c.marriages|
    && (forall i :: 0 <= i < |from| ==> from[i] < n && Crosses(c, c.marriages[from[i]]) && q[i] == CandidateOf(c, c.marriages[from[i]]))
    && (forall i, j :: 0 <= i < j < |from| ==> from[i] < from[j])
    && (forall k :: 0 <= k < n && Crosses(c, c.marriages[k]) ==> k in from)
  }

  method ListAlliances(c: Court) returns (q: seq<Candidate>, from: seq<nat>)
    ensures AreAlliances(c, |c.marriages|, q, from)
  {
    q, from := [], [];
    var k := 0;
    while k < |c.marriages|
      invariant k <= |c.marriages| && AreAlliances(c, k, q, from)
    {
      var m := c.marriages[k];
      if HouseOf(c, m.a) != HouseOf(c, m.b) {
        var weight := AllianceWeight(c, m);
        if weight.Some? {
          q, from := q + [Candidate(HouseOf(c, m.a), HouseOf(c, m.b), weight.value, m.turn)], from + [k];
          assert from[|from| - 1] == k;
        }
      }
      k := k + 1;
    }
  }

  datatype Category = Head | Secondary

  /** The head of a house is this marriage. */
  predicate IsHeadOf(c: Court, from: seq<nat>, heads: Heads, house: PlayerId, m: Marriage)
  {
    && house in heads && heads[house] < |from| && from[heads[house]] < |c.marriages|
    && SameMarriage(c.marriages[from[heads[house]]], m)
  }

  /** An alliance is head or secondary: head exactly when the stable assignment makes it the head of its two houses. */
  method MarriageCategory(c: Court, m: Marriage)
    returns (category: Option<Category>, ghost q: seq<Candidate>, ghost from: seq<nat>, ghost heads: Heads)
    ensures category.Some? <==> IsAlliance(c, m)
    ensures Crosses(c, m) ==> AreAlliances(c, |c.marriages|, q, from) && IsStable(q, heads)
    ensures category == Some(Head) <==>
              Crosses(c, m) && |q| == |from|
              && exists i :: 0 <= i < |q| && IsHead(q, heads, i) && from[i] < |c.marriages| && SameMarriage(c.marriages[from[i]], m)
  {
    q, from, heads := [], [], map[];
    var weight := AllianceWeight(c, m);
    if weight.None? {
      return None, q, from, heads;
    }
    category := Some(Secondary);
    if HouseOf(c, m.a) != HouseOf(c, m.b) {
      var alliances, recorded := ListAlliances(c);
      var chosen := ActiveHeads(alliances);
      q, from, heads := alliances, recorded, chosen;
      if IsHeadOf(c, recorded, chosen, HouseOf(c, m.a), m) && IsHeadOf(c, recorded, chosen, HouseOf(c, m.b), m) {
        category := Some(Head);
      }
      OneHouseSuffices(c, m, q, from, heads);
    }
  }

  /** The head of one house of a marriage, if it is that marriage, is the head of the other. */
  lemma OneHouseSuffices(c: Court, m: Marriage, q: seq<Candidate>, from: seq<nat>, heads: Heads)
    requires AreAlliances(c, |c.marriages|, q, from) && IsStable(q, heads)
    ensures IsHeadOf(c, from, heads, HouseOf(c, m.a), m) && IsHeadOf(c, from, heads, HouseOf(c, m.b), m) <==>
              exists i :: 0 <= i < |q| && IsHead(q, heads, i) && SameMarriage(c.marriages[from[i]], m)
    ensures IsHeadOf(c, from, heads, HouseOf(c, m.a), m) <==> IsHeadOf(c, from, heads, HouseOf(c, m.b), m)
  {
    if IsHeadOf(c, from, heads, HouseOf(c, m.a), m) {
      assert IsHead(q, heads, heads[HouseOf(c, m.a)]);
    }
    if IsHeadOf(c, from, heads, HouseOf(c, m.b), m) {
      assert IsHead(q, heads, heads[HouseOf(c, m.b)]);
    }
  }
}
