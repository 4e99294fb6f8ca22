/** The weight of an alliance and the heads of the houses, read off the court and the list of alliances. */
module AllianceRead {
  import opened Turn
  import opened Alliances

  ghost function Rank(c: Court, n: NobleId): nat
  {
    if n in c.rank then c.rank[n] else 0
  }

  ghost function House(c: Court, n: NobleId): PlayerId
  {
    if n in c.owner then c.owner[n] else 0
  }

  /** The k-th marriage is another alliance between the two houses of m. */
  ghost predicate IsOther(c: Court, m: Marriage, k: nat)
    requires k < |c.marriages|
  {
    var o := c.marriages[k];
    && (o.a != m.a || o.b != m.b)
    && o in c.active && o.a !in c.voiding && o.b !in c.voiding
    && ((House(c, o.a) == House(c, m.a) && House(c, o.b) == House(c, m.b))
        || (House(c, o.a) == House(c, m.b) && House(c, o.b) == House(c, m.a)))
  }

  ghost function Others(c: Court, m: Marriage, n: nat): set<nat>
    requires n <= |c.marriages|
  {
    set k: nat | k < n && IsOther(c, m, k)
  }

  lemma {:induction false} OthersCounted(c: Court, m: Marriage, n: nat)
    requires n <= |c.marriages|
    ensures OthersAmong(c, m, c.marriages[..n]) == |Others(c, m, n)|
  {
    if n > 0 {
      OthersCounted(c, m, n - 1);
      assert c.marriages[..n][..n - 1] == c.marriages[..n - 1];
      assert Others(c, m, n) == if IsOther(c, m, n - 1) then Others(c, m, n - 1) + {n - 1} else Others(c, m, n - 1);
    }
  }

  /** An alliance weighs the lower of its spouses' ranks, and the bonus for each other alliance of the two houses. */
  lemma WeightIs(c: Court, m: Marriage)
    ensures var base := WeightOf(c, m) - c.densityBonus * |Others(c, m, |c.marriages|)|;
            && base <= Rank(c, m.a) && base <= Rank(c, m.b) && (base == Rank(c, m.a) || base == Rank(c, m.b))
    ensures IsAlliance(c, m) <==> m in c.active && !(m.a in c.voiding || m.b in c.voiding)
  {
    OthersCounted(c, m, |c.marriages|);
    assert c.marriages[..|c.marriages|] == c.marriages;
  }

  /** The candidate of a marriage between two houses: the houses, in the spouses' order, its weight and its turn. */
  lemma CandidateIs(c: Court, m: Marriage)
    ensures Crosses(c, m) <==>
              m in c.active && !(m.a in c.voiding || m.b in c.voiding) && House(c, m.a) != House(c, m.b)
    ensures var q := CandidateOf(c, m);
            q.houseA == House(c, m.a) && q.houseB == House(c, m.b) && q.weight == WeightOf(c, m) && q.turn == m.turn
  {
  }

  /** Heavier, or as heavy and older, or recorded first. */
  ghost predicate Ahead(q: seq<Candidate>, i: nat, j: nat)
    requires i < |q| && j < |q|
  {
    || q[i].weight > q[j].weight
    || (q[i].weight == q[j].weight && q[i].turn < q[j].turn)
    || (q[i].weight == q[j].weight && q[i].turn == q[j].turn && i < j)
  }

  ghost predicate HeadsBoth(q: seq<Candidate>, heads: Heads, i: nat)
    requires i < |q|
  {
    q[i].houseA in heads && q[i].houseB in heads && heads[q[i].houseA] == i == heads[q[i].houseB]
  }

  ghost predicate ShareHouse(x: Candidate, y: Candidate)
  {
    x.houseA == y.houseA || x.houseA == y.houseB || x.houseB == y.houseA || x.houseB == y.houseB
  }

  /** An alliance heads both its houses exactly when none that heads one of them is ahead of it. */
  lemma HeadIff(q: seq<Candidate>, heads: Heads, i: nat)
    requires IsStable(q, heads) && i < |q|
    ensures HeadsBoth(q, heads, i) <==>
              forall j :: 0 <= j < |q| && HeadsBoth(q, heads, j) && ShareHouse(q[i], q[j]) ==> !Ahead(q, j, i)
  {
    if !HeadsBoth(q, heads, i) {
      assert IsBlocked(q, heads, i);
      var h :| h in heads && IsOf(q[i], h) && heads[h] < |q| && Precedes(q, heads[h], i);
      assert IsHead(q, heads, heads[h]);
      assert HeadsBoth(q, heads, heads[h]) && ShareHouse(q[i], q[heads[h]]) && Ahead(q, heads[h], i);
    }
  }

  /** A house has a head exactly when some alliance heads it and the other house. */
  lemma HousesHeaded(q: seq<Candidate>, heads: Heads, h: PlayerId)
    requires IsStable(q, heads)
    ensures h in heads <==> exists i :: 0 <= i < |q| && HeadsBoth(q, heads, i) && (q[i].houseA == h || q[i].houseB == h)
  {
    if h in heads { assert IsHead(q, heads, heads[h]); }
  }
}
