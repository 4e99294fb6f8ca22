/** Armies on the board, and the troops counted on it. */
module Ledger {
  import opened SortedIds
  import opened Turn

  /** An army as movement handles it. */
  datatype Piece = Piece(owner: PlayerId, territory: TerritoryId, size: int)

  type Board = map<ArmyId, Piece>

  /** Which troops to count: those of a player, those on a territory, or both. */
  type Tally = (PlayerId, TerritoryId) -> bool

  function Share(owner: PlayerId, t: TerritoryId, size: int, tally: Tally): int
  {
    if tally(owner, t) then size else 0
  }

  function Counted(p: Piece, tally: Tally): int
  {
    Share(p.owner, p.territory, p.size, tally)
  }

  /** A sum over a set of armies. */
  ghost function Sum(s: set<ArmyId>, w: ArmyId -> int): int
    decreases s
  {
    if s == {} then 0 else w(Least(s)) + Sum(s - {Least(s)}, w)
  }

  lemma {:induction false} SumWithout(s: set<ArmyId>, k: ArmyId, w: ArmyId -> int)
    requires k in s
    ensures Sum(s, w) == w(k) + Sum(s - {k}, w)
    decreases s
  {
    var first := Least(s);
    if k != first {
      SumWithout(s - {first}, k, w);
      SumWithout(s - {k}, first, w);
      assert s - {first} - {k} == s - {k} - {first};
    }
  }

  lemma {:induction false} SumSame(s: set<ArmyId>, v: ArmyId -> int, w: ArmyId -> int)
    requires forall k :: k in s ==> v(k) == w(k)
    ensures Sum(s, v) == Sum(s, w)
    decreases s
  {
    if s != {} { SumSame(s - {Least(s)}, v, w); }
  }

  lemma SumChanged(s: set<ArmyId>, k: ArmyId, v: ArmyId -> int, w: ArmyId -> int)
    requires k in s && forall j :: j in s && j != k ==> v(j) == w(j)
    ensures Sum(s, w) == Sum(s, v) - v(k) + w(k)
  {
    SumWithout(s, k, v);
    SumWithout(s, k, w);
    SumSame(s - {k}, v, w);
  }

  ghost function Weights(b: Board, tally: Tally): ArmyId -> int
  {
    k => if k in b then Counted(b[k], tally) else 0
  }

  /** The troops on a board that a tally counts. */
  ghost function Strength(b: Board, tally: Tally): int
  {
    Sum(b.Keys, Weights(b, tally))
  }

  lemma StrengthWithout(b: Board, k: ArmyId, tally: Tally)
    requires k in b
    ensures Strength(b, tally) == Counted(b[k], tally) + Strength(b - {k}, tally)
  {
    SumWithout(b.Keys, k, Weights(b, tally));
    assert (b - {k}).Keys == b.Keys - {k};
    SumSame(b.Keys - {k}, Weights(b, tally), Weights(b - {k}, tally));
  }

  lemma StrengthAdded(b: Board, k: ArmyId, p: Piece, tally: Tally)
    requires k !in b
    ensures Strength(b[k := p], tally) == Strength(b, tally) + Counted(p, tally)
  {
    StrengthWithout(b[k := p], k, tally);
    assert b[k := p] - {k} == b;
  }

  lemma StrengthChanged(b: Board, k: ArmyId, p: Piece, tally: Tally)
    requires k in b
    ensures Strength(b[k := p], tally) == Strength(b, tally) - Counted(b[k], tally) + Counted(p, tally)
  {
    StrengthWithout(b, k, tally);
    StrengthWithout(b[k := p], k, tally);
    assert b[k := p] - {k} == b - {k};
  }

  /** No two armies of the board share a territory. */
  ghost predicate OnePerTerritory(b: Board)
  {
    forall i, j :: i in b && j in b && b[i].territory == b[j].territory ==> i == j
  }
}
