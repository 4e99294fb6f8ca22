/**
 The board after the movements, read off the turn: how many troops of each army end
 where, and that every army on the board is worth the troops that end on its place.
 */
module BoardEquation {
  import opened Wrappers
  import opened SortedIds
  import opened Turn
  import opened Facts
  import opened Peaceful
  import opened Combat
  import opened Contests
  import opened JoinRules
  import opened DispersionRules
  import opened Presences
  import opened SettledCombat
  import opened Ledger
  import opened Movement
  import opened MoveEquation
  import opened PeacefulEquation

  /** Where an army that does not disperse ends. */
  ghost function EndPlace(c: Context, v: View, end: Rules, b: ArmyId): TerritoryId
    requires b in c.armies
  {
    if b in c.attacks && Said(v, Move(b)) then c.attacks[b].target
    else if b in c.joins && OutcomeOf(end, b) == Success then c.joins[b].target
    else c.armies[b].territory
  }

  /** The troops of an army that end on t. */
  ghost function TroopsTo(c: Context, v: View, end: Rules, t: TerritoryId): ArmyId -> int
  {
    (b: ArmyId) =>
      if b !in c.armies then 0
      else if b in end.dispersed && b in c.disperses then
        |set i: nat | i in Served(end, b) && i < |c.disperses[b].targets| && c.disperses[b].targets[i] == t|
        + if c.disperses[b].source == t then c.armies[b].size - |Served(end, b)| else 0
      else if EndPlace(c, v, end, b) == t then c.armies[b].size else 0
  }

  /** The armies of a player that were not driven out. */
  ghost function Undislodged(c: Context, v: View, p: PlayerId): set<ArmyId>
  {
    set b | b in c.armies && c.armies[b].owner == p && !Said(v, Dislodged(b))
  }

  /** The execution of a settled turn, on its field. */
  ghost predicate IsFieldOf(field: Field, c: Context, v: View)
  {
    SettledTurnOf(c, v) && field.c == c && field.f == Recorded(c, v) && field.Linked()
  }

  lemma {:induction false} OutsideAt(targets: seq<TerritoryId>, resolved: seq<bool>, t: TerritoryId, counts: TerritoryId -> bool)
    requires |targets| == |resolved| && forall u :: counts(u) <==> u == t
    ensures SentOutside(targets, resolved, {}, counts) == CountAt(targets, resolved, t)
  {
    if targets != [] { OutsideAt(targets[1..], resolved[1..], t, counts); }
  }

  /** A dispersion's troops on one place. */
  lemma SentThere(field: Field, m: ArmyId, t: TerritoryId)
    requires field.DispersalFits(m) && m in field.c.armies
    ensures var d, bits, q := field.c.disperses[m], field.end.dispersed[m].resolved, field.At(OwnerOf(field.c, m), t);
            field.Sent(m, q) == |SentAt(d.targets, bits, t)| + if d.source == t then field.c.armies[m].size - |TrueAt(bits)| else 0
  {
    var d, bits, q := field.c.disperses[m], field.end.dispersed[m].resolved, field.At(OwnerOf(field.c, m), t);
    OutsideAt(d.targets, bits, t, (u: TerritoryId) => q(OwnerOf(field.c, m), u));
    CountSent(d.targets, bits, t);
    CountIs(bits);
  }

  lemma PlaceRead(c: Context, v: View, f: CombatFacts, end: Rules, b: ArmyId)
    requires b in c.armies && (AttackMoves(c, f, b) <==> Moves(c, v, b))
    ensures FinalPlace(c, f, end, b) == EndPlace(c, v, end, b)
  {
  }

  lemma PlaceIs(field: Field, c: Context, v: View, b: ArmyId)
    requires IsFieldOf(field, c, v) && b in c.armies
    ensures FinalPlace(c, field.f, field.end, b) == EndPlace(c, v, field.end, b)
  {
    MovesRead(c, v, b);
    PlaceRead(c, v, field.f, field.end, b);
  }

  lemma DispersedContribution(field: Field, c: Context, v: View, b: ArmyId, t: TerritoryId)
    requires field.c == c && field.DispersalFits(b) && b in c.armies
    ensures field.Contribution(b, field.At(OwnerOf(c, b), t)) == TroopsTo(c, v, field.end, t)(b)
  {
    SentThere(field, b, t);
    assert SentAt(c.disperses[b].targets, field.end.dispersed[b].resolved, t)
        == set i: nat | i in Served(field.end, b) && i < |c.disperses[b].targets| && c.disperses[b].targets[i] == t;
  }

  lemma OtherContribution(field: Field, c: Context, v: View, b: ArmyId, t: TerritoryId)
    requires field.c == c && b !in field.end.dispersed && b in c.armies
    requires FinalPlace(c, field.f, field.end, b) == EndPlace(c, v, field.end, b)
    ensures field.Contribution(b, field.At(OwnerOf(c, b), t)) == TroopsTo(c, v, field.end, t)(b)
  {
  }

  lemma ContributionIs(field: Field, c: Context, v: View, b: ArmyId, t: TerritoryId)
    requires IsFieldOf(field, c, v) && b in field.Survivors()
    ensures field.Contribution(b, field.At(OwnerOf(c, b), t)) == TroopsTo(c, v, field.end, t)(b)
  {
    if b in field.end.dispersed {
      field.SoundFits(b);
      DispersedContribution(field, c, v, b, t);
    } else {
      PlaceIs(field, c, v, b);
      OtherContribution(field, c, v, b, t);
    }
  }

  lemma SurvivorIs(field: Field, c: Context, v: View, b: ArmyId)
    requires IsFieldOf(field, c, v) && b in c.armies
    ensures b in field.Survivors() <==> !Said(v, Dislodged(b))
  {
    RetreatingIff(c, v, b);
  }

  lemma {:induction false} SumOver(s: set<ArmyId>, part: set<ArmyId>, w: ArmyId -> int, u: ArmyId -> int)
    requires part <= s && (forall b :: b in part ==> w(b) == u(b)) && forall b :: b in s - part ==> w(b) == 0
    ensures Sum(s, w) == Sum(part, u)
    decreases s
  {
    if s != {} {
      var b := Least(s);
      if b in part {
        SumWithout(part, b, u);
        SumOver(s - {b}, part - {b}, w, u);
      } else {
        SumOver(s - {b}, part, w, u);
      }
    } else {
      assert part == {};
    }
  }

  /** The troops of a player that the turn puts on a place. */
  lemma ExpectedThere(field: Field, c: Context, v: View, p: PlayerId, t: TerritoryId)
    requires IsFieldOf(field, c, v)
    ensures field.Expected(field.At(p, t)) == Sum(Undislodged(c, v, p), TroopsTo(c, v, field.end, t))
  {
    forall b | b in field.Survivors()
      ensures field.Contribution(b, field.At(p, t)) == if b in Undislodged(c, v, p) then TroopsTo(c, v, field.end, t)(b) else 0
    {
      SurvivorIs(field, c, v, b);
      if OwnerOf(c, b) == p { ContributionIs(field, c, v, b, t); } else { field.ForeignContributes(b, p, t); }
    }
    forall b | b in Undislodged(c, v, p) ensures b in field.Survivors() {
      SurvivorIs(field, c, v, b);
    }
    SumOver(field.Survivors(), Undislodged(c, v, p), (b: ArmyId) => field.Contribution(b, field.At(p, t)), TroopsTo(c, v, field.end, t));
  }

  /** With one army a territory, what a player has there is the size of its army. */
  lemma OneThere(board: Board, k: ArmyId, q: Tally)
    requires OnePerTerritory(board) && k in board
    requires forall p: PlayerId, t: TerritoryId :: q(p, t) <==> p == board[k].owner && t == board[k].territory
    ensures Strength(board, q) == board[k].size
  {
    StrengthWithout(board, k, q);
    var rest := board - {k};
    forall j | j in rest ensures Weights(rest, q)(j) == 0 {
      assert j in board && board[j].territory != board[k].territory;
    }
    NothingWeighs(rest.Keys, Weights(rest, q));
  }

  lemma {:induction false} NothingWeighs(s: set<ArmyId>, w: ArmyId -> int)
    requires forall k :: k in s ==> w(k) == 0
    ensures Sum(s, w) == 0
    decreases s
  {
    if s != {} { NothingWeighs(s - {Least(s)}, w); }
  }

  /** Every army on the board has the troops its player's orders take to its place. */
  lemma ArmyIsWorth(field: Field, c: Context, v: View, board: Board, k: ArmyId)
    requires IsFieldOf(field, c, v) && OnePerTerritory(board) && k in board
    requires forall q: Tally :: Strength(board, q) == field.Expected(q)
    ensures board[k].size == Sum(Undislodged(c, v, board[k].owner), TroopsTo(c, v, field.end, board[k].territory))
  {
    var q := field.At(board[k].owner, board[k].territory);
    OneThere(board, k, q);
    ExpectedThere(field, c, v, board[k].owner, board[k].territory);
  }

  lemma WorthOf(field: Field, c: Context, v: View, board: Board)
    requires IsFieldOf(field, c, v) && OnePerTerritory(board) && forall q: Tally :: Strength(board, q) == field.Expected(q)
    ensures forall k :: k in board ==>
              board[k].size == Sum(Undislodged(c, v, board[k].owner), TroopsTo(c, v, field.end, board[k].territory))
  {
    forall k | k in board ensures board[k].size == Sum(Undislodged(c, v, board[k].owner), TroopsTo(c, v, field.end, board[k].territory)) {
      ArmyIsWorth(field, c, v, board, k);
    }
  }

  lemma {:induction false} SomeWeighs(s: set<ArmyId>, w: ArmyId -> int) returns (k: ArmyId)
    requires Sum(s, w) > 0
    ensures k in s && w(k) > 0
    decreases s
  {
    if w(Least(s)) > 0 { k := Least(s); } else { k := SomeWeighs(s - {Least(s)}, w); }
  }

  /** Where troops of a player end, an army of that player stands. */
  lemma TroopsStand(field: Field, c: Context, v: View, board: Board, p: PlayerId, t: TerritoryId) returns (k: ArmyId)
    requires IsFieldOf(field, c, v) && (forall q: Tally :: Strength(board, q) == field.Expected(q))
    requires Sum(Undislodged(c, v, p), TroopsTo(c, v, field.end, t)) > 0
    ensures k in board && board[k].owner == p && board[k].territory == t
  {
    ExpectedThere(field, c, v, p, t);
    k := SomeWeighs(board.Keys, Weights(board, field.At(p, t)));
  }
}
