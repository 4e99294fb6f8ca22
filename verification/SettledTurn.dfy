/**
 What every settled turn satisfies, whatever its orders, and what the greatest
 resolution grants.
 */
module SettledTurn {
  import opened Wrappers
  import opened SortedIds
  import opened Turn
  import opened Combat
  import opened Dependencies
  import opened Greatest
  import opened CycleSearch
  import opened Components
  import T = Tarjan

  lemma MoveJustified(c: Context, v: View, a: ArmyId)
    requires Justified(c, v) && Moves(c, v, a)
    ensures AdjudicateMove(c, v, a)
  {
    assert Adjudicate(c, v, Move(a));
  }

  /** An attack brings at most its full force. */
  lemma StrengthBounded(c: Context, v: View, a: ArmyId)
    requires a in c.attacks
    ensures MoveStrength(c, v, a) <= AttackForce(c, v, a)
  {
    if DefenderStays(c, v, c.attacks[a].target) {
      OwnForceBounded(c, v, a, OwnerOf(c, OccupantAt(c, c.attacks[a].target).value));
    }
  }

  /** Two armies attacking each other never both move. */
  lemma NeverSwap(c: Context, v: View, a: ArmyId, b: ArmyId)
    requires WellFormed(c) && Justified(c, v) && a in c.attacks && b in c.attacks
    requires c.attacks[a].target == c.attacks[b].source && c.attacks[b].target == c.attacks[a].source
    ensures !(Moves(c, v, a) && Moves(c, v, b))
  {
    assert OccupantAt(c, c.attacks[a].target) == Some(b) && OccupantAt(c, c.attacks[b].target) == Some(a);
    if Moves(c, v, a) && Moves(c, v, b) {
      MoveJustified(c, v, a);
      MoveJustified(c, v, b);
      BothWinHeadToHead(c, v, a, b);
    }
  }

  lemma BothWinHeadToHead(c: Context, v: View, a: ArmyId, b: ArmyId)
    requires a in c.attacks && b in c.attacks
    ensures !(WinsHeadToHead(c, v, a, b) && WinsHeadToHead(c, v, b, a))
  {
  }

  /** An attack that moves is not a ghost: its head-to-head opponent stayed. */
  lemma MoverNotGhost(c: Context, v: View, a: ArmyId)
    requires WellFormed(c) && Justified(c, v) && Moves(c, v, a)
    ensures !RetiredGhost(c, v, a)
  {
    if HeadToHead(c, a) {
      var d := OccupantAt(c, c.attacks[a].target).value;
      assert c.armies[d].territory == c.attacks[a].target;
      NeverSwap(c, v, a, d);
    }
  }

  /** An attack that moves is stronger than every other one on its destination that is not a ghost. */
  lemma MoverStronger(c: Context, v: View, t: TerritoryId, a: ArmyId, b: ArmyId)
    requires Justified(c, v) && a in Attackers(c, t) && b in Attackers(c, t) && a != b
    requires Moves(c, v, a) && !RetiredGhost(c, v, b)
    ensures AttackForce(c, v, a) > AttackForce(c, v, b)
  {
    MoveJustified(c, v, a);
    StrengthBounded(c, v, a);
    assert YieldsTo(c, v, b, MoveStrength(c, v, a));
  }

  /** At most one attack enters a territory. */
  lemma OneWinner(c: Context, v: View, t: TerritoryId, a: ArmyId, b: ArmyId)
    requires WellFormed(c) && Justified(c, v) && a in Attackers(c, t) && b in Attackers(c, t)
    requires Moves(c, v, a) && Moves(c, v, b)
    ensures a == b
  {
    MoverNotGhost(c, v, a);
    MoverNotGhost(c, v, b);
    if a != b {
      MoverStronger(c, v, t, a, b);
      MoverStronger(c, v, t, b, a);
    }
  }

  /** A dislodged army stayed, and exactly one attack, not of its owner, drove it out. */
  lemma DislodgedByEnemy(c: Context, v: View, d: ArmyId)
    requires WellFormed(c) && Justified(c, v) && d in c.armies && Holds(v, Dislodged(d))
    ensures Stays(c, v, d)
    ensures exists b :: b in Attackers(c, c.armies[d].territory) && Moves(c, v, b) && OwnerOf(c, b) != OwnerOf(c, d)
    ensures forall b :: b in Attackers(c, c.armies[d].territory) && Moves(c, v, b) ==> OwnerOf(c, b) != OwnerOf(c, d)
  {
    var t := c.armies[d].territory;
    assert Adjudicate(c, v, Dislodged(d));
    forall b | b in Attackers(c, t) && Moves(c, v, b) ensures OwnerOf(c, b) != OwnerOf(c, d) {
      MoveJustified(c, v, b);
      assert OccupantAt(c, t) == Some(d);
    }
  }

  /** An army that stays where an attack enters is dislodged. */
  lemma EnteredMeansGone(c: Context, v: View, d: ArmyId, b: ArmyId)
    requires Justified(c, v) && d in c.armies && Dislodged(d) in v
    requires b in Attackers(c, c.armies[d].territory) && Moves(c, v, b) && Stays(c, v, d)
    ensures Holds(v, Dislodged(d))
  {
    assert AdjudicateDislodged(c, v, d);
    DislodgedJustified(c, v, d);
  }

  lemma DislodgedJustified(c: Context, v: View, d: ArmyId)
    requires Justified(c, v) && Dislodged(d) in v
    ensures Holds(v, Dislodged(d)) == AdjudicateDislodged(c, v, d)
  {
    assert v[Dislodged(d)] == Adjudicate(c, v, Dislodged(d));
  }

  // ---------- independence of the search order

  /** A total consistent resolution in which every other one's attacks succeed too. */
  ghost predicate IsGreatest(c: Context, v: View)
  {
    && v.Keys == Decisions(c) && Consistent(c, v)
    && forall w: View :: w.Keys == Decisions(c) && Consistent(c, w) ==>
         forall a :: a in c.attacks && w[Move(a)] ==> v[Move(a)]
  }

  lemma AllReadsClosed(c: Context)
    requires WellFormed(c)
    ensures ReadsClosed(c, Decisions(c))
  {
    forall d | d in Decisions(c) ensures Reads(c, d) <= Decisions(c) {
      ReadsAreDecisions(c, d);
    }
  }

  lemma GreatestIsGreatest(c: Context)
    requires Prepared(c)
    ensures IsGreatest(c, GreatestResolution(c))
  {
    var g := GreatestResolution(c);
    AllReadsClosed(c);
    GreatestConsistent(c);
    forall w: View, a: ArmyId | w.Keys == Decisions(c) && Consistent(c, w) && a in c.attacks && w[Move(a)] ensures g[Move(a)] {
      assert Move(a) in Decisions(c);
      ConsistentBelowGreatest(c, w, Decisions(c));
      assert Holds(w, Move(a));
    }
  }

  lemma SameMovesEqual(c: Context, v: View, w: View)
    requires Prepared(c) && v.Keys == Decisions(c) && w.Keys == Decisions(c) && Consistent(c, v) && Consistent(c, w)
    requires forall a :: a in c.attacks ==> v[Move(a)] == w[Move(a)]
    ensures v == w
  {
    AllReadsClosed(c);
    forall a | Move(a) in Decisions(c) ensures Holds(v, Move(a)) == Holds(w, Move(a)) {
      assert a in c.attacks;
    }
    SameMovesSameResolution(c, v, w, Decisions(c));
    forall d | d in Decisions(c) ensures v[d] == w[d] {
      assert Holds(v, d) == Holds(w, d);
    }
  }

  /** Being greatest determines every decision: no order of search matters. */
  lemma GreatestUnique(c: Context, v: View)
    requires Prepared(c)
    ensures IsGreatest(c, v) <==> v == GreatestResolution(c)
  {
    var g := GreatestResolution(c);
    GreatestIsGreatest(c);
    if IsGreatest(c, v) {
      GreatestConsistent(c);
      forall a | a in c.attacks ensures v[Move(a)] == g[Move(a)] {
        assert Move(a) in Decisions(c);
      }
      SameMovesEqual(c, v, g);
    }
  }

  // ---------- rotations

  /** Attacks in a ring, each on the territory of the next, contested by no other attack. */
  ghost predicate IsRotation(c: Context, ring: seq<ArmyId>)
  {
    && |ring| >= 3 && (forall i, j :: 0 <= i < j < |ring| ==> ring[i] != ring[j])
    && forall i :: 0 <= i < |ring| ==>
         && ring[i] in c.attacks && ring[i] in c.armies && ring[Successor(i, |ring|)] in c.armies
         && c.attacks[ring[i]].target == c.armies[ring[Successor(i, |ring|)]].territory
         && Attackers(c, c.attacks[ring[i]].target) == {ring[i]}
  }

  /** What an attack must exceed on a vacated destination. */
  function WallsAgainst(c: Context, a: ArmyId): nat
    requires a in c.attacks
  {
    var t := c.attacks[a].target;
    if a !in c.tunneled && !CastleOwnedByAllAttackers(c, t) then FortificationBonus(c, t) else 0
  }

  /** The force of an attack in the turn: with the grounded attacks settled, nothing else bears on its supports. */
  ghost function ForceInTurn(c: Context, a: ArmyId): nat
    requires a in c.attacks
  {
    AttackForce(c, CombatView(c, Fixed(c)), a)
  }

  /** Every consistent resolution gives an attack that force. */
  lemma ForceOfTurn(c: Context, v: View, a: ArmyId)
    requires Prepared(c) && v.Keys == Decisions(c) && Consistent(c, v) && a in c.attacks
    ensures AttackForce(c, v, a) == ForceInTurn(c, a)
  {
    AllReadsClosed(c);
    var x := MovesWithin(c, v, Decisions(c));
    WithinNoStayingAlly(c, v, Decisions(c));
    forall b | b in c.attacks ensures b in x <==> b in Winners(c, x) {
      assert Move(b) in Decisions(c);
      WithinSameMove(c, v, Decisions(c), b);
    }
    WinnersAnchored(c, x);
    assert Winners(c, x) == x;
    ForcesConstant(c, x, Fixed(c), a, true);
    MoveReadsNoDeparture(c, a);
    ReadsAreDecisions(c, Move(a));
    assert SupportReads(c, a, true) <= MoveReads(c, a) <= Decisions(c);
    WithinAgreesOn(c, v, Decisions(c), SupportReads(c, a, true));
    SameSupports(c, v, CombatView(c, x), a, true);
  }

  /** An attack whose only obstacle left moves if it beats the walls. */
  lemma VacatedEntered(c: Context, v: View, a: ArmyId)
    requires a in c.attacks && AttackForce(c, v, a) > WallsAgainst(c, a) && !HeadToHead(c, a)
    requires !DefenderStays(c, v, c.attacks[a].target) && Attackers(c, c.attacks[a].target) == {a}
    ensures AdjudicateMove(c, v, a)
  {
  }

  lemma RotationNotHeadToHead(c: Context, ring: seq<ArmyId>, i: nat)
    requires WellFormed(c) && IsRotation(c, ring) && i < |ring|
    ensures !HeadToHead(c, ring[i])
  {
    var k := Successor(i, |ring|);
    var a, d := ring[i], ring[k];
    assert OccupantAt(c, c.attacks[a].target) == Some(d);
    assert c.attacks[d].target == c.armies[ring[Successor(k, |ring|)]].territory;
    assert ring[Successor(k, |ring|)] != a;
  }

  lemma RotationMemberMoves(c: Context, ring: seq<ArmyId>, x: set<ArmyId>, i: nat)
    requires WellFormed(c) && IsRotation(c, ring) && forall j :: 0 <= j < |ring| ==> ring[j] in x
    requires i < |ring| && AttackForce(c, CombatView(c, x), ring[i]) > WallsAgainst(c, ring[i])
    ensures ring[i] in Winners(c, x)
  {
    CombatViewAt(c, x);
    assert OccupantAt(c, c.attacks[ring[i]].target) == Some(ring[Successor(i, |ring|)]);
    RotationNotHeadToHead(c, ring, i);
    VacatedEntered(c, CombatView(c, x), ring[i]);
  }

  /** An uncontested rotation of any length whose forces beat any fortification succeeds. */
  lemma RotationSucceeds(c: Context, ring: seq<ArmyId>)
    requires Prepared(c) && IsRotation(c, ring)
    requires forall i :: 0 <= i < |ring| ==> ForceInTurn(c, ring[i]) > WallsAgainst(c, ring[i])
    ensures forall i :: 0 <= i < |ring| ==> Holds(GreatestResolution(c), Move(ring[i]))
  {
    var members := set i | 0 <= i < |ring| :: ring[i];
    var x := Fixed(c) + members;
    RotationAnchored(c, ring, x);
    MostMovesSelfSupporting(c);
    assert SelfSupporting(c, x) by {
      forall a | a in x ensures a in Winners(c, x) {
        if i :| 0 <= i < |ring| && ring[i] == a {
          ForcesConstant(c, x, Fixed(c), a, true);
          RotationMemberMoves(c, ring, x, i);
        } else {
          AnchoredNoStayingAlly(c, x);
          GroundedConstant(c, x, a);
        }
      }
    }
    forall i | 0 <= i < |ring| ensures Holds(GreatestResolution(c), Move(ring[i])) {
      assert ring[i] in members;
      assert Move(ring[i]) in Decisions(c);
    }
  }

  lemma RotationAnchored(c: Context, ring: seq<ArmyId>, x: set<ArmyId>)
    requires Prepared(c) && IsRotation(c, ring) && x == Fixed(c) + (set i | 0 <= i < |ring| :: ring[i])
    ensures Anchored(c, x)
  {
    forall i | 0 <= i < |ring| ensures !Grounded(c, ring[i]) {
      assert OccupantAt(c, c.attacks[ring[i]].target) == Some(ring[Successor(i, |ring|)]);
    }
  }
}
