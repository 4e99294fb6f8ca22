/** The recorded contest of a settled turn leaves combat as the rules expect it. */
module SettledCombat {
  import opened Wrappers
  import opened SortedIds
  import opened Turn
  import opened Facts
  import opened Peaceful
  import opened Combat
  import opened Greatest
  import opened Components
  import opened SettledTurn
  import opened Contests
  import opened Presences

  function Recorded(c: Context, v: View): CombatFacts
  {
    SettledFacts(ContestOf(c, v))
  }

  lemma MovesRead(c: Context, v: View, b: ArmyId)
    requires SettledTurnOf(c, v)
    ensures AttackMoves(c, Recorded(c, v), b) <==> Moves(c, v, b)
  {
    SameAttackMoves(c, v, b, b);
  }

  lemma GoneRead(c: Context, v: View, d: ArmyId)
    requires SettledTurnOf(c, v) && d in c.armies && c.attacks != map[]
    ensures Gone(c, Recorded(c, v), d) <==> !Stays(c, v, d) || Holds(v, Dislodged(d))
    ensures IsDislodged(c, Recorded(c, v), d) <==> Holds(v, Dislodged(d))
  {
    RetreatingIff(c, v, d);
    VacatedIff(c, v, d);
  }

  lemma MoverDriveOut(c: Context, v: View, b: ArmyId)
    requires SettledTurnOf(c, v) && b in c.attacks && Moves(c, v, b)
    ensures DefenderLeaves(c, Recorded(c, v), c.attacks[b].target)
  {
    var t := c.attacks[b].target;
    if OccupantAt(c, t).Some? {
      var d := OccupantAt(c, t).value;
      GoneRead(c, v, d);
      assert Dislodged(d) in Decisions(c);
      if Stays(c, v, d) { EnteredMeansGone(c, v, d, b); }
    }
  }

  lemma MoverCounts(c: Context, v: View, b: ArmyId)
    requires SettledTurnOf(c, v) && b in c.attacks && Moves(c, v, b)
    ensures MoverEntered(c, Recorded(c, v), b)
  {
    var t := c.attacks[b].target;
    MoverRecorded(c, v, b);
    MoverDriveOut(c, v, b);
    RetreatingIff(c, v, b);
    assert b in Attackers(c, t) && CountsAgainst(c, Recorded(c, v), t, b);
  }

  lemma NotPeacefulAttacked(c: Context, v: View, t: TerritoryId, o: ArmyId)
    requires SettledTurnOf(c, v) && OccupantAt(c, t) == Some(o) && Attackers(c, t) != {}
    ensures !IsPeaceful(c, o)
  {
    if IsPeaceful(c, o) { PeacefulNotDislodged(c, v, o); }
  }

  lemma AttackedRecorded(c: Context, v: View, t: TerritoryId)
    requires SettledTurnOf(c, v) && Attacked(c, Recorded(c, v), t)
    ensures AttackedSettled(c, Recorded(c, v), t)
  {
    var f := Recorded(c, v);
    var b :| b in Attackers(c, t) && b in f.contest.standing && CountsAgainst(c, f, t, b);
    if WinnerAt(c, f, t).Some? { WinnerRead(c, v, t); }
    if OccupantAt(c, t).Some? { AttackedOccupant(c, v, t, OccupantAt(c, t).value); }
  }

  lemma WinnerRead(c: Context, v: View, t: TerritoryId)
    requires SettledTurnOf(c, v) && WinnerAt(c, Recorded(c, v), t).Some?
    ensures var w := WinnerAt(c, Recorded(c, v), t).value; AttackMoves(c, Recorded(c, v), w) && c.attacks[w].target == t
  {
    WinnersMove(c, v, t);
    MovesRead(c, v, WinnerAt(c, Recorded(c, v), t).value);
  }

  /** An attacked army gave no peaceful order, and is gone only if it moved or was dislodged. */
  lemma AttackedOccupant(c: Context, v: View, t: TerritoryId, o: ArmyId)
    requires SettledTurnOf(c, v) && OccupantAt(c, t) == Some(o) && Attackers(c, t) != {} && c.attacks != map[]
    ensures !IsPeaceful(c, o)
    ensures DefenderLeaves(c, Recorded(c, v), t) ==> AttackMoves(c, Recorded(c, v), o) || IsDislodged(c, Recorded(c, v), o)
  {
    NotPeacefulAttacked(c, v, t, o);
    GoneRead(c, v, o);
    MovesRead(c, v, o);
  }

  lemma DislodgedAttacked(c: Context, v: View, o: ArmyId)
    requires SettledTurnOf(c, v) && IsDislodged(c, Recorded(c, v), o)
    ensures o in c.armies && Attacked(c, Recorded(c, v), c.armies[o].territory)
  {
    RetreatingArmies(c, v, o);
    RetreatingRead(c, v, o);
    var b :| b in Movers(c, v, c.armies[o].territory);
    MoverCounts(c, v, b);
  }

  /** A settled turn's record is a fought turn for the rules. */
  lemma SettledFought(c: Context, v: View)
    requires SettledTurnOf(c, v)
    ensures IsFought(c, Recorded(c, v))
  {
    var f := Recorded(c, v);
    forall b | AttackMoves(c, f, b) ensures MoverEntered(c, f, b) {
      MovesRead(c, v, b);
      MoverCounts(c, v, b);
    }
    forall t | Attacked(c, f, t) ensures AttackedSettled(c, f, t) {
      AttackedRecorded(c, v, t);
    }
    forall o | IsDislodged(c, f, o) ensures o in c.armies && Attacked(c, f, c.armies[o].territory) {
      DislodgedAttacked(c, v, o);
    }
  }
}
