/**
 The recorded combat of a settled turn: who won each territory, who must
 retreat, which attacks were called off, and the outcome of every attack. The
 join and dispersion rules read it when the movements are executed.
 */
module Contests {
  import opened Wrappers
  import opened SortedIds
  import opened Turn
  import opened Facts
  import opened Peaceful
  import opened Groups
  import opened FactReads
  import opened Combat
  import opened Greatest
  import opened Components
  import opened Locality
  import opened SettledTurn

  /** The attacks that enter a territory: those that move without having lost a head-to-head battle. */
  function Movers(c: Context, v: View, t: TerritoryId): set<ArmyId>
  {
    set b | b in Attackers(c, t) && Moves(c, v, b) && !RetiredGhost(c, v, b)
  }

  /** An attack on an ally that neither left nor was dislodged, unless the attacker is itself dislodged. */
  predicate CalledOff(c: Context, v: View, b: ArmyId)
    requires b in c.attacks
  {
    match OccupantAt(c, c.attacks[b].target)
    case None => false
    case Some(d) =>
      Stays(c, v, d) && !Holds(v, Dislodged(d)) && OwnerOf(c, d) == OwnerOf(c, b) && !Holds(v, Dislodged(b))
  }

  function StandingAttacks(c: Context, v: View): set<ArmyId>
  {
    set b | b in c.attacks && !CalledOff(c, v, b)
  }

  /** The territories whose combat is recorded, each with the attack that won it. */
  function RecordedWinners(c: Context, v: View): map<TerritoryId, ArmyId>
  {
    map t | t in (set b | b in StandingAttacks(c, v) :: c.attacks[b].target) && Movers(c, v, t) != {} :: Least(Movers(c, v, t))
  }

  /** What settledContest, removeAlliedDestinationAttacks and applyContestOutcomes leave; nothing without attacks. */
  function ContestOf(c: Context, v: View): Contest
  {
    if c.attacks == map[] then Contest({}, {}, {}, {}, {}, map[])
    else
      var standing := StandingAttacks(c, v);
      var winner := RecordedWinners(c, v);
      Contest(
        standing,
        set b | b in standing && !Holds(v, Dislodged(b)) && c.attacks[b].target in winner && winner[c.attacks[b].target] == b,
        set a | a in c.armies && Holds(v, Dislodged(a)),
        set d | d in c.armies && Stays(c, v, d) && Movers(c, v, c.armies[d].territory) != {},
        (set b | b in c.attacks && Moves(c, v, b)) + (set a | a in c.joins.Keys + c.disperses.Keys && Departs(c, v, a)),
        winner)
  }

  // ---------- the record agrees with the decisions

  /** A turn whose every decision is settled and justified. */
  ghost predicate SettledTurnOf(c: Context, v: View)
  {
    Prepared(c) && v.Keys == Decisions(c) && Justified(c, v)
  }

  lemma MoverEnters(c: Context, v: View, t: TerritoryId, b: ArmyId)
    requires SettledTurnOf(c, v)
    ensures b in Movers(c, v, t) <==> b in Attackers(c, t) && Moves(c, v, b)
  {
    if b in Attackers(c, t) && Moves(c, v, b) { MoverNotGhost(c, v, b); }
  }

  /** A mover faces no staying ally, stays undislodged, and its combat is recorded with it as winner. */
  lemma MoverRecorded(c: Context, v: View, b: ArmyId)
    requires SettledTurnOf(c, v) && b in c.attacks && Moves(c, v, b)
    ensures !Holds(v, Dislodged(b)) && b in StandingAttacks(c, v)
    ensures var t := c.attacks[b].target; t in RecordedWinners(c, v) && RecordedWinners(c, v)[t] == b
  {
    var t := c.attacks[b].target;
    if Holds(v, Dislodged(b)) { DislodgedByEnemy(c, v, b); }
    MoveJustified(c, v, b);
    assert b in StandingAttacks(c, v);
    MoverEnters(c, v, t, b);
    var first := Least(Movers(c, v, t));
    MoverEnters(c, v, t, first);
    OneWinner(c, v, t, b, first);
  }

  lemma WinnersMove(c: Context, v: View, t: TerritoryId)
    requires SettledTurnOf(c, v) && t in RecordedWinners(c, v)
    ensures RecordedWinners(c, v)[t] in Attackers(c, t) && Moves(c, v, RecordedWinners(c, v)[t])
  {
    MoverEnters(c, v, t, RecordedWinners(c, v)[t]);
  }

  /** The army whose departure is adjudicated is not attacked, so never dislodged. */
  lemma PeacefulNotDislodged(c: Context, v: View, a: ArmyId)
    requires SettledTurnOf(c, v) && IsPeaceful(c, a)
    ensures !Holds(v, Dislodged(a)) && Attackers(c, c.armies[a].territory) == {}
  {
    var source := if a in c.joins then c.joins[a].source else c.disperses[a].source;
    assert source == c.armies[a].territory;
    forall b | b in c.attacks ensures c.attacks[b].target != source {
    }
    if Holds(v, Dislodged(a)) { DislodgedJustified(c, v, a); }
  }

  /** An army is decided dislodged exactly when it stays where a recorded combat has a winner. */
  lemma DislodgedIffEntered(c: Context, v: View, d: ArmyId)
    requires SettledTurnOf(c, v) && d in c.armies
    ensures Holds(v, Dislodged(d)) <==> Stays(c, v, d) && Movers(c, v, c.armies[d].territory) != {}
  {
    var t := c.armies[d].territory;
    DislodgedJustified(c, v, d);
    if Movers(c, v, t) != {} {
      var b :| b in Movers(c, v, t);
      assert b in Attackers(c, t) && Moves(c, v, b);
    }
    if b :| b in Attackers(c, t) && Moves(c, v, b) {
      MoverEnters(c, v, t, b);
    }
  }

  lemma NoAttackNoDislodged(c: Context, v: View, d: ArmyId)
    requires SettledTurnOf(c, v) && d in c.armies && c.attacks == map[]
    ensures !Holds(v, Dislodged(d))
  {
    DislodgedJustified(c, v, d);
  }

  lemma RetreatingRead(c: Context, v: View, d: ArmyId)
    requires d in c.armies && c.attacks != map[]
    ensures d in ContestOf(c, v).retreating <==> Stays(c, v, d) && Movers(c, v, c.armies[d].territory) != {}
    ensures d in ContestOf(c, v).dislodged <==> Holds(v, Dislodged(d))
  {
  }

  lemma RetreatingIff(c: Context, v: View, d: ArmyId)
    requires SettledTurnOf(c, v) && d in c.armies
    ensures d in ContestOf(c, v).retreating <==> Holds(v, Dislodged(d))
    ensures d in ContestOf(c, v).dislodged <==> Holds(v, Dislodged(d))
  {
    if c.attacks == map[] {
      NoAttackNoDislodged(c, v, d);
    } else {
      DislodgedIffEntered(c, v, d);
      RetreatingRead(c, v, d);
    }
  }

  lemma RetreatingArmies(c: Context, v: View, d: ArmyId)
    ensures d in ContestOf(c, v).retreating || d in ContestOf(c, v).dislodged ==> d in c.armies
  {
  }

  /** The armies that retreat are the armies decided dislodged. */
  lemma RetreatingAreDislodged(c: Context, v: View)
    requires SettledTurnOf(c, v)
    ensures ContestOf(c, v).retreating == ContestOf(c, v).dislodged
  {
    forall d ensures d in ContestOf(c, v).retreating <==> d in ContestOf(c, v).dislodged {
      RetreatingArmies(c, v, d);
      if d in c.armies { RetreatingIff(c, v, d); }
    }
  }

  lemma SameDislodged(c: Context, v: View, a: ArmyId, o: ArmyId)
    requires SettledTurnOf(c, v) && IsPeaceful(c, a) && o in c.armies
    ensures IsDislodged(c, SettledFacts(ContestOf(c, v)), o) == IsDislodged(c, FactsFor(c, v, a, false), o) == Holds(v, Dislodged(o))
  {
    PeacefulNotDislodged(c, v, a);
    RetreatingIff(c, v, o);
  }

  lemma SameAttackMoves(c: Context, v: View, a: ArmyId, o: ArmyId)
    requires SettledTurnOf(c, v)
    ensures AttackMoves(c, SettledFacts(ContestOf(c, v)), o) == AttackMoves(c, FactsFor(c, v, a, false), o) == Moves(c, v, o)
  {
    if o in c.attacks { WonIff(c, v, o); }
  }

  /** An attack is recorded as won exactly when it moves. */
  lemma WonIff(c: Context, v: View, o: ArmyId)
    requires SettledTurnOf(c, v) && o in c.attacks
    ensures o in ContestOf(c, v).standing && o in ContestOf(c, v).won <==> Moves(c, v, o)
  {
    if Moves(c, v, o) { MoverRecorded(c, v, o); }
    if c.attacks[o].target in RecordedWinners(c, v) { WinnersMove(c, v, c.attacks[o].target); }
  }

  lemma GoneIs(c: Context, v: View, a: ArmyId, d: ArmyId)
    requires WellFormed(c) && d in c.armies && !Holds(v, Dislodged(a))
    ensures Gone(c, FactsFor(c, v, a, false), d) == (!Stays(c, v, d) || Holds(v, Dislodged(d)))
  {
  }

  lemma VacatedIff(c: Context, v: View, d: ArmyId)
    requires c.attacks != map[] && !(d in c.attacks && IsPeaceful(c, d))
    ensures d in ContestOf(c, v).vacated <==> !Stays(c, v, d)
  {
    var vacated := ContestOf(c, v).vacated;
    assert d in vacated <==> (d in c.attacks && Moves(c, v, d)) || (IsPeaceful(c, d) && Departs(c, v, d));
  }

  /** In a turn with attacks, both facts tell alike whether an army is gone. */
  lemma SameGone(c: Context, v: View, a: ArmyId, d: ArmyId)
    requires SettledTurnOf(c, v) && IsPeaceful(c, a) && d in c.armies && c.attacks != map[]
    ensures Gone(c, SettledFacts(ContestOf(c, v)), d) == Gone(c, FactsFor(c, v, a, false), d)
  {
    PeacefulNotDislodged(c, v, a);
    GoneIs(c, v, a, d);
    RetreatingIff(c, v, d);
    VacatedIff(c, v, d);
  }

  lemma SameAttacked(c: Context, v: View, a: ArmyId, t: TerritoryId)
    requires SettledTurnOf(c, v) && IsPeaceful(c, a)
    ensures Attacked(c, SettledFacts(ContestOf(c, v)), t) == Attacked(c, FactsFor(c, v, a, false), t)
  {
    if c.attacks != map[] {
      forall b | b in Attackers(c, t)
        ensures CountsAgainst(c, SettledFacts(ContestOf(c, v)), t, b) == CountsAgainst(c, FactsFor(c, v, a, false), t, b)
        ensures CountsAgainst(c, SettledFacts(ContestOf(c, v)), t, b) ==> b in ContestOf(c, v).standing
      {
        SameCounts(c, v, a, t, b);
      }
      SameAttackers(c, SettledFacts(ContestOf(c, v)), FactsFor(c, v, a, false), t);
    }
  }

  lemma SameCounts(c: Context, v: View, a: ArmyId, t: TerritoryId, b: ArmyId)
    requires SettledTurnOf(c, v) && IsPeaceful(c, a) && c.attacks != map[] && b in Attackers(c, t)
    ensures CountsAgainst(c, SettledFacts(ContestOf(c, v)), t, b) == CountsAgainst(c, FactsFor(c, v, a, false), t, b)
    ensures CountsAgainst(c, SettledFacts(ContestOf(c, v)), t, b) ==> b in ContestOf(c, v).standing
  {
    if OccupantAt(c, t).Some? {
      var d := OccupantAt(c, t).value;
      SameGone(c, v, a, d);
      RetreatingIff(c, v, d);
      VacatedIff(c, v, d);
    }
  }

  lemma SameAttackers(c: Context, k: CombatFacts, f: CombatFacts, t: TerritoryId)
    requires k.SettledFacts? && f.DecisionFacts?
    requires forall b :: b in Attackers(c, t) ==>
               CountsAgainst(c, k, t, b) == CountsAgainst(c, f, t, b) && (CountsAgainst(c, k, t, b) ==> b in k.contest.standing)
    ensures Attacked(c, k, t) == Attacked(c, f, t)
  {
  }

  lemma SameWinner(c: Context, v: View, a: ArmyId, t: TerritoryId)
    requires SettledTurnOf(c, v) && IsPeaceful(c, a)
    ensures WinnerAt(c, SettledFacts(ContestOf(c, v)), t) == WinnerAt(c, FactsFor(c, v, a, false), t)
  {
    var movers := set b | b in Attackers(c, t) && Moves(c, v, b);
    WinnerOf(c, v, t, movers);
    WinnerRecorded(c, v, t);
  }

  lemma WinnerRecorded(c: Context, v: View, t: TerritoryId)
    ensures WinnerAt(c, SettledFacts(ContestOf(c, v)), t) == if t in RecordedWinners(c, v) then Some(RecordedWinners(c, v)[t]) else None
  {
  }

  lemma WinnerOf(c: Context, v: View, t: TerritoryId, movers: set<ArmyId>)
    requires SettledTurnOf(c, v) && movers == set b | b in Attackers(c, t) && Moves(c, v, b)
    ensures t in RecordedWinners(c, v) <==> movers != {}
    ensures movers != {} ==> t in RecordedWinners(c, v) && RecordedWinners(c, v)[t] == Least(movers)
  {
    if movers != {} { MoverRecorded(c, v, Least(movers)); }
    if t in RecordedWinners(c, v) { WinnersMove(c, v, t); }
  }

  lemma SameAt(c: Context, v: View, a: ArmyId, t: TerritoryId)
    requires SettledTurnOf(c, v) && IsPeaceful(c, a)
    ensures AgreeAt(c, SettledFacts(ContestOf(c, v)), FactsFor(c, v, a, false), t)
  {
    SameAttacked(c, v, a, t);
    SameWinner(c, v, a, t);
    if OccupantAt(c, t).Some? {
      var o := OccupantAt(c, t).value;
      SameAttackMoves(c, v, a, o);
      SameDislodged(c, v, a, o);
      if c.attacks != map[] { SameGone(c, v, a, o); }
    }
  }

  /** The recorded contest answers the rules as the settled decisions do. */
  lemma RecordAgrees(c: Context, v: View, a: ArmyId)
    requires SettledTurnOf(c, v) && IsPeaceful(c, a)
    ensures Agree(c, SettledFacts(ContestOf(c, v)), FactsFor(c, v, a, false))
  {
    forall b | IsPeaceful(c, b) ensures IsDislodged(c, SettledFacts(ContestOf(c, v)), b) == IsDislodged(c, FactsFor(c, v, a, false), b) {
      SameDislodged(c, v, a, b);
    }
    forall t | t in AllTouched(c) ensures AgreeAt(c, SettledFacts(ContestOf(c, v)), FactsFor(c, v, a, false), t) {
      SameAt(c, v, a, t);
    }
  }

  // ---------- departures and execution

  lemma InOwnGroup(c: Context, a: ArmyId)
    requires WellFormed(c) && IsPeaceful(c, a)
    ensures a in Inside(c, GroupTerritories(c, a)) && IsPart(c, GroupTerritories(c, a))
  {
    var s := GroupTerritories(c, a);
    assert Touched(c, a) <= s;
    if a in c.joins { assert c.joins[a].source in Touched(c, a); } else { assert c.disperses[a].source in Touched(c, a); }
  }

  lemma SameOutcomeIn(c: Context, s: set<TerritoryId>, st: Rules, a: ArmyId)
    requires IsPart(c, s) && a in Inside(c, s)
    ensures OutcomeIn(Restricted(c, s), Cut(st, Inside(c, s)), a) == OutcomeIn(c, st, a)
  {
    MemberInside(c, s, a);
    if a in c.disperses { VacatesInside(c, s, st, a); }
  }

  /** Adjudicating a departure on its group gives what running the rules on the whole turn gives. */
  lemma GroupSuffices(c: Context, v: View, a: ArmyId, leaving: bool)
    requires WellFormed(c) && IsPeaceful(c, a)
    ensures OutcomeOfPeaceful(c, v, a, leaving) == OutcomeIn(c, RunRules(c, FactsFor(c, v, a, leaving)), a)
  {
    var s, f := GroupTerritories(c, a), FactsFor(c, v, a, leaving);
    InOwnGroup(c, a);
    RunInside(c, s, f);
    SameOutcomeIn(c, s, RunRules(c, f), a);
  }

  /**
   Executing joins and dispersions on the recorded contest empties exactly the
   origins settled as departures.
   */
  lemma ExecutionMatchesDepartures(c: Context, v: View, a: ArmyId)
    requires Prepared(c) && v.Keys == Decisions(c) && Consistent(c, v) && IsPeaceful(c, a)
    ensures OutcomeIn(c, RunRules(c, SettledFacts(ContestOf(c, v))), a).departs <==> Holds(v, Departure(a))
  {
    AllReadsClosed(c);
    SameExecution(c, v, a);
    GroupSuffices(c, v, a, false);
    DepartureSettled(c, v, a);
  }

  lemma DepartureSettled(c: Context, v: View, a: ArmyId)
    requires v.Keys == Decisions(c) && Consistent(c, v) && IsPeaceful(c, a)
    ensures Holds(v, Departure(a)) == OutcomeOfPeaceful(c, v, a, false).departs
  {
    assert Departure(a) in Decisions(c);
    assert v[Departure(a)] == Adjudicate(c, v, Departure(a));
  }

  /** The rules run alike on the record and on the decisions. */
  lemma SameExecution(c: Context, v: View, a: ArmyId)
    requires SettledTurnOf(c, v) && IsPeaceful(c, a)
    ensures RunRules(c, SettledFacts(ContestOf(c, v))) == RunRules(c, FactsFor(c, v, a, false))
  {
    RecordAgrees(c, v, a);
    SameRun(c, SettledFacts(ContestOf(c, v)), FactsFor(c, v, a, false));
  }
}
