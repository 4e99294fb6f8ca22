/**
 Which decisions the adjudication of a decision may read, whatever the values
 involved, and the proof that nothing else matters to it.
 */
module Dependencies {
  import opened Wrappers
  import opened SortedIds
  import opened Turn
  import opened Facts
  import opened Peaceful
  import opened Groups
  import opened FactReads
  import opened FactQueries
  import opened Combat

  function StayReads(c: Context, a: ArmyId): set<Decision>
  {
    if a in c.attacks then {Move(a)} else if IsPeaceful(c, a) then {Departure(a)} else {}
  }

  function SupportReads(c: Context, a: ArmyId, offensive: bool): set<Decision>
  {
    set s | s in StandingSupports(c, a, offensive) :: Dislodged(s)
  }

  function AttackReads(c: Context, t: TerritoryId): set<Decision>
  {
    set b | b in Attackers(c, t) :: Move(b)
  }

  function TerritoryReads(c: Context, t: TerritoryId): set<Decision>
  {
    AttackReads(c, t) +
    match OccupantAt(c, t)
    case None => {}
    case Some(o) => StayReads(c, o) + {Dislodged(o)}
  }

  /** Everything combat may tell the rules of the group of an army. */
  function GroupReads(c: Context, a: ArmyId): set<Decision>
  {
    (set b | b in GroupArmies(c, a) :: Dislodged(b))
    + (set t, d | t in AllTouched(Scratch(c, a)) && d in TerritoryReads(c, t) :: d)
  }

  /** What attack a may read about the army d on its destination. */
  function DefenderReads(c: Context, a: ArmyId, d: ArmyId): set<Decision>
    requires a in c.attacks
  {
    StayReads(c, d)
    + (if HeadToHead(c, a) then SupportReads(c, d, true) else {})
    + SupportReads(c, d, false)
    + (if IsPeaceful(c, d) then {Dislodged(d)} + GroupReads(c, d) else {})
  }

  function RivalReads(c: Context, t: TerritoryId): set<Decision>
  {
    set b, r | b in Attackers(c, t) && r in SupportReads(c, b, true) :: r
  }

  function MoveReads(c: Context, a: ArmyId): set<Decision>
    requires a in c.attacks
  {
    var t := c.attacks[a].target;
    var forDefender := match OccupantAt(c, t) case None => {} case Some(d) => DefenderReads(c, a, d);
    SupportReads(c, a, true) + forDefender + RivalReads(c, t)
  }

  function DislodgedReads(c: Context, a: ArmyId): set<Decision>
  {
    if a in c.armies && Attackers(c, c.armies[a].territory) != {}
    then StayReads(c, a) + AttackReads(c, c.armies[a].territory)
    else {}
  }

  function Reads(c: Context, d: Decision): set<Decision>
  {
    match d
    case Move(a) => if a in c.attacks then MoveReads(c, a) else {}
    case Departure(a) => GroupReads(c, a)
    case Dislodged(a) => DislodgedReads(c, a)
  }

  lemma StayReadsAreDecisions(c: Context, a: ArmyId)
    ensures StayReads(c, a) <= Decisions(c)
  {
  }

  lemma SupportReadsAreDecisions(c: Context, a: ArmyId, offensive: bool)
    requires WellFormed(c)
    ensures SupportReads(c, a, offensive) <= Decisions(c)
  {
  }

  lemma TerritoryReadsAreDecisions(c: Context, t: TerritoryId)
    requires WellFormed(c)
    ensures TerritoryReads(c, t) <= Decisions(c)
  {
    if OccupantAt(c, t).Some? { StayReadsAreDecisions(c, OccupantAt(c, t).value); }
  }

  lemma GroupReadsAreDecisions(c: Context, a: ArmyId)
    requires WellFormed(c)
    ensures GroupReads(c, a) <= Decisions(c)
  {
    forall t ensures TerritoryReads(c, t) <= Decisions(c) {
      TerritoryReadsAreDecisions(c, t);
    }
    forall b | b in GroupArmies(c, a) ensures Dislodged(b) in Decisions(c) {
      assert b in c.joins || b in c.disperses;
    }
  }

  lemma RivalReadsAreDecisions(c: Context, t: TerritoryId)
    requires WellFormed(c)
    ensures RivalReads(c, t) <= Decisions(c)
  {
    forall r | r in RivalReads(c, t) ensures r in Decisions(c) {
      var b :| b in Attackers(c, t) && r in SupportReads(c, b, true);
      SupportReadsAreDecisions(c, b, true);
    }
  }

  lemma DefenderReadsAreDecisions(c: Context, a: ArmyId, d: ArmyId)
    requires WellFormed(c) && a in c.attacks && d in c.armies
    ensures DefenderReads(c, a, d) <= Decisions(c)
  {
    StayReadsAreDecisions(c, d);
    SupportReadsAreDecisions(c, d, true);
    SupportReadsAreDecisions(c, d, false);
    GroupReadsAreDecisions(c, d);
    assert Dislodged(d) in Decisions(c);
  }

  lemma MoveReadsAreDecisions(c: Context, a: ArmyId)
    requires WellFormed(c) && a in c.attacks
    ensures MoveReads(c, a) <= Decisions(c)
  {
    SupportReadsAreDecisions(c, a, true);
    RivalReadsAreDecisions(c, c.attacks[a].target);
    if OccupantAt(c, c.attacks[a].target).Some? {
      DefenderReadsAreDecisions(c, a, OccupantAt(c, c.attacks[a].target).value);
    }
  }

  /** Dependencies of a turn's decision are decisions of the turn. */
  lemma ReadsAreDecisions(c: Context, d: Decision)
    requires WellFormed(c)
    ensures Reads(c, d) <= Decisions(c)
  {
    match d
    case Move(a) => if a in c.attacks { MoveReadsAreDecisions(c, a); }
    case Departure(a) => GroupReadsAreDecisions(c, a);
    case Dislodged(a) => StayReadsAreDecisions(c, a);
  }

  /** Two views agree on some decisions. */
  ghost predicate SameOn(v: View, w: View, s: set<Decision>)
  {
    forall d :: d in s ==> Holds(v, d) == Holds(w, d)
  }

  lemma SameSupports(c: Context, v: View, w: View, a: ArmyId, offensive: bool)
    requires SameOn(v, w, SupportReads(c, a, offensive))
    ensures CountedSupports(c, v, a, offensive) == CountedSupports(c, w, a, offensive)
  {
    forall s | s in StandingSupports(c, a, offensive) ensures Holds(v, Dislodged(s)) == Holds(w, Dislodged(s)) {
      assert Dislodged(s) in SupportReads(c, a, offensive);
    }
  }

  lemma SameStays(c: Context, v: View, w: View, a: ArmyId)
    requires SameOn(v, w, StayReads(c, a))
    ensures Stays(c, v, a) == Stays(c, w, a) && Moves(c, v, a) == Moves(c, w, a)
  {
    if a in c.attacks {
      assert Move(a) in StayReads(c, a);
    } else if IsPeaceful(c, a) {
      assert Departure(a) in StayReads(c, a);
    }
  }

  /** Two contexts that differ in their peaceful orders only. */
  ghost predicate SameCombat(c: Context, sc: Context)
  {
    c.armies == sc.armies && c.armyAt == sc.armyAt && c.attacks == sc.attacks
  }

  lemma SameGone(c: Context, v: View, w: View, sc: Context, subject: ArmyId, leaving: bool, t: TerritoryId, o: ArmyId)
    requires SameCombat(c, sc) && OccupantAt(c, t) == Some(o) && SameOn(v, w, TerritoryReads(c, t))
    ensures var f, g := FactsFor(c, v, subject, leaving), FactsFor(c, w, subject, leaving);
            && Gone(sc, f, o) == Gone(sc, g, o)
            && IsDislodged(sc, f, o) == IsDislodged(sc, g, o)
            && AttackMoves(sc, f, o) == AttackMoves(sc, g, o)
  {
    assert Dislodged(o) in TerritoryReads(c, t);
    assert StayReads(c, o) <= TerritoryReads(c, t);
    SameStays(c, v, w, o);
  }

  lemma SameWinner(c: Context, v: View, w: View, sc: Context, subject: ArmyId, leaving: bool, t: TerritoryId)
    requires SameCombat(c, sc) && SameOn(v, w, TerritoryReads(c, t))
    ensures WinnerAt(sc, FactsFor(c, v, subject, leaving), t) == WinnerAt(sc, FactsFor(c, w, subject, leaving), t)
  {
    forall b | b in Attackers(sc, t) ensures Moves(sc, v, b) == Moves(sc, w, b) {
      assert b in Attackers(c, t);
      assert Move(b) in AttackReads(c, t);
    }
    assert (set a | a in Attackers(sc, t) && Moves(sc, v, a)) == (set a | a in Attackers(sc, t) && Moves(sc, w, a));
  }

  lemma SameFactsAt(c: Context, v: View, w: View, sc: Context, subject: ArmyId, leaving: bool, t: TerritoryId)
    requires SameCombat(c, sc) && SameOn(v, w, TerritoryReads(c, t))
    ensures AgreeAt(sc, FactsFor(c, v, subject, leaving), FactsFor(c, w, subject, leaving), t)
  {
    SameWinner(c, v, w, sc, subject, leaving, t);
    if OccupantAt(c, t).Some? {
      SameGone(c, v, w, sc, subject, leaving, t, OccupantAt(c, t).value);
    }
  }

  lemma SameOutcome(c: Context, v: View, w: View, a: ArmyId, leaving: bool)
    requires WellFormed(c) && IsPeaceful(c, a) && SameOn(v, w, GroupReads(c, a))
    ensures OutcomeOfPeaceful(c, v, a, leaving) == OutcomeOfPeaceful(c, w, a, leaving)
  {
    var sc := Scratch(c, a);
    var f, g := FactsFor(c, v, a, leaving), FactsFor(c, w, a, leaving);
    forall b | IsPeaceful(sc, b) ensures IsDislodged(sc, f, b) == IsDislodged(sc, g, b) {
      assert b in GroupArmies(c, a);
      assert Dislodged(b) in GroupReads(c, a);
    }
    forall t | t in AllTouched(sc) ensures AgreeAt(sc, f, g, t) {
      forall d | d in TerritoryReads(c, t) ensures Holds(v, d) == Holds(w, d) {
        assert d in GroupReads(c, a);
      }
      SameFactsAt(c, v, w, sc, a, leaving, t);
    }
    SameRun(sc, f, g);
  }

  lemma SameHold(c: Context, v: View, w: View, d: ArmyId, t: TerritoryId)
    requires WellFormed(c) && SameOn(v, w, SupportReads(c, d, false))
    requires IsPeaceful(c, d) ==> SameOn(v, w, {Dislodged(d)} + GroupReads(c, d))
    ensures HoldStrength(c, v, d, t) == HoldStrength(c, w, d, t)
  {
    SameSupports(c, v, w, d, false);
    if IsPeaceful(c, d) {
      assert Dislodged(d) in {Dislodged(d)} + GroupReads(c, d);
      SameOutcome(c, v, w, d, Holds(v, Dislodged(d)));
    }
  }

  lemma SameForces(c: Context, v: View, w: View, t: TerritoryId, b: ArmyId)
    requires b in Attackers(c, t) && SameOn(v, w, RivalReads(c, t))
    ensures AttackForce(c, v, b) == AttackForce(c, w, b)
  {
    forall r | r in SupportReads(c, b, true) ensures r in RivalReads(c, t) {
    }
    SameSupports(c, v, w, b, true);
  }

  lemma SameGhosts(c: Context, v: View, w: View, t: TerritoryId, b: ArmyId)
    requires b in Attackers(c, t)
    requires forall d :: OccupantAt(c, t) == Some(d) ==> SameOn(v, w, StayReads(c, d))
    ensures RetiredGhost(c, v, b) == RetiredGhost(c, w, b)
  {
    if OccupantAt(c, t).Some? { SameStays(c, v, w, OccupantAt(c, t).value); }
  }

  lemma SameAgainstDefender(c: Context, v: View, w: View, a: ArmyId, d: ArmyId)
    requires WellFormed(c) && a in c.attacks && OccupantAt(c, c.attacks[a].target) == Some(d)
    requires SameOn(v, w, SupportReads(c, a, true)) && SameOn(v, w, DefenderReads(c, a, d))
    ensures HeadToHead(c, a) ==> WinsHeadToHead(c, v, a, d) == WinsHeadToHead(c, w, a, d)
    ensures Stays(c, v, d) == Stays(c, w, d) && Moves(c, v, d) == Moves(c, w, d)
    ensures HoldStrength(c, v, d, c.attacks[a].target) == HoldStrength(c, w, d, c.attacks[a].target)
  {
    var covered := DefenderReads(c, a, d);
    SameSupports(c, v, w, a, true);
    assert StayReads(c, d) <= covered;
    SameStays(c, v, w, d);
    if HeadToHead(c, a) {
      assert SupportReads(c, d, true) <= covered;
      SameSupports(c, v, w, d, true);
    }
    assert SupportReads(c, d, false) <= covered;
    assert IsPeaceful(c, d) ==> {Dislodged(d)} + GroupReads(c, d) <= covered;
    SameHold(c, v, w, d, c.attacks[a].target);
  }

  lemma SameStrength(c: Context, v: View, w: View, a: ArmyId)
    requires a in c.attacks && SameOn(v, w, SupportReads(c, a, true))
    requires forall d :: OccupantAt(c, c.attacks[a].target) == Some(d) ==> Stays(c, v, d) == Stays(c, w, d)
    ensures DefenderStays(c, v, c.attacks[a].target) == DefenderStays(c, w, c.attacks[a].target)
    ensures MoveStrength(c, v, a) == MoveStrength(c, w, a)
  {
    SameSupports(c, v, w, a, true);
  }

  lemma SameThreshold(c: Context, v: View, w: View, a: ArmyId)
    requires a in c.attacks
    requires forall d :: OccupantAt(c, c.attacks[a].target) == Some(d) ==>
      Stays(c, v, d) == Stays(c, w, d)
      && HoldStrength(c, v, d, c.attacks[a].target) == HoldStrength(c, w, d, c.attacks[a].target)
    ensures MoveThreshold(c, v, a) == MoveThreshold(c, w, a)
  {
  }

  lemma SameAgainst(c: Context, v: View, w: View, a: ArmyId)
    requires WellFormed(c) && a in c.attacks && SameOn(v, w, MoveReads(c, a))
    ensures MoveStrength(c, v, a) == MoveStrength(c, w, a)
    ensures MoveThreshold(c, v, a) == MoveThreshold(c, w, a)
    ensures DefenderStays(c, v, c.attacks[a].target) == DefenderStays(c, w, c.attacks[a].target)
    ensures HeadToHead(c, a) ==>
      var d := OccupantAt(c, c.attacks[a].target).value;
      WinsHeadToHead(c, v, a, d) == WinsHeadToHead(c, w, a, d)
  {
    assert SupportReads(c, a, true) <= MoveReads(c, a);
    var occupant := OccupantAt(c, c.attacks[a].target);
    if occupant.Some? {
      assert DefenderReads(c, a, occupant.value) <= MoveReads(c, a);
      SameAgainstDefender(c, v, w, a, occupant.value);
    }
    SameStrength(c, v, w, a);
    SameThreshold(c, v, w, a);
  }

  lemma SameRivals(c: Context, v: View, w: View, a: ArmyId)
    requires a in c.attacks && SameOn(v, w, MoveReads(c, a)) && MoveStrength(c, v, a) == MoveStrength(c, w, a)
    ensures BeatsRivals(c, v, a) == BeatsRivals(c, w, a)
  {
    var t := c.attacks[a].target;
    assert RivalReads(c, t) <= MoveReads(c, a);
    if OccupantAt(c, t).Some? {
      assert DefenderReads(c, a, OccupantAt(c, t).value) <= MoveReads(c, a);
    }
    forall b | b in Attackers(c, t)
      ensures AttackForce(c, v, b) == AttackForce(c, w, b) && RetiredGhost(c, v, b) == RetiredGhost(c, w, b)
    {
      SameForces(c, v, w, t, b);
      SameGhosts(c, v, w, t, b);
    }
  }

  lemma SameMove(c: Context, v: View, w: View, a: ArmyId)
    requires WellFormed(c) && a in c.attacks && SameOn(v, w, MoveReads(c, a))
    ensures AdjudicateMove(c, v, a) == AdjudicateMove(c, w, a)
  {
    SameAgainst(c, v, w, a);
    SameRivals(c, v, w, a);
  }

  /** The adjudication of a decision is determined by its dependencies. */
  lemma ReadsSuffice(c: Context, v: View, w: View, d: Decision)
    requires WellFormed(c) && d in Decisions(c) && SameOn(v, w, Reads(c, d))
    ensures Adjudicate(c, v, d) == Adjudicate(c, w, d)
  {
    match d
    case Move(a) => SameMove(c, v, w, a);
    case Departure(a) => SameOutcome(c, v, w, a, false);
    case Dislodged(a) =>
      if a in c.armies && Attackers(c, c.armies[a].territory) != {} {
        SameStays(c, v, w, a);
        forall b | b in Attackers(c, c.armies[a].territory) ensures Moves(c, v, b) == Moves(c, w, b) {
          assert Move(b) in AttackReads(c, c.armies[a].territory);
        }
      }
  }

  /** The dependencies of a group answer all its rules ask. */
  lemma GroupInformed(c: Context, v: View, a: ArmyId, leaving: bool)
    requires WellFormed(c) && IsPeaceful(c, a) && GroupReads(c, a) <= v.Keys
    ensures OneOrderEach(Scratch(c, a)) && Informed(Scratch(c, a), FactsFor(c, v, a, leaving))
  {
    var sc, f := Scratch(c, a), FactsFor(c, v, a, leaving);
    forall b | IsPeaceful(sc, b) ensures DislodgedKnown(f, b) {
      assert b in GroupArmies(c, a);
      assert Dislodged(b) in GroupReads(c, a);
    }
    forall t | t in AllTouched(sc) ensures KnownAt(sc, f, t) {
      forall d | d in TerritoryReads(c, t) ensures d in v {
        assert d in GroupReads(c, a);
      }
      TerritoryKnown(c, v, a, leaving, sc, t);
    }
  }

  lemma TerritoryKnown(c: Context, v: View, a: ArmyId, leaving: bool, sc: Context, t: TerritoryId)
    requires SameCombat(c, sc) && forall d :: d in TerritoryReads(c, t) ==> d in v
    ensures KnownAt(sc, FactsFor(c, v, a, leaving), t)
  {
    forall b | b in Attackers(sc, t) ensures Move(b) in v {
      assert b in Attackers(c, t);
      assert Move(b) in AttackReads(c, t);
    }
    forall o | OccupantAt(sc, t) == Some(o) ensures GoneKnown(sc, FactsFor(c, v, a, leaving), o) {
      assert StayReads(c, o) + {Dislodged(o)} <= TerritoryReads(c, t);
      assert Dislodged(o) in TerritoryReads(c, t);
      assert o in c.attacks ==> Move(o) in StayReads(c, o);
      assert o !in c.attacks && IsPeaceful(c, o) ==> Departure(o) in StayReads(c, o);
    }
  }
}
