/**
 The greatest consistent resolution of a turn. Once joins and dispersions with
 an attacked origin are cancelled, combat never waits for a departure, the
 supports of a consistent turn are constants, and an attack depends on at most
 one other: that of the army on its destination, monotonically.
 */
module Greatest {
  import opened Wrappers
  import opened SortedIds
  import opened Turn
  import opened Facts
  import opened Peaceful
  import opened Groups
  import opened FactReads
  import opened Combat
  import opened Dependencies

  // ---------- the view a set of successful attacks induces

  ghost function MoveView(c: Context, x: set<ArmyId>): View
  {
    map a | a in c.attacks :: Move(a) := a in x
  }

  ghost function DislodgedView(c: Context, x: set<ArmyId>): View
  {
    map a | a in c.armies :: Dislodged(a) := AdjudicateDislodged(c, MoveView(c, x), a)
  }

  ghost function CombatView(c: Context, x: set<ArmyId>): View
  {
    MoveView(c, x) + DislodgedView(c, x)
  }

  /** Every decision of the turn, as the successful attacks x settle it. */
  ghost function FullView(c: Context, x: set<ArmyId>): View
  {
    map d | d in Decisions(c) ::
      match d
      case Move(a) => a in x
      case Departure(a) => OutcomeOfPeaceful(c, CombatView(c, x), a, false).departs
      case Dislodged(a) => AdjudicateDislodged(c, MoveView(c, x), a)
  }

  lemma CombatViewAt(c: Context, x: set<ArmyId>)
    ensures forall a :: Moves(c, CombatView(c, x), a) <==> a in c.attacks && a in x
    ensures forall a :: Moves(c, MoveView(c, x), a) <==> a in c.attacks && a in x
    ensures forall a :: Holds(CombatView(c, x), Dislodged(a)) <==> AdjudicateDislodged(c, MoveView(c, x), a)
  {
    forall a ensures Holds(CombatView(c, x), Dislodged(a)) <==> AdjudicateDislodged(c, MoveView(c, x), a) {
      DislodgedViewAt(c, x, a);
    }
  }

  lemma DislodgedViewAt(c: Context, x: set<ArmyId>, a: ArmyId)
    ensures Dislodged(a) in CombatView(c, x) <==> a in c.armies
    ensures Holds(CombatView(c, x), Dislodged(a)) <==> AdjudicateDislodged(c, MoveView(c, x), a)
  {
  }

  // ---------- combat never reads a departure

  lemma AttackedNotPeaceful(c: Context, t: TerritoryId, o: ArmyId)
    requires Prepared(c) && OccupantAt(c, t) == Some(o) && Attackers(c, t) != {}
    ensures !IsPeaceful(c, o)
  {
    var b :| b in Attackers(c, t);
    assert c.armies[o].territory == t;
  }

  /** What two views must share for combat and departures to agree. */
  ghost predicate SameCombatDecisions(c: Context, v: View, w: View)
  {
    && (forall a :: a in c.attacks ==> Holds(v, Move(a)) == Holds(w, Move(a)))
    && (forall a :: a in c.armies ==> Holds(v, Dislodged(a)) == Holds(w, Dislodged(a)))
  }

  lemma MoveReadsNoDeparture(c: Context, a: ArmyId)
    requires Prepared(c) && a in c.attacks
    ensures forall r :: r in MoveReads(c, a) ==> !r.Departure?
  {
    var t := c.attacks[a].target;
    assert a in Attackers(c, t);
    if OccupantAt(c, t).Some? {
      AttackedNotPeaceful(c, t, OccupantAt(c, t).value);
    }
  }

  lemma SameCombatReads(c: Context, v: View, w: View, covered: set<Decision>)
    requires SameCombatDecisions(c, v, w) && covered <= Decisions(c)
    requires forall r :: r in covered ==> !r.Departure?
    ensures SameOn(v, w, covered)
  {
  }

  lemma SameMoveWithoutDepartures(c: Context, v: View, w: View, a: ArmyId)
    requires Prepared(c) && a in c.attacks && SameCombatDecisions(c, v, w)
    ensures AdjudicateMove(c, v, a) == AdjudicateMove(c, w, a)
  {
    MoveReadsNoDeparture(c, a);
    MoveReadsAreDecisions(c, a);
    SameCombatReads(c, v, w, MoveReads(c, a));
    SameMove(c, v, w, a);
  }

  lemma SameDislodgedWithoutDepartures(c: Context, v: View, w: View, a: ArmyId)
    requires Prepared(c) && a in c.armies && forall b :: b in c.attacks ==> Holds(v, Move(b)) == Holds(w, Move(b))
    ensures AdjudicateDislodged(c, v, a) == AdjudicateDislodged(c, w, a)
  {
    var t := c.armies[a].territory;
    if Attackers(c, t) != {} {
      AttackedNotPeaceful(c, t, a);
      assert Stays(c, v, a) == Stays(c, w, a);
      forall b | b in Attackers(c, t) ensures Moves(c, v, b) == Moves(c, w, b) {
      }
    }
  }

  /** The facts the rules read about a territory involve no departure. */
  lemma SameFactsWithoutDepartures(c: Context, v: View, w: View, sc: Context, subject: ArmyId, leaving: bool, t: TerritoryId)
    requires Prepared(c) && SameCombat(c, sc) && SameCombatDecisions(c, v, w)
    ensures AgreeAt(sc, FactsFor(c, v, subject, leaving), FactsFor(c, w, subject, leaving), t)
  {
    var f, g := FactsFor(c, v, subject, leaving), FactsFor(c, w, subject, leaving);
    assert Attackers(sc, t) == Attackers(c, t);
    if Attackers(c, t) != {} {
      if OccupantAt(c, t).Some? { AttackedNotPeaceful(c, t, OccupantAt(c, t).value); }
      TerritoryReadsAreDecisions(c, t);
      SameCombatReads(c, v, w, TerritoryReads(c, t));
      SameFactsAt(c, v, w, sc, subject, leaving, t);
    } else {
      assert !Attacked(sc, f, t) && !Attacked(sc, g, t);
    }
  }

  /** A departure reads combat only. */
  lemma SameDepartureFromCombat(c: Context, v: View, w: View, a: ArmyId, leaving: bool)
    requires Prepared(c) && SameCombatDecisions(c, v, w)
    ensures OutcomeOfPeaceful(c, v, a, leaving) == OutcomeOfPeaceful(c, w, a, leaving)
  {
    if IsPeaceful(c, a) {
      var sc := Scratch(c, a);
      var f, g := FactsFor(c, v, a, leaving), FactsFor(c, w, a, leaving);
      forall b | IsPeaceful(sc, b) ensures IsDislodged(sc, f, b) == IsDislodged(sc, g, b) {
        assert b in c.armies;
      }
      forall t ensures AgreeAt(sc, f, g, t) {
        SameFactsWithoutDepartures(c, v, w, sc, a, leaving, t);
      }
      SameRun(sc, f, g);
    }
  }

  // ---------- attacks on a territory no attack leaves

  /** No attack leaves the destination of b. */
  ghost predicate Grounded(c: Context, b: ArmyId)
  {
    b in c.attacks &&
    match OccupantAt(c, c.attacks[b].target)
    case None => true
    case Some(d) => d !in c.attacks
  }

  /** An attack on an ally that does not attack: it can never move. */
  ghost predicate OnStayingAlly(c: Context, b: ArmyId)
  {
    Grounded(c, b) &&
    match OccupantAt(c, c.attacks[b].target)
    case None => false
    case Some(d) => OwnerOf(c, d) == OwnerOf(c, b)
  }

  lemma StayingAllyHolds(c: Context, v: View, b: ArmyId)
    requires Prepared(c) && OnStayingAlly(c, b)
    ensures !AdjudicateMove(c, v, b)
  {
    var t := c.attacks[b].target;
    assert b in Attackers(c, t);
    AttackedNotPeaceful(c, t, OccupantAt(c, t).value);
  }

  /** Only attacks on staying allies threaten this army. */
  ghost predicate Untouchable(c: Context, s: ArmyId)
  {
    s in c.armies && forall b :: b in Attackers(c, c.armies[s].territory) ==> OnStayingAlly(c, b)
  }

  /** A standing support directed at a territory no attack leaves is given by an untouchable army. */
  lemma SupporterUntouchable(c: Context, s: ArmyId, t: TerritoryId)
    requires Prepared(c) && SupportStands(c, s) && ExemptOrigin(c.supports[s]) == t
    requires forall d :: OccupantAt(c, t) == Some(d) ==> d !in c.attacks
    ensures Untouchable(c, s)
  {
    forall b | b in Attackers(c, c.armies[s].territory) ensures OnStayingAlly(c, b) {
      assert c.attacks[b].source != t by {
        assert OccupantAt(c, c.attacks[b].source) == Some(b);
      }
      assert OccupantAt(c, c.attacks[b].target) == Some(s);
    }
  }

  lemma SupportersUntouchable(c: Context, b: ArmyId)
    requires Prepared(c) && Grounded(c, b)
    ensures forall s :: s in StandingSupports(c, b, true) ==> Untouchable(c, s)
    ensures forall d, s :: OccupantAt(c, c.attacks[b].target) == Some(d) && s in StandingSupports(c, d, false) ==> Untouchable(c, s)
  {
    var t := c.attacks[b].target;
    forall s | s in StandingSupports(c, b, true) ensures Untouchable(c, s) {
      SupporterUntouchable(c, s, t);
    }
    forall d, s | OccupantAt(c, t) == Some(d) && s in StandingSupports(c, d, false) ensures Untouchable(c, s) {
      assert OccupantAt(c, c.supports[s].supported) == Some(d);
      assert c.armies[d].territory == c.supports[s].supported;
      SupporterUntouchable(c, s, t);
    }
  }

  /** Everything a grounded attack reads is the dislodgement of an untouchable army. */
  lemma GroundedReads(c: Context, b: ArmyId)
    requires Prepared(c) && Grounded(c, b)
    ensures forall r :: r in MoveReads(c, b) ==> r.Dislodged? && Untouchable(c, r.army)
  {
    var t := c.attacks[b].target;
    SupportersUntouchable(c, b);
    forall o, s | o in Attackers(c, t) && s in StandingSupports(c, o, true) ensures Untouchable(c, s) {
      SupportersUntouchable(c, o);
    }
    assert b in Attackers(c, t);
    if OccupantAt(c, t).Some? {
      AttackedNotPeaceful(c, t, OccupantAt(c, t).value);
    }
  }

  // ---------- attacks that succeed whatever the others do

  ghost function Winners(c: Context, x: set<ArmyId>): set<ArmyId>
  {
    set a | a in c.attacks && AdjudicateMove(c, CombatView(c, x), a)
  }

  /** The grounded attacks that succeed: the same in every consistent resolution. */
  ghost function Fixed(c: Context): set<ArmyId>
  {
    set a | a in c.attacks && Grounded(c, a) && a in Winners(c, {})
  }

  ghost predicate NoStayingAlly(c: Context, x: set<ArmyId>)
  {
    forall b :: b in x ==> !OnStayingAlly(c, b)
  }

  lemma UntouchableNotDislodged(c: Context, v: View, s: ArmyId)
    requires Untouchable(c, s)
    requires forall b :: OnStayingAlly(c, b) ==> !Holds(v, Move(b))
    ensures !AdjudicateDislodged(c, v, s)
  {
  }

  lemma GroundedConstant(c: Context, x: set<ArmyId>, b: ArmyId)
    requires Prepared(c) && Grounded(c, b) && NoStayingAlly(c, x)
    ensures b in Winners(c, x) <==> b in Winners(c, {})
  {
    var v, w := CombatView(c, x), CombatView(c, {});
    CombatViewAt(c, x);
    CombatViewAt(c, {});
    GroundedReads(c, b);
    forall r | r in MoveReads(c, b) ensures Holds(v, r) == Holds(w, r) {
      UntouchableNotDislodged(c, MoveView(c, x), r.army);
      UntouchableNotDislodged(c, MoveView(c, {}), r.army);
    }
    SameMove(c, v, w, b);
  }

  /** x settles the grounded attacks as they must be. */
  ghost predicate Anchored(c: Context, x: set<ArmyId>)
  {
    && x <= c.attacks.Keys
    && forall b :: Grounded(c, b) ==> (b in x <==> b in Fixed(c))
  }

  lemma AnchoredNoStayingAlly(c: Context, x: set<ArmyId>)
    requires Prepared(c) && Anchored(c, x)
    ensures NoStayingAlly(c, x)
  {
    forall b | b in x ensures !OnStayingAlly(c, b) {
      if OnStayingAlly(c, b) { StayingAllyHolds(c, CombatView(c, {}), b); }
    }
  }

  lemma WinnersAnchored(c: Context, x: set<ArmyId>)
    requires Prepared(c) && NoStayingAlly(c, x)
    ensures Anchored(c, Winners(c, x))
  {
    forall b | Grounded(c, b) ensures b in Winners(c, x) <==> b in Fixed(c) {
      GroundedConstant(c, x, b);
    }
  }

  // ---------- monotonicity

  /** An army that does not attack is dislodged by grounded attacks only. */
  lemma SupportersConstant(c: Context, x: set<ArmyId>, y: set<ArmyId>, s: ArmyId)
    requires Prepared(c) && Anchored(c, x) && Anchored(c, y) && s in c.supports
    ensures AdjudicateDislodged(c, MoveView(c, x), s) == AdjudicateDislodged(c, MoveView(c, y), s)
  {
    var t := c.armies[s].territory;
    CombatViewAt(c, x);
    CombatViewAt(c, y);
    forall b | b in Attackers(c, t) ensures Moves(c, MoveView(c, x), b) == Moves(c, MoveView(c, y), b) {
      assert OccupantAt(c, t) == Some(s);
      assert Grounded(c, b);
    }
    assert Stays(c, MoveView(c, x), s) && Stays(c, MoveView(c, y), s);
  }

  lemma ForcesConstant(c: Context, x: set<ArmyId>, y: set<ArmyId>, a: ArmyId, offensive: bool)
    requires Prepared(c) && Anchored(c, x) && Anchored(c, y)
    ensures CountedSupports(c, CombatView(c, x), a, offensive) == CountedSupports(c, CombatView(c, y), a, offensive)
  {
    CombatViewAt(c, x);
    CombatViewAt(c, y);
    forall s | s in StandingSupports(c, a, offensive)
      ensures Holds(CombatView(c, x), Dislodged(s)) == Holds(CombatView(c, y), Dislodged(s))
    {
      SupportersConstant(c, x, y, s);
    }
  }

  lemma {:induction false} TotalMonotone(c: Context, order: seq<ArmyId>, s: set<ArmyId>, r: set<ArmyId>)
    requires s <= r
    ensures Total(c, order, s) <= Total(c, order, r)
  {
    if order != [] { TotalMonotone(c, order[1..], s, r); }
  }

  lemma OwnForceBounded(c: Context, v: View, a: ArmyId, p: PlayerId)
    requires a in c.attacks
    ensures OwnForce(c, v, a, p) <= AttackForce(c, v, a)
  {
  }

  lemma OrdinaryDefender(c: Context, v: View, d: ArmyId)
    requires !IsPeaceful(c, d)
    ensures DefendingSize(c, v, d) == SizeWith(c, d, None)
  {
  }

  /** An army that attacks and stays defends with all its troops, at least its walls. */
  lemma AttackerHolds(c: Context, v: View, d: ArmyId, t: TerritoryId, a: ArmyId)
    requires WellFormed(c) && d in c.attacks
    ensures HoldStrengthAgainst(c, v, d, t, a) >= if a in c.tunneled then 0 else FortificationBonus(c, t)
  {
    OrdinaryDefender(c, v, d);
  }

  /** If the army on the destination leaves, the attack needs no more and brings no less. */
  lemma LeavingHelps(c: Context, v: View, w: View, a: ArmyId, d: ArmyId)
    requires WellFormed(c) && a in c.attacks && OccupantAt(c, c.attacks[a].target) == Some(d) && d in c.attacks
    requires Stays(c, v, d) && !Stays(c, w, d)
    requires AttackForce(c, v, a) == AttackForce(c, w, a)
    requires MoveStrength(c, v, a) > MoveThreshold(c, v, a)
    ensures MoveStrength(c, w, a) >= MoveStrength(c, v, a)
    ensures MoveStrength(c, w, a) > MoveThreshold(c, w, a)
  {
    OwnForceBounded(c, v, a, OwnerOf(c, d));
    AttackerHolds(c, v, d, c.attacks[a].target, a);
  }

  lemma SameHoldOfAttacker(c: Context, v: View, w: View, d: ArmyId, t: TerritoryId)
    requires !IsPeaceful(c, d) && CountedSupports(c, v, d, false) == CountedSupports(c, w, d, false)
    ensures HoldStrength(c, v, d, t) == HoldStrength(c, w, d, t)
  {
    OrdinaryDefender(c, v, d);
    OrdinaryDefender(c, w, d);
  }

  lemma SameStrengthSameSupports(c: Context, v: View, w: View, a: ArmyId)
    requires a in c.attacks && CountedSupports(c, v, a, true) == CountedSupports(c, w, a, true)
    requires DefenderStays(c, v, c.attacks[a].target) == DefenderStays(c, w, c.attacks[a].target)
    ensures MoveStrength(c, v, a) == MoveStrength(c, w, a)
  {
  }

  lemma SameDefenderSameStrength(c: Context, v: View, w: View, a: ArmyId, d: ArmyId)
    requires !IsPeaceful(c, d) && a in c.attacks && OccupantAt(c, c.attacks[a].target) == Some(d)
    requires Stays(c, v, d) == Stays(c, w, d)
    requires CountedSupports(c, v, a, true) == CountedSupports(c, w, a, true)
    requires CountedSupports(c, v, d, false) == CountedSupports(c, w, d, false)
    ensures MoveStrength(c, v, a) == MoveStrength(c, w, a)
    ensures MoveThreshold(c, v, a) == MoveThreshold(c, w, a)
  {
    SameStrengthSameSupports(c, v, w, a);
    SameHoldOfAttacker(c, v, w, d, c.attacks[a].target);
    SameThreshold(c, v, w, a);
  }

  lemma HeadToHeadConstant(c: Context, x: set<ArmyId>, y: set<ArmyId>, a: ArmyId, d: ArmyId)
    requires Prepared(c) && Anchored(c, x) && Anchored(c, y) && a in c.attacks && d in c.attacks
    ensures WinsHeadToHead(c, CombatView(c, x), a, d) == WinsHeadToHead(c, CombatView(c, y), a, d)
  {
    ForcesConstant(c, x, y, a, true);
    ForcesConstant(c, x, y, d, true);
  }

  lemma RivalsMonotone(c: Context, x: set<ArmyId>, y: set<ArmyId>, a: ArmyId)
    requires Prepared(c) && Anchored(c, x) && Anchored(c, y) && x <= y && a in c.attacks
    requires MoveStrength(c, CombatView(c, x), a) <= MoveStrength(c, CombatView(c, y), a)
    requires BeatsRivals(c, CombatView(c, x), a)
    ensures BeatsRivals(c, CombatView(c, y), a)
  {
    var t := c.attacks[a].target;
    CombatViewAt(c, x);
    CombatViewAt(c, y);
    forall b | b in Attackers(c, t) && b != a && !RetiredGhost(c, CombatView(c, y), b)
      ensures MoveStrength(c, CombatView(c, y), a) > AttackForce(c, CombatView(c, y), b)
    {
      ForcesConstant(c, x, y, b, true);
      assert !RetiredGhost(c, CombatView(c, x), b);
    }
  }

  /** More successful attacks never stop one from succeeding. */
  lemma WinnersMonotone(c: Context, x: set<ArmyId>, y: set<ArmyId>)
    requires Prepared(c) && Anchored(c, x) && Anchored(c, y) && x <= y
    ensures Winners(c, x) <= Winners(c, y)
  {
    AnchoredNoStayingAlly(c, x);
    AnchoredNoStayingAlly(c, y);
    forall a | a in Winners(c, x) ensures a in Winners(c, y) {
      if Grounded(c, a) {
        GroundedConstant(c, x, a);
        GroundedConstant(c, y, a);
      } else {
        MoveMonotone(c, x, y, a, OccupantAt(c, c.attacks[a].target).value);
      }
    }
  }

  lemma MoveMonotone(c: Context, x: set<ArmyId>, y: set<ArmyId>, a: ArmyId, d: ArmyId)
    requires Prepared(c) && Anchored(c, x) && Anchored(c, y) && x <= y
    requires a in c.attacks && OccupantAt(c, c.attacks[a].target) == Some(d) && d in c.attacks
    requires AdjudicateMove(c, CombatView(c, x), a)
    ensures AdjudicateMove(c, CombatView(c, y), a)
  {
    var v, w := CombatView(c, x), CombatView(c, y);
    CombatViewAt(c, x);
    CombatViewAt(c, y);
    ForcesConstant(c, x, y, a, true);
    ForcesConstant(c, x, y, d, false);
    HeadToHeadConstant(c, x, y, a, d);
    if Stays(c, v, d) == Stays(c, w, d) {
      SameDefenderSameStrength(c, v, w, a, d);
    } else {
      LeavingHelps(c, v, w, a, d);
    }
    RivalsMonotone(c, x, y, a);
  }

  // ---------- the greatest fixpoint

  /** Attacks that support one another's success. */
  ghost predicate SelfSupporting(c: Context, x: set<ArmyId>)
  {
    Anchored(c, x) && x <= Winners(c, x)
  }

  /** Every attack that belongs to some self-supporting set. */
  ghost function MostMoves(c: Context): set<ArmyId>
  {
    set a | a in c.attacks && exists x :: SelfSupporting(c, x) && a in x
  }

  lemma FixedSelfSupporting(c: Context)
    requires Prepared(c)
    ensures SelfSupporting(c, Fixed(c))
  {
    assert Anchored(c, Fixed(c));
    AnchoredNoStayingAlly(c, Fixed(c));
    forall b | b in Fixed(c) ensures b in Winners(c, Fixed(c)) {
      GroundedConstant(c, Fixed(c), b);
    }
  }

  lemma MostMovesSelfSupporting(c: Context)
    requires Prepared(c)
    ensures SelfSupporting(c, MostMoves(c))
    ensures forall x :: SelfSupporting(c, x) ==> x <= MostMoves(c)
  {
    FixedSelfSupporting(c);
    forall x | SelfSupporting(c, x) ensures x <= MostMoves(c) {
    }
    assert Anchored(c, MostMoves(c)) by {
      forall b | Grounded(c, b) ensures b in MostMoves(c) <==> b in Fixed(c) {
      }
    }
    forall a | a in MostMoves(c) ensures a in Winners(c, MostMoves(c)) {
      var x :| SelfSupporting(c, x) && a in x;
      WinnersMonotone(c, x, MostMoves(c));
    }
  }

  /** The greatest self-supporting set is exactly the set of attacks it makes succeed. */
  lemma MostMovesFixpoint(c: Context)
    requires Prepared(c)
    ensures Winners(c, MostMoves(c)) == MostMoves(c)
  {
    var g := MostMoves(c);
    MostMovesSelfSupporting(c);
    AnchoredNoStayingAlly(c, g);
    WinnersAnchored(c, g);
    WinnersMonotone(c, g, Winners(c, g));
    assert SelfSupporting(c, Winners(c, g));
  }

  // ---------- consistent resolutions

  /** Every decision of s equals its adjudication. */
  ghost predicate ConsistentOn(c: Context, v: View, s: set<Decision>)
  {
    forall d :: d in s ==> d in v && v[d] == Adjudicate(c, v, d)
  }

  ghost predicate Consistent(c: Context, v: View)
  {
    ConsistentOn(c, v, Decisions(c))
  }

  /** s contains everything its members may read. */
  ghost predicate ReadsClosed(c: Context, s: set<Decision>)
  {
    s <= Decisions(c) && forall d :: d in s ==> Reads(c, d) <= s
  }

  lemma FullViewCombat(c: Context, x: set<ArmyId>)
    requires x <= c.attacks.Keys
    ensures SameCombatDecisions(c, FullView(c, x), CombatView(c, x))
  {
    forall a | a in c.attacks ensures Holds(FullView(c, x), Move(a)) == Holds(CombatView(c, x), Move(a)) {
      assert Move(a) in Decisions(c);
    }
    forall a | a in c.armies ensures Holds(FullView(c, x), Dislodged(a)) == Holds(CombatView(c, x), Dislodged(a)) {
      assert Dislodged(a) in Decisions(c);
      DislodgedViewAt(c, x, a);
    }
  }

  /** A set of attacks that makes exactly itself succeed resolves the whole turn consistently. */
  lemma FixpointConsistent(c: Context, x: set<ArmyId>)
    requires Prepared(c) && Winners(c, x) == x
    ensures Consistent(c, FullView(c, x))
  {
    var v := FullView(c, x);
    FullViewCombat(c, x);
    CombatViewAt(c, x);
    forall d | d in Decisions(c) ensures v[d] == Adjudicate(c, v, d) {
      match d
      case Move(a) => SameMoveWithoutDepartures(c, v, CombatView(c, x), a);
      case Departure(a) => SameDepartureFromCombat(c, v, CombatView(c, x), a, false);
      case Dislodged(a) => SameDislodgedWithoutDepartures(c, v, MoveView(c, x), a);
    }
  }

  /** The resolution in which as many attacks as possible succeed. */
  ghost function GreatestResolution(c: Context): View
  {
    FullView(c, MostMoves(c))
  }

  lemma GreatestConsistent(c: Context)
    requires Prepared(c)
    ensures Consistent(c, GreatestResolution(c))
    ensures GreatestResolution(c).Keys == Decisions(c)
  {
    MostMovesFixpoint(c);
    FixpointConsistent(c, MostMoves(c));
  }

  /** The attacks that succeed in v, within s, with the grounded ones elsewhere as they must be. */
  ghost function MovesWithin(c: Context, v: View, s: set<Decision>): set<ArmyId>
  {
    set a | a in c.attacks && if Move(a) in s then Holds(v, Move(a)) else a in Fixed(c)
  }

  lemma WithinNoStayingAlly(c: Context, v: View, s: set<Decision>)
    requires Prepared(c) && ConsistentOn(c, v, s)
    ensures NoStayingAlly(c, MovesWithin(c, v, s))
  {
    forall b | b in MovesWithin(c, v, s) ensures !OnStayingAlly(c, b) {
      if OnStayingAlly(c, b) {
        StayingAllyHolds(c, v, b);
        StayingAllyHolds(c, CombatView(c, {}), b);
      }
    }
  }

  /** On a closed set, a consistent view is the combat view of its successful attacks. */
  lemma WithinAgrees(c: Context, v: View, s: set<Decision>, a: ArmyId)
    requires Prepared(c) && ReadsClosed(c, s) && ConsistentOn(c, v, s) && Dislodged(a) in s
    ensures Holds(v, Dislodged(a)) == Holds(CombatView(c, MovesWithin(c, v, s)), Dislodged(a))
  {
    var x := MovesWithin(c, v, s);
    CombatViewAt(c, x);
    assert Dislodged(a) in Decisions(c);
    assert a in c.armies;
    assert DislodgedReads(c, a) <= s;
    var t := c.armies[a].territory;
    if Attackers(c, t) != {} {
      AttackedNotPeaceful(c, t, a);
      forall b | b in Attackers(c, t) ensures Moves(c, v, b) == Moves(c, MoveView(c, x), b) {
        assert Move(b) in DislodgedReads(c, a);
      }
      if a in c.attacks { assert Move(a) in DislodgedReads(c, a); }
      assert Stays(c, v, a) == Stays(c, MoveView(c, x), a);
    }
  }

  lemma WithinAgreesOn(c: Context, v: View, s: set<Decision>, covered: set<Decision>)
    requires Prepared(c) && ReadsClosed(c, s) && ConsistentOn(c, v, s) && covered <= s
    requires forall r :: r in covered ==> !r.Departure?
    ensures SameOn(v, CombatView(c, MovesWithin(c, v, s)), covered)
  {
    var w := CombatView(c, MovesWithin(c, v, s));
    CombatViewAt(c, MovesWithin(c, v, s));
    forall r | r in covered ensures Holds(v, r) == Holds(w, r) {
      if r.Move? {
        assert r in Decisions(c);
        assert Moves(c, w, r.army) <==> r.army in MovesWithin(c, v, s);
      } else {
        WithinAgrees(c, v, s, r.army);
      }
    }
  }

  lemma WithinSameMove(c: Context, v: View, s: set<Decision>, a: ArmyId)
    requires Prepared(c) && ReadsClosed(c, s) && ConsistentOn(c, v, s) && Move(a) in s && a in c.attacks
    ensures Holds(v, Move(a)) <==> a in Winners(c, MovesWithin(c, v, s))
  {
    MoveReadsNoDeparture(c, a);
    assert Reads(c, Move(a)) <= s;
    WithinAgreesOn(c, v, s, MoveReads(c, a));
    SameMove(c, v, CombatView(c, MovesWithin(c, v, s)), a);
  }

  /** No consistent resolution of a closed part lets more attacks succeed. */
  lemma ConsistentBelowGreatest(c: Context, v: View, s: set<Decision>)
    requires Prepared(c) && ReadsClosed(c, s) && ConsistentOn(c, v, s)
    ensures forall a :: Move(a) in s && Holds(v, Move(a)) ==> Holds(GreatestResolution(c), Move(a))
  {
    var x := MovesWithin(c, v, s);
    WithinNoStayingAlly(c, v, s);
    WinnersAnchored(c, x);
    forall a | Move(a) in s && a in c.attacks ensures a in x <==> a in Winners(c, x) {
      WithinSameMove(c, v, s, a);
    }
    assert Anchored(c, x);
    assert SelfSupporting(c, x) by {
      forall a | a in x ensures a in Winners(c, x) {
        if Move(a) !in s { GroundedConstant(c, x, a); }
      }
    }
    MostMovesSelfSupporting(c);
    forall a | Move(a) in s && Holds(v, Move(a)) ensures Holds(GreatestResolution(c), Move(a)) {
      assert Move(a) in Decisions(c);
      assert a in x;
    }
  }

  lemma SameDislodgedWithin(c: Context, v: View, w: View, s: set<Decision>, a: ArmyId)
    requires Prepared(c) && ReadsClosed(c, s) && ConsistentOn(c, v, s) && ConsistentOn(c, w, s) && Dislodged(a) in s
    requires forall b :: Move(b) in s ==> Holds(v, Move(b)) == Holds(w, Move(b))
    ensures Holds(v, Dislodged(a)) == Holds(w, Dislodged(a))
  {
    assert MovesWithin(c, v, s) == MovesWithin(c, w, s);
    WithinAgrees(c, v, s, a);
    WithinAgrees(c, w, s, a);
  }

  /** A consistent resolution of a closed part is fixed by the attacks it lets succeed. */
  lemma SameMovesSameResolution(c: Context, v: View, w: View, s: set<Decision>)
    requires Prepared(c) && ReadsClosed(c, s) && ConsistentOn(c, v, s) && ConsistentOn(c, w, s)
    requires forall a :: Move(a) in s ==> Holds(v, Move(a)) == Holds(w, Move(a))
    ensures SameOn(v, w, s)
  {
    forall a | Dislodged(a) in s ensures Holds(v, Dislodged(a)) == Holds(w, Dislodged(a)) {
      SameDislodgedWithin(c, v, w, s, a);
    }
    forall a | Departure(a) in s ensures Holds(v, Departure(a)) == Holds(w, Departure(a)) {
      SameDepartureWithin(c, v, w, s, a);
    }
  }

  lemma SameDepartureWithin(c: Context, v: View, w: View, s: set<Decision>, a: ArmyId)
    requires Prepared(c) && ReadsClosed(c, s) && ConsistentOn(c, v, s) && ConsistentOn(c, w, s) && Departure(a) in s
    requires forall d :: d in s && !d.Departure? ==> Holds(v, d) == Holds(w, d)
    ensures Holds(v, Departure(a)) == Holds(w, Departure(a))
  {
    SameDepartureOn(c, v, w, s, a);
    assert Adjudicate(c, v, Departure(a)) == Adjudicate(c, w, Departure(a));
  }

  /** w inside a part, v outside it. */
  ghost function Spliced(c: Context, v: View, w: View, s: set<Decision>): View
  {
    map d | d in Decisions(c) :: if d in s then Holds(w, d) else Holds(v, d)
  }

  lemma SplicedSameCombat(c: Context, v: View, w: View, s: set<Decision>)
    requires s <= Decisions(c) && forall d :: d in s && !d.Departure? ==> Holds(v, d) == Holds(w, d)
    ensures SameOn(w, Spliced(c, v, w, s), s)
    ensures SameCombatDecisions(c, v, Spliced(c, v, w, s))
  {
    forall b | b in c.attacks ensures Holds(v, Move(b)) == Holds(Spliced(c, v, w, s), Move(b)) {
      assert Move(b) in Decisions(c);
    }
    forall b | b in c.armies ensures Holds(v, Dislodged(b)) == Holds(Spliced(c, v, w, s), Dislodged(b)) {
      assert Dislodged(b) in Decisions(c);
    }
  }

  lemma SameDepartureOn(c: Context, v: View, w: View, s: set<Decision>, a: ArmyId)
    requires Prepared(c) && ReadsClosed(c, s) && Departure(a) in s
    requires forall d :: d in s && !d.Departure? ==> Holds(v, d) == Holds(w, d)
    ensures OutcomeOfPeaceful(c, v, a, false) == OutcomeOfPeaceful(c, w, a, false)
  {
    assert IsPeaceful(c, a) by { assert Departure(a) in Decisions(c); }
    assert Reads(c, Departure(a)) <= s;
    SplicedSameCombat(c, v, w, s);
    SameOutcome(c, w, Spliced(c, v, w, s), a, false);
    SameDepartureFromCombat(c, v, Spliced(c, v, w, s), a, false);
  }
}
