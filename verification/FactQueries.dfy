/**
 The questions the rules ask of combat, asked as the engine asks them: a decision
 that is neither settled nor being searched has no value to read, and reading it is
 an error. What must be known for each question is its precondition.
 */
module FactQueries {
  import opened Wrappers
  import opened SortedIds
  import opened Turn
  import opened Facts
  import opened Peaceful
  import opened Groups

  /** The value of a decision, if it has one; there is none to fall back on. */
  function Read(v: View, d: Decision): (b: bool)
    requires d in v
    ensures b == Holds(v, d)
  {
    v[d]
  }

  // ---------- what must be known

  ghost predicate MoveKnown(c: Context, f: CombatFacts, a: ArmyId)
  {
    f.DecisionFacts? && a in c.attacks ==> Move(a) in f.view
  }

  /** The subject of an adjudication is not looked up. */
  ghost predicate DislodgedKnown(f: CombatFacts, a: ArmyId)
  {
    f.DecisionFacts? && a != f.subject ==> Dislodged(a) in f.view
  }

  ghost predicate GoneKnown(c: Context, f: CombatFacts, a: ArmyId)
  {
    && MoveKnown(c, f, a) && DislodgedKnown(f, a)
    && (f.DecisionFacts? && a !in c.attacks && a in f.peaceful ==> Departure(a) in f.view)
  }

  /** The attacks on a territory, and the army starting on it. */
  ghost predicate KnownAt(c: Context, f: CombatFacts, t: TerritoryId)
  {
    && (forall b :: b in Attackers(c, t) ==> MoveKnown(c, f, b))
    && (forall o :: OccupantAt(c, t) == Some(o) ==> GoneKnown(c, f, o))
  }

  /** All the rules of a context may ask: about the places its peaceful orders touch, and the armies that give them. */
  ghost predicate Informed(c: Context, f: CombatFacts)
  {
    && (forall a :: IsPeaceful(c, a) ==> DislodgedKnown(f, a))
    && (forall t :: t in AllTouched(c) ==> KnownAt(c, f, t))
  }

  /** The recorded contest answers everything. */
  lemma RecordInformed(c: Context, k: Contest)
    ensures Informed(c, SettledFacts(k))
  {
  }

  // ---------- the questions

  predicate AskMoves(c: Context, f: CombatFacts, a: ArmyId): (r: bool)
    requires MoveKnown(c, f, a)
    ensures r == AttackMoves(c, f, a)
  {
    match f
    case DecisionFacts(v, _, _, _) => a in c.attacks && Read(v, Move(a))
    case SettledFacts(k) => a in c.attacks && a in k.standing && a in k.won
  }

  predicate AskDislodged(c: Context, f: CombatFacts, a: ArmyId): (r: bool)
    requires DislodgedKnown(f, a)
    ensures r == IsDislodged(c, f, a)
  {
    match f
    case DecisionFacts(v, _, subject, _) => a != subject && Read(v, Dislodged(a))
    case SettledFacts(k) => a in k.retreating
  }

  predicate AskGone(c: Context, f: CombatFacts, a: ArmyId): (r: bool)
    requires GoneKnown(c, f, a)
    ensures r == Gone(c, f, a)
  {
    match f
    case DecisionFacts(v, peaceful, subject, leaving) =>
      || (leaving && a == subject)
      || (if a in c.attacks then Read(v, Move(a)) else a in peaceful && Read(v, Departure(a)))
      || AskDislodged(c, f, a)
    case SettledFacts(k) => a in k.vacated || a in k.dislodged
  }

  predicate AskAttacked(c: Context, f: CombatFacts, t: TerritoryId): (r: bool)
    requires KnownAt(c, f, t)
    ensures r == Attacked(c, f, t)
  {
    exists b :: b in Attackers(c, t) && (f.SettledFacts? ==> b in f.contest.standing)
                && match OccupantAt(c, t)
                   case None => true
                   case Some(d) => OwnerOf(c, b) != OwnerOf(c, d) || AskGone(c, f, d)
  }

  function AskWinner(c: Context, f: CombatFacts, t: TerritoryId): (w: Option<ArmyId>)
    requires KnownAt(c, f, t)
    ensures w == WinnerAt(c, f, t)
  {
    match f
    case DecisionFacts(v, _, _, _) =>
      var movers := set a | a in Attackers(c, t) && AskMoves(c, f, a);
      assert movers == set a | a in Attackers(c, t) && Moves(c, v, a);
      if movers == {} then None else Some(Least(movers))
    case SettledFacts(k) => if t in k.winner then Some(k.winner[t]) else None
  }

  predicate AskDefenderLeaves(c: Context, f: CombatFacts, t: TerritoryId): (r: bool)
    requires KnownAt(c, f, t)
    ensures r == DefenderLeaves(c, f, t)
  {
    match OccupantAt(c, t)
    case None => true
    case Some(d) => AskGone(c, f, d)
  }

  predicate AskAlliedArrival(c: Context, f: CombatFacts, t: TerritoryId, owner: PlayerId): (r: bool)
    requires KnownAt(c, f, t)
    ensures r == AlliedAttackArrival(c, f, t, owner)
  {
    var w := AskWinner(c, f, t);
    w.Some? && OwnerOf(c, w.value) == owner && AskDefenderLeaves(c, f, t)
  }
}
