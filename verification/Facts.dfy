/**
 What the join and dispersion rules read from combat. While the turn is
 adjudicated the answers come from decisions, settled or being searched; once
 it is settled they come from the recorded contest.
 */
module Facts {
  import opened Wrappers
  import opened SortedIds
  import opened Turn

  /** The recorded contest: attacks still standing, and what became of each army. */
  datatype Contest = Contest(
    standing: set<ArmyId>,               // attacks not removed as allied destinations
    won: set<ArmyId>,                    // attack records that succeeded
    dislodged: set<ArmyId>,              // decided dislodged
    retreating: set<ArmyId>,             // driven out by a recorded winner
    vacated: set<ArmyId>,
    winner: map<TerritoryId, ArmyId>)

  /** `peaceful` are the armies of the turn with a join or a dispersion. */
  datatype CombatFacts =
    | DecisionFacts(view: View, peaceful: set<ArmyId>, subject: ArmyId, leaving: bool)
    | SettledFacts(contest: Contest)

  /** The army's attack reaches its destination. */
  predicate AttackMoves(c: Context, f: CombatFacts, a: ArmyId)
  {
    match f
    case DecisionFacts(v, _, _, _) => Moves(c, v, a)
    case SettledFacts(k) => a in c.attacks && a in k.standing && a in k.won
  }

  /** The subject of an adjudication is taken as not dislodged. */
  predicate IsDislodged(c: Context, f: CombatFacts, a: ArmyId)
  {
    match f
    case DecisionFacts(v, _, subject, _) => a != subject && Holds(v, Dislodged(a))
    case SettledFacts(k) => a in k.retreating
  }

  /** The army no longer holds its origin. */
  predicate Gone(c: Context, f: CombatFacts, a: ArmyId)
  {
    match f
    case DecisionFacts(v, peaceful, subject, leaving) =>
      || (leaving && a == subject)
      || (if a in c.attacks then Moves(c, v, a) else a in peaceful && Holds(v, Departure(a)))
      || IsDislodged(c, f, a)
    case SettledFacts(k) => a in k.vacated || a in k.dislodged
  }

  /** An attack counts unless it is an ally's attack on an army that stays. */
  predicate CountsAgainst(c: Context, f: CombatFacts, t: TerritoryId, b: ArmyId)
  {
    match OccupantAt(c, t)
    case None => true
    case Some(d) => OwnerOf(c, b) != OwnerOf(c, d) || Gone(c, f, d)
  }

  predicate Attacked(c: Context, f: CombatFacts, t: TerritoryId)
  {
    exists b :: b in Attackers(c, t) && (f.SettledFacts? ==> b in f.contest.standing)
                && CountsAgainst(c, f, t, b)
  }

  /** The attack that wins the combat on a territory. */
  function WinnerAt(c: Context, f: CombatFacts, t: TerritoryId): Option<ArmyId>
  {
    match f
    case DecisionFacts(v, _, _, _) =>
      var movers := set a | a in Attackers(c, t) && Moves(c, v, a);
      if movers == {} then None else Some(Least(movers))
    case SettledFacts(k) => if t in k.winner then Some(k.winner[t]) else None
  }

  /** The army starting on a territory leaves it, or there is none. */
  predicate DefenderLeaves(c: Context, f: CombatFacts, t: TerritoryId)
  {
    match OccupantAt(c, t)
    case None => true
    case Some(d) => Gone(c, f, d)
  }
}
