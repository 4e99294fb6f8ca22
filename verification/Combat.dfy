/**
 The adjudication of each decision as a function of the others: the move
 equation, the strengths, dislodgement and departure.
 */
module Combat {
  import opened Wrappers
  import opened SortedIds
  import opened Turn
  import opened Facts
  import opened Peaceful
  import opened Groups

  // ---------- departures

  /** Whether an army empties its origin or, for a partial dispersion, how many troops stay. */
  datatype PeacefulOutcome = PeacefulOutcome(departs: bool, residual: Option<int>)

  /** Reads one army's outcome from the rules run on its group. */
  function OutcomeIn(c: Context, st: Rules, a: ArmyId): PeacefulOutcome
  {
    if a in c.joins then PeacefulOutcome(OutcomeOf(st, a) == Success, None)
    else if a !in st.dispersed || OutcomeOf(st, a) == Invalid || st.dispersed[a].invalid
    then PeacefulOutcome(false, None)
    else if VacatesSource(c, st, a) then PeacefulOutcome(true, None)
    else if !IsComplete(st.dispersed[a].resolved) then PeacefulOutcome(false, Some(st.dispersed[a].remaining))
    else PeacefulOutcome(false, None)
  }

  function FactsFor(c: Context, v: View, a: ArmyId, leaving: bool): CombatFacts
  {
    DecisionFacts(v, c.joins.Keys + c.disperses.Keys, a, leaving)
  }

  /** With `leaving`, the other movements take the army as gone from its origin. */
  function OutcomeOfPeaceful(c: Context, v: View, a: ArmyId, leaving: bool): PeacefulOutcome
  {
    if !IsPeaceful(c, a) then PeacefulOutcome(false, None)
    else
      var scratch := Scratch(c, a);
      OutcomeIn(scratch, RunRules(scratch, FactsFor(c, v, a, leaving)), a)
  }

  // ---------- strengths

  function FortificationBonus(c: Context, t: TerritoryId): nat
  {
    if t in c.fortification then c.fortification[t] else 0
  }

  /** A famished army gets no bonus from the nobles standing with it. */
  function NobleCommandBonus(c: Context, a: ArmyId): nat
  {
    if a in c.command && a !in c.famished then c.command[a] else 0
  }

  function TroopStrength(c: Context, a: ArmyId): nat
  {
    SizeOf(c, a) + NobleCommandBonus(c, a)
  }

  /** The origin an attack may come from without cutting the support. */
  function ExemptOrigin(support: Support): TerritoryId
  {
    match support.destination
    case Some(d) => d
    case None => support.supported
  }

  /** Cut by an enemy attack on the supporter that does not come from where the support is directed. */
  predicate StaticallyCut(c: Context, s: ArmyId)
    requires s in c.supports
  {
    exists b :: b in c.attacks && c.attacks[b].target == c.supports[s].source
                && c.attacks[b].source != ExemptOrigin(c.supports[s]) && OwnerOf(c, b) != OwnerOf(c, s)
  }

  /** Supports that count unless their army is dislodged. */
  predicate SupportStands(c: Context, s: ArmyId)
  {
    s in c.supports && c.supports[s].applies && !StaticallyCut(c, s) && s !in c.famished
  }

  /** The standing supports given to an army, to its attack or to its defense. */
  function StandingSupports(c: Context, a: ArmyId, offensive: bool): set<ArmyId>
  {
    set s | s in c.supports && SupportStands(c, s) && c.supports[s].targetArmy == Some(a)
            && c.supports[s].destination.Some? == offensive
  }

  function CountedSupports(c: Context, v: View, a: ArmyId, offensive: bool): set<ArmyId>
  {
    set s | s in StandingSupports(c, a, offensive) && !Holds(v, Dislodged(s))
  }

  /** The strength of the supporters in a set, added in the order of the list. */
  function Total(c: Context, order: seq<ArmyId>, counted: set<ArmyId>): nat
  {
    if order == [] then 0
    else (if order[0] in counted then TroopStrength(c, order[0]) else 0) + Total(c, order[1..], counted)
  }

  function SupportTotal(c: Context, counted: set<ArmyId>): nat
  {
    Total(c, Sorted(c.supports.Keys), counted)
  }

  function OwnedBy(c: Context, s: set<ArmyId>, owner: PlayerId): set<ArmyId>
  {
    set a | a in s && OwnerOf(c, a) == owner
  }

  /** The full strength of an attack. */
  function AttackForce(c: Context, v: View, a: ArmyId): nat
    requires a in c.attacks
  {
    c.attacks[a].size + NobleCommandBonus(c, a) + SupportTotal(c, CountedSupports(c, v, a, true))
  }

  /** The part of it given by supports of one player. */
  function AttackHelp(c: Context, v: View, a: ArmyId, against: PlayerId): nat
  {
    SupportTotal(c, OwnedBy(c, CountedSupports(c, v, a, true), against))
  }

  function OwnForce(c: Context, v: View, a: ArmyId, against: PlayerId): int
    requires a in c.attacks
  {
    AttackForce(c, v, a) - AttackHelp(c, v, a, against)
  }

  /** The troops of a defender: those a partial dispersion leaves, at most those fed if famished. */
  function SizeWith(c: Context, d: ArmyId, residual: Option<int>): int
  {
    var size: int := match residual case Some(n) => n case None => SizeOf(c, d);
    if d in c.famished && d in c.armies && c.armies[d].starvingStrength < size then c.armies[d].starvingStrength else size
  }

  /** A dislodged dispersion is measured as if it had left. */
  function DefendingSize(c: Context, v: View, d: ArmyId): int
  {
    SizeWith(c, d, OutcomeOfPeaceful(c, v, d, IsPeaceful(c, d) && Holds(v, Dislodged(d))).residual)
  }

  /** The defense of an army that stays on its origin. */
  function HoldStrength(c: Context, v: View, d: ArmyId, t: TerritoryId): int
  {
    FortificationBonus(c, t) + DefendingSize(c, v, d) + NobleCommandBonus(c, d)
    + SupportTotal(c, CountedSupports(c, v, d, false))
  }

  /** A tunnel card ignores the fortifications of the target. */
  function HoldStrengthAgainst(c: Context, v: View, d: ArmyId, t: TerritoryId, a: ArmyId): int
  {
    HoldStrength(c, v, d, t) - (if a in c.tunneled then FortificationBonus(c, t) else 0)
  }

  predicate CastleOwnedByAllAttackers(c: Context, t: TerritoryId)
  {
    && t in c.controller
    && Attackers(c, t) != {}
    && forall b :: b in Attackers(c, t) ==> OwnerOf(c, b) == c.controller[t]
  }

  // ---------- the move equation

  /** The army on the attack's destination attacks the attack's origin. */
  predicate HeadToHead(c: Context, a: ArmyId)
    requires a in c.attacks
  {
    match OccupantAt(c, c.attacks[a].target)
    case None => false
    case Some(d) => d in c.attacks && c.attacks[d].target == c.attacks[a].source
  }

  /** The attack lost its head-to-head battle: its opponent moved into its origin. */
  predicate RetiredGhost(c: Context, v: View, a: ArmyId)
    requires a in c.attacks
  {
    HeadToHead(c, a) && Moves(c, v, OccupantAt(c, c.attacks[a].target).value)
  }

  /** Attack a outmatches its head-to-head opponent d on forces of neither's owner's help. */
  predicate WinsHeadToHead(c: Context, v: View, a: ArmyId, d: ArmyId)
    requires a in c.attacks && d in c.attacks
  {
    OwnerOf(c, d) != OwnerOf(c, a) && OwnForce(c, v, a, OwnerOf(c, d)) > OwnForce(c, v, d, OwnerOf(c, a))
  }

  /** The army on the destination stays. */
  predicate DefenderStays(c: Context, v: View, t: TerritoryId)
  {
    match OccupantAt(c, t)
    case None => false
    case Some(d) => Stays(c, v, d)
  }

  /** What the attack brings against its destination. */
  function MoveStrength(c: Context, v: View, a: ArmyId): int
    requires a in c.attacks
  {
    var t := c.attacks[a].target;
    if DefenderStays(c, v, t) then OwnForce(c, v, a, OwnerOf(c, OccupantAt(c, t).value))
    else AttackForce(c, v, a)
  }

  /** What it must exceed there. */
  function MoveThreshold(c: Context, v: View, a: ArmyId): int
    requires a in c.attacks
  {
    var t := c.attacks[a].target;
    if DefenderStays(c, v, t) then HoldStrengthAgainst(c, v, OccupantAt(c, t).value, t, a)
    else if FortificationBonus(c, t) > 0 && a !in c.tunneled && !CastleOwnedByAllAttackers(c, t)
    then FortificationBonus(c, t)
    else -1
  }

  /** A rival attack does not prevent a move of that strength: it is a ghost, or weaker. */
  predicate YieldsTo(c: Context, v: View, b: ArmyId, strength: int)
    requires b in c.attacks
  {
    RetiredGhost(c, v, b) || strength > AttackForce(c, v, b)
  }

  /** Every other attack on the destination yields. */
  predicate BeatsRivals(c: Context, v: View, a: ArmyId)
    requires a in c.attacks
  {
    forall b :: b in Attackers(c, c.attacks[a].target) && b != a ==> YieldsTo(c, v, b, MoveStrength(c, v, a))
  }

  /** The attack wins its head-to-head battle, and exceeds what holds its destination. */
  predicate BeatsDefense(c: Context, v: View, a: ArmyId)
    requires a in c.attacks
  {
    var t := c.attacks[a].target;
    && (HeadToHead(c, a) ==> WinsHeadToHead(c, v, a, OccupantAt(c, t).value))
    && (DefenderStays(c, v, t) ==> OwnerOf(c, OccupantAt(c, t).value) != OwnerOf(c, a))
    && MoveStrength(c, v, a) > MoveThreshold(c, v, a)
  }

  predicate AdjudicateMove(c: Context, v: View, a: ArmyId)
    requires a in c.attacks
  {
    BeatsDefense(c, v, a) && BeatsRivals(c, v, a)
  }

  predicate AdjudicateDislodged(c: Context, v: View, a: ArmyId)
  {
    && a in c.armies
    && Attackers(c, c.armies[a].territory) != {}
    && Stays(c, v, a)
    && exists b :: b in Attackers(c, c.armies[a].territory) && Moves(c, v, b)
  }

  predicate Adjudicate(c: Context, v: View, d: Decision)
  {
    match d
    case Move(a) => a in c.attacks && AdjudicateMove(c, v, a)
    case Departure(a) => OutcomeOfPeaceful(c, v, a, false).departs
    case Dislodged(a) => AdjudicateDislodged(c, v, a)
  }
}
