/**
 The turn being resolved: armies, the orders that became intents, and the
 decisions the adjudicator settles. The engine keeps these in one mutable
 context; the adjudicator and the join and dispersion rules only read them, so
 here they are one value.
 */
module Turn {
  import opened Wrappers

  /** The number n of an army "An"; army identifiers sort by it. */
  type ArmyId = nat
  /** The rank of a territory trigram in lexicographic order. */
  type TerritoryId = nat
  type PlayerId = nat
  type NobleId = nat

  datatype Army = Army(owner: PlayerId, territory: TerritoryId, size: nat, starvingStrength: nat)

  datatype Attack = Attack(source: TerritoryId, target: TerritoryId, size: nat)

  datatype Join = Join(source: TerritoryId, target: TerritoryId)

  /** `nobles` are the nobles standing on the source, `assignments` where the order sends them. */
  datatype Disperse = Disperse(
    source: TerritoryId, targets: seq<TerritoryId>, loop: bool,
    assignments: map<TerritoryId, set<NobleId>>, nobles: set<NobleId>)

  /** An offensive support names the destination of the attack it helps. */
  datatype Support = Support(
    source: TerritoryId, supported: TerritoryId, targetArmy: Option<ArmyId>,
    destination: Option<TerritoryId>, applies: bool)

  datatype Context = Context(
    armies: map<ArmyId, Army>,
    armyAt: map<TerritoryId, ArmyId>,
    attacks: map<ArmyId, Attack>,
    joins: map<ArmyId, Join>,
    disperses: map<ArmyId, Disperse>,
    supports: map<ArmyId, Support>,
    famished: set<ArmyId>,
    tunneled: set<ArmyId>,
    fortification: map<TerritoryId, nat>,
    command: map<ArmyId, nat>,
    controller: map<TerritoryId, PlayerId>)

  /** What the adjudicator decides about an army. */
  datatype Decision =
    | Move(army: ArmyId)       // its attack reaches its destination
    | Departure(army: ArmyId)  // its join or dispersion empties its origin
    | Dislodged(army: ArmyId)  // it stays and is driven out

  /** Values of decisions: settled ones, or those of a cycle being searched. */
  type View = map<Decision, bool>

  predicate Holds(v: View, d: Decision)
  {
    d in v && v[d]
  }

  // Lookups give the zero value of a missing key, as Go maps do.

  function OwnerOf(c: Context, a: ArmyId): PlayerId
  {
    if a in c.armies then c.armies[a].owner else 0
  }

  function SizeOf(c: Context, a: ArmyId): nat
  {
    if a in c.armies then c.armies[a].size else 0
  }

  /** The army starting the turn on a territory. */
  function OccupantAt(c: Context, t: TerritoryId): Option<ArmyId>
  {
    if t in c.armyAt then Some(c.armyAt[t]) else None
  }

  /** The attacks directed at a territory. */
  function Attackers(c: Context, t: TerritoryId): set<ArmyId>
  {
    set a | a in c.attacks && c.attacks[a].target == t
  }

  predicate IsPeaceful(c: Context, a: ArmyId)
  {
    a in c.joins || a in c.disperses
  }

  /**
   What game state validation and order enumeration guarantee: one army per
   territory, one order per army, given from where the army stands, a
   destination other than that place, and no attack by a famished army.
   */
  ghost predicate WellFormed(c: Context)
  {
    && (forall a :: a in c.armies ==>
          c.armies[a].size >= 1 && c.armies[a].territory in c.armyAt && c.armyAt[c.armies[a].territory] == a)
    && (forall t :: t in c.armyAt ==> c.armyAt[t] in c.armies && c.armies[c.armyAt[t]].territory == t)
    && (forall a :: a in c.attacks ==>
          a in c.armies && c.attacks[a].source == c.armies[a].territory && c.attacks[a].target != c.attacks[a].source
          && c.attacks[a].size == c.armies[a].size && a !in c.famished && !IsPeaceful(c, a) && a !in c.supports)
    && (forall a :: a in c.joins ==>
          a in c.armies && c.joins[a].source == c.armies[a].territory && c.joins[a].target != c.joins[a].source
          && a !in c.disperses && a !in c.supports)
    && (forall a :: a in c.disperses ==>
          a in c.armies && c.disperses[a].source == c.armies[a].territory && a !in c.supports)
    && (forall a :: a in c.supports ==> a in c.armies && c.supports[a].source == c.armies[a].territory)
  }

  /** calculateSupports: whom a support helps, and whether it applies. */
  ghost predicate SupportsCalculated(c: Context)
  {
    forall s :: s in c.supports ==>
      var support := c.supports[s];
      && support.targetArmy == OccupantAt(c, support.supported)
      && (support.applies <==>
          support.targetArmy.Some? &&
          match support.destination
          case Some(d) => support.targetArmy.value in c.attacks && c.attacks[support.targetArmy.value].target == d
          case None => support.targetArmy.value !in c.attacks)
  }

  /** cancelAttackedOriginPeaceful: no join or dispersion leaves an attacked territory. */
  ghost predicate NoAttackedOrigin(c: Context)
  {
    && (forall a, b :: a in c.joins && b in c.attacks ==> c.attacks[b].target != c.joins[a].source)
    && (forall a, b :: a in c.disperses && b in c.attacks ==> c.attacks[b].target != c.disperses[a].source)
  }

  /** A context as the adjudicator receives it. */
  ghost predicate Prepared(c: Context)
  {
    WellFormed(c) && SupportsCalculated(c) && NoAttackedOrigin(c)
  }

  /** The decisions of a turn. */
  ghost function Decisions(c: Context): set<Decision>
  {
    (set a | a in c.attacks :: Move(a))
    + (set a | a in c.joins.Keys + c.disperses.Keys :: Departure(a))
    + (set a | a in c.armies :: Dislodged(a))
  }

  // What an army does, read from the decisions.

  predicate Moves(c: Context, v: View, a: ArmyId)
  {
    a in c.attacks && Holds(v, Move(a))
  }

  predicate Departs(c: Context, v: View, a: ArmyId)
  {
    IsPeaceful(c, a) && Holds(v, Departure(a))
  }

  /** It neither won its attack nor completed a join or a dispersion. */
  predicate Stays(c: Context, v: View, a: ArmyId)
  {
    if a in c.attacks then !Moves(c, v, a) else !Departs(c, v, a)
  }
}
