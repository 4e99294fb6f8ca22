/**
 The retreats of a turn: the armies its combat dislodged leave for the board its
 movements left.
 */
module TurnRetreats {
  import opened Wrappers
  import opened SortedIds
  import opened Turn
  import opened Facts
  import opened Contests
  import opened SettledCombat
  import opened Ledger
  import opened Movement
  import opened Retreats
  import RetreatOrder

  /** What retreats read of the map; castles may have fallen since the start of the turn. */
  datatype Surroundings = Surroundings(
    neighbors: map<TerritoryId, set<TerritoryId>>,
    anchor: map<TerritoryId, PlayerId>,
    castleBlocks: set<TerritoryId>,
    distance: (PlayerId, TerritoryId) -> nat)

  function Troops(p: Piece): nat
  {
    if p.size >= 0 then p.size else 0
  }

  /** The map as the retreats find it; the territories attacked are those of attacks not called off. */
  function GroundAfter(c: Context, k: Contest, live: Board, s: Surroundings): Ground
  {
    Ground(s.neighbors, map a | a in live :: live[a].territory, map a | a in live :: live[a].owner, map a | a in live :: Troops(live[a]),
           c.famished, s.anchor, s.castleBlocks, set b | b in k.standing && b in c.attacks :: c.attacks[b].target, s.distance)
  }

  /** The army driven out of t, and where the attack came from. */
  function EntryAt(c: Context, k: Contest, t: TerritoryId): Displaced
  {
    var d := if t in c.armyAt then c.armyAt[t] else 0;
    Displaced(d, OwnerOf(c, d), t, if t in k.winner && k.winner[t] in c.attacks then c.attacks[k.winner[t]].source else 0)
  }

  function Origins(c: Context, k: Contest): set<TerritoryId>
  {
    set d | d in k.retreating && d in c.armies :: c.armies[d].territory
  }

  /** The dislodged armies by origin. */
  function Entries(c: Context, k: Contest): (q: seq<Displaced>)
    ensures |q| == |Sorted(Origins(c, k))|
  {
    var order := Sorted(Origins(c, k));
    seq(|order|, i requires 0 <= i < |order| => EntryAt(c, k, order[i]))
  }

  /** An attack that moved onto the army's territory came from that place. */
  ghost predicate DroveOut(c: Context, v: View, d: ArmyId, origin: TerritoryId)
    requires d in c.armies
  {
    exists b :: b in Attackers(c, c.armies[d].territory) && Moves(c, v, b) && c.attacks[b].source == origin
  }

  lemma AttackerFound(c: Context, v: View, d: ArmyId)
    requires SettledTurnOf(c, v) && d in c.armies && Holds(v, Dislodged(d))
    ensures DroveOut(c, v, d, EntryAt(c, ContestOf(c, v), c.armies[d].territory).attackerOrigin)
  {
    var t := c.armies[d].territory;
    DislodgedIffEntered(c, v, d);
    var b :| b in Movers(c, v, t);
    MoverEnters(c, v, t, b);
    MoverRecorded(c, v, b);
  }

  /** A retreating army was dislodged from its origin, and knows where the attack came from. */
  ghost predicate IsEntry(c: Context, v: View, e: Displaced)
  {
    && e.army in c.armies && Holds(v, Dislodged(e.army)) && e.owner == OwnerOf(c, e.army)
    && e.origin == c.armies[e.army].territory && DroveOut(c, v, e.army, e.attackerOrigin)
  }

  lemma EntryIs(c: Context, v: View, t: TerritoryId)
    requires SettledTurnOf(c, v) && t in Origins(c, ContestOf(c, v))
    ensures IsEntry(c, v, EntryAt(c, ContestOf(c, v), t)) && EntryAt(c, ContestOf(c, v), t).origin == t
  {
    var d :| d in ContestOf(c, v).retreating && d in c.armies && c.armies[d].territory == t;
    RetreatingIff(c, v, d);
    AttackerFound(c, v, d);
  }

  lemma EntryFor(c: Context, v: View, d: ArmyId)
    requires SettledTurnOf(c, v) && d in c.armies && Holds(v, Dislodged(d))
    ensures c.armies[d].territory in Origins(c, ContestOf(c, v)) && EntryAt(c, ContestOf(c, v), c.armies[d].territory).army == d
  {
    RetreatingIff(c, v, d);
  }

  /** Each dislodged army retreats once, in the order of the origins. */
  lemma EntriesAre(c: Context, v: View)
    requires SettledTurnOf(c, v)
    ensures var q := Entries(c, ContestOf(c, v));
            && (forall i :: 0 <= i < |q| ==> IsEntry(c, v, q[i])) && (forall i, j :: 0 <= i < j < |q| ==> q[i].origin < q[j].origin)
            && forall d :: d in c.armies && Holds(v, Dislodged(d)) ==> exists i :: 0 <= i < |q| && q[i].army == d
  {
    var k := ContestOf(c, v);
    var order, q := Sorted(Origins(c, k)), Entries(c, k);
    forall i | 0 <= i < |q| ensures IsEntry(c, v, q[i]) && q[i].origin == order[i] {
      assert order[i] in order;
      EntryIs(c, v, order[i]);
    }
    forall i, j | 0 <= i < j < |q| ensures q[i].origin < q[j].origin {
      ListedBefore(order, j, i);
    }
    forall d | d in c.armies && Holds(v, Dislodged(d)) ensures exists i :: 0 <= i < |q| && q[i].army == d {
      EntryFor(c, v, d);
      var i :| 0 <= i < |order| && order[i] == c.armies[d].territory;
      assert q[i].army == d;
    }
  }

  /** No dislodged army is on the board. */
  ghost predicate NoneDislodged(c: Context, v: View, live: Board)
  {
    forall k :: k in live ==> !(k in c.armies && Holds(v, Dislodged(k)))
  }

  lemma DislodgedOff(c: Context, v: View, field: Field, first: nat)
    requires SettledTurnOf(c, v) && field.c == c && field.f == Recorded(c, v)
    requires field.Arranged(field.live, first, field.nextArmy) && forall b :: b in c.armies ==> b < first
    ensures NoneDislodged(c, v, field.live) && OnePerTerritory(field.live)
  {
    forall k | k in field.live && k in c.armies ensures !Holds(v, Dislodged(k)) {
      RetreatingIff(c, v, k);
    }
  }

  lemma EntriesApart(c: Context, v: View, live: Board)
    requires SettledTurnOf(c, v) && NoneDislodged(c, v, live)
    ensures var q := Entries(c, ContestOf(c, v));
            && (forall i :: 0 <= i < |q| ==> q[i].army !in live && q[i].army in c.armies && Holds(v, Dislodged(q[i].army)))
            && forall i, j :: 0 <= i < j < |q| ==> q[i].army != q[j].army
  {
    EntriesAre(c, v);
    var q := Entries(c, ContestOf(c, v));
    forall i | 0 <= i < |q| ensures q[i].army !in live && q[i].army in c.armies && Holds(v, Dislodged(q[i].army)) {
      assert IsEntry(c, v, q[i]);
    }
    forall i, j | 0 <= i < j < |q| ensures q[i].army != q[j].army {
      assert q[i].origin < q[j].origin;
      assert IsEntry(c, v, q[i]) && IsEntry(c, v, q[j]);
    }
  }

  lemma GroundIs(c: Context, k: Contest, live: Board, s: Surroundings)
    requires OnePerTerritory(live)
    ensures var g := GroundAfter(c, k, live, s);
            IsGround(g) && g.places.Keys == live.Keys && forall a :: a in live ==> g.places[a] == live[a].territory
  {
  }

  /**
   Retreats the armies a settled turn dislodged, from the board its movements left. No
   army of the board moves, no place is held twice, and each dislodged army has its fate.
   */
  method RetreatDislodged(c: Context, v: View, k: Contest, live: Board, s: Surroundings)
    returns (places: map<ArmyId, TerritoryId>, ghost choices: seq<Choice>)
    requires SettledTurnOf(c, v) && k == ContestOf(c, v) && NoneDislodged(c, v, live) && OnePerTerritory(live)
    ensures var g, entries := GroundAfter(c, k, live, s), Entries(c, k);
            && IsGround(g) && |choices| == |entries| && AreChoices(g, entries, choices)
            && forall i :: 0 <= i < |entries| ==>
                 && RetreatOrder.ChosenRight(g, entries[i], choices, i)
                 && (entries[i].army in places <==> FateOf(choices, i).Relocated?)
                 && (entries[i].army in places ==> places[entries[i].army] == FateOf(choices, i).place)
    ensures forall a :: a in live ==> a in places && places[a] == live[a].territory
    ensures forall a :: a in places ==> a in live || (a in c.armies && Holds(v, Dislodged(a)))
    ensures forall a, b :: a in places && b in places && places[a] == places[b] ==> a == b
  {
    var g, entries := GroundAfter(c, k, live, s), Entries(c, k);
    EntriesApart(c, v, live);
    GroundIs(c, k, live, s);
    places, choices := ExecuteRetreats(g, entries);
    forall i | 0 <= i < |entries| ensures RetreatOrder.ChosenRight(g, entries[i], choices, i) {
      RetreatOrder.ChoiceRight(g, entries, choices, i);
    }
  }
}
