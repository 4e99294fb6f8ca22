/** One turn, from the orders to the board. */
module TurnResolution {
  import opened Wrappers
  import opened Turn
  import opened Facts
  import opened Peaceful
  import opened Greatest
  import opened SettledTurn
  import opened Contests
  import opened SettledCombat
  import opened Ledger
  import opened Movement
  import opened Execution
  import Intentions
  import opened Retreats
  import opened TurnRetreats
  import opened BoardEquation
  import RetreatOrder
  import Adjudicator

  /** Turns the orders into a prepared turn, and settles it. */
  method SettleTurn(start: Intentions.Start, orders: map<ArmyId, Intentions.Command>)
    returns (intents: Intentions.Intents, c: Context, v: View)
    requires Intentions.IsStart(start) && Intentions.Validated(orders)
    ensures intents.b == start && intents.orders == orders && intents.Given() && intents.Complete() && c == intents.Result()
    ensures Prepared(c) && v == GreatestResolution(c) && SettledTurnOf(c, v) && c.armies == start.armies
  {
    intents := new Intentions.Intents(start, orders);
    intents.Prepare();
    c := intents.Result();
    var adjudicator := new Adjudicator.Adjudicator(c);
    adjudicator.ResolveAll();
    v := adjudicator.settled;
  }

  /**
   Resolves a turn whose orders passed static validation. No cycle falls back to
   the status quo, the decisions are the greatest consistent resolution, every
   troop ends where its order takes it, among its player's, and no two armies share a
   territory, before the retreats or after.
   */
  method ResolveTurn(start: Intentions.Start, orders: map<ArmyId, Intentions.Command>, nextArmy: nat, s: Surroundings)
    returns (intents: Intentions.Intents, c: Context, v: View, field: Field, occupancy: Occupancy,
             places: map<ArmyId, TerritoryId>, ghost choices: seq<Choice>)
    requires Intentions.IsStart(start) && Intentions.Validated(orders)
    requires forall b :: b in start.armies ==> b < nextArmy
    ensures intents.b == start && intents.orders == orders && intents.Given() && intents.Complete() && c == intents.Result()
    ensures Prepared(c) && v == GreatestResolution(c)
    ensures fresh(field) && field.c == c && field.end == RunRules(c, Recorded(c, v)) && field.f == Recorded(c, v)
    ensures nextArmy <= field.nextArmy && field.Arranged(field.live, nextArmy, field.nextArmy)
    ensures forall b :: b in field.live ==> Rightful(c, field.f, field.end, field.live[b].territory, field.live[b].owner)
    ensures forall k :: k in field.live ==>
              field.live[k].size == Sum(Undislodged(c, v, field.live[k].owner), TroopsTo(c, v, field.end, field.live[k].territory))
    ensures forall m :: m in field.end.dispersed ==> field.NameKept(m, field.live)
    ensures occupancy.Occupancy? && forall a :: a in field.live ==>
              field.live[a].territory in occupancy.armyAt && occupancy.armyAt[field.live[a].territory] == a
    ensures var g, entries := GroundAfter(c, ContestOf(c, v), field.live, s), Entries(c, ContestOf(c, v));
            && IsGround(g) && |choices| == |entries| && AreChoices(g, entries, choices)
            && forall i :: 0 <= i < |entries| ==>
                 && RetreatOrder.ChosenRight(g, entries[i], choices, i)
                 && (entries[i].army in places <==> FateOf(choices, i).Relocated?)
                 && (entries[i].army in places ==> places[entries[i].army] == FateOf(choices, i).place)
    ensures forall a :: a in field.live ==> a in places && places[a] == field.live[a].territory
    ensures forall a :: a in places ==> a in field.live || (a in c.armies && Holds(v, Dislodged(a)))
    ensures forall a, b :: a in places && b in places && places[a] == places[b] ==> a == b
  {
    intents, c, v := SettleTurn(start, orders);
    field, occupancy := ExecuteMovements(c, v, nextArmy);
    WorthOf(field, c, v, field.live);
    DislodgedOff(c, v, field, nextArmy);
    places, choices := RetreatDislodged(c, v, field.f.contest, field.live, s);
  }
}
