/** The recorded contest, and the map the retreats find, read off the settled decisions. */
module ContestRead {
  import opened Wrappers
  import opened SortedIds
  import opened Turn
  import opened Facts
  import opened Combat
  import opened Greatest
  import opened Components
  import opened SettledTurn
  import opened Contests
  import opened Ledger
  import opened Retreats
  import opened TurnRetreats
  import opened MoveEquation
  import opened PeacefulEquation

  lemma CalledOffIs(c: Context, v: View, b: ArmyId)
    requires WellFormed(c) && b in c.attacks
    ensures CalledOff(c, v, b) <==>
              && Held(c, v, c.attacks[b].target) && c.armies[c.armyAt[c.attacks[b].target]].owner == c.armies[b].owner
              && !Said(v, Dislodged(b))
  {
    if c.attacks[b].target in c.armyAt { RemainsIs(c, v, c.armyAt[c.attacks[b].target]); }
  }

  lemma StandingRead(c: Context, v: View, b: ArmyId)
    requires b in c.attacks
    ensures b in ContestOf(c, v).standing <==> !CalledOff(c, v, b)
  {
  }

  /** An attack stands unless it is directed at an ally that keeps its place, and its own army keeps its own. */
  lemma StandsIff(c: Context, v: View, b: ArmyId)
    requires WellFormed(c) && b in c.attacks
    ensures b in ContestOf(c, v).standing <==>
              (Held(c, v, c.attacks[b].target) ==>
                 c.armies[c.armyAt[c.attacks[b].target]].owner != c.armies[b].owner || Said(v, Dislodged(b)))
  {
    CalledOffIs(c, v, b);
    StandingRead(c, v, b);
  }

  /** The recorded winner of a territory is the attack that enters it. */
  lemma WinnerIff(c: Context, v: View, t: TerritoryId, b: ArmyId)
    requires SettledTurnOf(c, v) && c.attacks != map[]
    ensures t in ContestOf(c, v).winner && ContestOf(c, v).winner[t] == b <==> Enters(c, v, b, t)
  {
    if Enters(c, v, b, t) { MoverRecorded(c, v, b); }
    if t in RecordedWinners(c, v) { WinnersMove(c, v, t); }
  }

  /** The armies recorded as gone are those whose order took them away, and those recorded as dislodged are decided so. */
  lemma GoneIff(c: Context, v: View, d: ArmyId)
    requires SettledTurnOf(c, v) && c.attacks != map[] && d in c.armies
    ensures d in ContestOf(c, v).vacated <==> !Remains(c, v, d)
    ensures d in ContestOf(c, v).dislodged <==> Said(v, Dislodged(d))
    ensures d in ContestOf(c, v).retreating <==> Said(v, Dislodged(d))
  {
    RetreatingIff(c, v, d);
    VacatedIff(c, v, d);
    RemainsIs(c, v, d);
  }

  /** The map the retreats find: the board, and the territories of the attacks that stand. */
  lemma MapIs(c: Context, v: View, live: Board, s: Surroundings, t: TerritoryId, a: ArmyId)
    requires WellFormed(c)
    ensures var g := GroundAfter(c, ContestOf(c, v), live, s);
            && (t in g.attacked <==>
                  exists b :: b in c.attacks && c.attacks[b].target == t
                    && (Held(c, v, t) ==> c.armies[c.armyAt[t]].owner != c.armies[b].owner || Said(v, Dislodged(b))))
            && (a in g.places <==> a in live) && (a in g.owners <==> a in live) && (a in g.sizes <==> a in live)
            && (a in live ==> g.places[a] == live[a].territory && g.owners[a] == live[a].owner && (live[a].size >= 0 ==> g.sizes[a] == live[a].size))
            && g.neighbors == s.neighbors && g.anchor == s.anchor && g.castleBlocks == s.castleBlocks && g.distance == s.distance
            && g.famished == c.famished
  {
    var k := ContestOf(c, v);
    forall b | b in c.attacks
      ensures b in k.standing <==>
                (Held(c, v, c.attacks[b].target) ==>
                   c.armies[c.armyAt[c.attacks[b].target]].owner != c.armies[b].owner || Said(v, Dislodged(b)))
    {
      StandsIff(c, v, b);
    }
    AttackedOf(c, k, live, s, t);
  }

  lemma AttackedOf(c: Context, k: Contest, live: Board, s: Surroundings, t: TerritoryId)
    ensures t in GroundAfter(c, k, live, s).attacked <==> exists b :: b in c.attacks && b in k.standing && c.attacks[b].target == t
  {
  }
}
