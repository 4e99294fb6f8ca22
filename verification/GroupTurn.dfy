/** The join and dispersion rules run on one group of orders, as its departures are adjudicated. */
module GroupTurns {
  import opened Wrappers
  import opened Turn
  import opened Facts
  import opened Peaceful
  import opened Groups
  import opened Combat
  import opened Dependencies
  import opened PeacefulTurns

  /**
   Runs the rules on a copy of the turn restricted to the group of an army. They read
   the decisions one by one, and need no more of them than the group's dependencies.
   */
  method RunOnGroup(c: Context, v: View, a: ArmyId, leaving: bool) returns (outcome: PeacefulOutcome)
    requires WellFormed(c) && (IsPeaceful(c, a) ==> GroupReads(c, a) <= v.Keys)
    ensures outcome == OutcomeOfPeaceful(c, v, a, leaving)
  {
    if !IsPeaceful(c, a) {
      return PeacefulOutcome(false, None);
    }
    var scratch := Scratch(c, a);
    GroupInformed(c, v, a, leaving);
    var rules := new PeacefulTurn(scratch, FactsFor(c, v, a, leaving));
    rules.ResolvePeacefulMovements();
    outcome := OutcomeIn(scratch, rules.State(), a);
  }
}
