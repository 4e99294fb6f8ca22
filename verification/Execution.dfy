/**
 From a settled turn to the board after its movements: the adjudicator's
 departures are the origins the execution empties, nobody shares a territory,
 and no troop is lost.
 */
module Execution {
  import opened Wrappers
  import opened SortedIds
  import opened Turn
  import opened Facts
  import opened Peaceful
  import opened Combat
  import opened Greatest
  import opened Components
  import opened SettledTurn
  import opened Contests
  import opened ContestRecords
  import opened Locality
  import opened FactReads
  import opened FactQueries
  import opened JoinRules
  import opened DispersionRules
  import opened Presences
  import opened SettledCombat
  import opened Ledger
  import opened Movement
  import opened PeacefulTurns

  // ---------- the whole execution

  /** Records the combat of a settled turn, and runs the rules of joins and dispersions on the record. */
  method RunOnRecord(c: Context, v: View) returns (f: CombatFacts, end: Rules)
    requires SettledTurnOf(c, v)
    ensures f == Recorded(c, v) && end == RunRules(c, f)
  {
    var record := new ContestRecord(c, v);
    record.ResolveContests();
    f := SettledFacts(record.Result());
    RecordInformed(c, record.Result());
    var rules := new PeacefulTurn(c, f);
    rules.ResolvePeacefulMovements();
    end := rules.State();
  }

  /**
   Executes a settled turn and records who holds what. Two armies never share a
   territory, so the occupancy always comes out; and each stands where an order of its
   player took troops or left them.
   */
  method ExecuteMovements(c: Context, v: View, nextArmy: nat) returns (field: Field, occupancy: Occupancy)
    requires SettledTurnOf(c, v) && forall b :: b in c.armies ==> b < nextArmy
    ensures fresh(field) && field.c == c && field.end == RunRules(c, Recorded(c, v)) && field.f == Recorded(c, v)
    ensures nextArmy <= field.nextArmy && field.Arranged(field.live, nextArmy, field.nextArmy)
    ensures forall b :: b in field.live ==> Rightful(c, field.f, field.end, field.live[b].territory, field.live[b].owner)
    ensures forall q: Tally :: Strength(field.live, q) == field.Expected(q)
    ensures field.Linked() && forall m :: m in field.end.dispersed ==> field.NameKept(m, field.live)
    ensures occupancy.Occupancy? && forall a :: a in field.live ==>
              field.live[a].territory in occupancy.armyAt && occupancy.armyAt[field.live[a].territory] == a
  {
    var f, end := RunOnRecord(c, v);
    SettledFought(c, v);
    RunIsOutcome(c, f);
    field := new Field(c, f, end, nextArmy);
    ghost var steps;
    var status;
    status, steps := field.ExecuteNormalMovements();
    field.ArrangedRightful(field.live, nextArmy, field.nextArmy);
    occupancy := RebuildOccupancy(field.live);
  }

  // ---------- conservation

  /** A tally of one player's troops, wherever they are. */
  ghost function TroopsOf(p: PlayerId): Tally
  {
    (owner: PlayerId, t: TerritoryId) => owner == p
  }

  /** The troops of one army, if it is the player's. */
  ghost function StartSize(c: Context, p: PlayerId): ArmyId -> int
  {
    (b: ArmyId) => if b in c.armies && c.armies[b].owner == p then c.armies[b].size else 0
  }

  /** Moves, splits, allied arrivals and fusions neither create nor lose a player's troops. */
  lemma TroopsConserved(field: Field, p: PlayerId)
    ensures field.Expected(TroopsOf(p)) == Sum(field.Survivors(), StartSize(field.c, p))
  {
    forall b ensures field.Pending({}, TroopsOf(p))(b) == StartSize(field.c, p)(b) {
      if b in field.end.dispersed && field.DispersalFits(b) { field.SentWhole(b, TroopsOf(p), p); }
    }
    SumSame(field.Survivors(), field.Pending({}, TroopsOf(p)), StartSize(field.c, p));
    field.EndExpected(TroopsOf(p));
  }

  // ---------- departures

  /** The army leaves no troop on its origin. */
  predicate LeavesNobody(c: Context, f: CombatFacts, end: Rules, a: ArmyId)
    requires a in c.armies
  {
    var t := c.armies[a].territory;
    !StaysAt(c, f, end, a, t) && !KeepsAt(c, end, a, t)
  }

  /** A dispersion that ran out of troops before its targets, none of them its origin. */
  predicate RanOut(c: Context, end: Rules, m: ArmyId)
  {
    && m in end.dispersed && m in c.disperses && end.dispersed[m].remaining == 0
    && !IsComplete(end.dispersed[m].resolved) && !Reaches(c.disperses[m], end.dispersed[m].resolved, c.disperses[m].source)
  }

  lemma {:induction false} AllTrue(bits: seq<bool>)
    ensures CountTrue(bits) <= |bits| && (CountTrue(bits) == |bits| <==> IsComplete(bits))
  {
    if bits != [] {
      AllTrue(bits[1..]);
      assert IsComplete(bits) <==> bits[0] && IsComplete(bits[1..]) by {
        if bits[0] && IsComplete(bits[1..]) {
          forall i | 0 <= i < |bits| ensures bits[i] { assert i > 0 ==> bits[1..][i - 1]; }
        }
        if IsComplete(bits) {
          forall i | 0 <= i < |bits[1..]| ensures bits[1..][i] { assert bits[i + 1]; }
        }
      }
    }
  }

  lemma SentAwayIff(c: Context, end: Rules, m: ArmyId)
    requires m in end.dispersed && m in c.disperses && |end.dispersed[m].resolved| == |c.disperses[m].targets|
    ensures AllSentAway(c.disperses[m], end.dispersed[m].resolved)
       <==> IsComplete(end.dispersed[m].resolved) && !Reaches(c.disperses[m], end.dispersed[m].resolved, c.disperses[m].source)
  {
  }

  lemma DispersionEmpties(c: Context, f: CombatFacts, end: Rules, m: ArmyId)
    requires IsOutcome(c, f, end) && m in end.dispersed && m in c.disperses && m in c.armies
    ensures LeavesNobody(c, f, end, m) <==> VacatesSource(c, end, m) || RanOut(c, end, m)
  {
    DisperserFacts(c, f, end, m);
    SentAwayIff(c, end, m);
  }

  /**
   Which origins the execution empties: those settled as departures, and those of
   dispersions that ran out of troops.
   */
  lemma OriginEmptied(c: Context, v: View, a: ArmyId)
    requires Prepared(c) && v.Keys == Decisions(c) && Consistent(c, v) && IsPeaceful(c, a)
    ensures var f := Recorded(c, v); var end := RunRules(c, f);
            LeavesNobody(c, f, end, a) <==> Holds(v, Departure(a)) || RanOut(c, end, a)
  {
    AllReadsClosed(c);
    SettledFought(c, v);
    RunIsOutcome(c, Recorded(c, v));
    ExecutionMatchesDepartures(c, v, a);
    EmptiesIff(c, v, Recorded(c, v), RunRules(c, Recorded(c, v)), a);
  }

  lemma EmptiesIff(c: Context, v: View, f: CombatFacts, end: Rules, a: ArmyId)
    requires SettledTurnOf(c, v) && f == Recorded(c, v) && IsOutcome(c, f, end) && end == RunRules(c, f) && IsPeaceful(c, a)
    ensures a in c.armies && (LeavesNobody(c, f, end, a) <==> OutcomeIn(c, end, a).departs || RanOut(c, end, a))
  {
    if a in end.dispersed {
      DisperserEmpties(c, f, end, a);
    } else {
      OtherEmpties(c, v, f, end, a);
    }
  }

  lemma DispersalRead(c: Context, f: CombatFacts, end: Rules, a: ArmyId)
    requires a in end.dispersed && a !in c.joins && OutcomeOf(end, a) != Invalid && !end.dispersed[a].invalid
    ensures OutcomeIn(c, end, a).departs <==> VacatesSource(c, end, a)
  {
  }

  lemma DisperserEmpties(c: Context, f: CombatFacts, end: Rules, a: ArmyId)
    requires IsOutcome(c, f, end) && end == RunRules(c, f) && a in end.dispersed
    ensures a in c.armies && (LeavesNobody(c, f, end, a) <==> OutcomeIn(c, end, a).departs || RanOut(c, end, a))
  {
    DisperserFacts(c, f, end, a);
    FinalOutcomeOf(c, f, a);
    DispersalRead(c, f, end, a);
    DispersionEmpties(c, f, end, a);
  }

  lemma FinalOutcomeOf(c: Context, f: CombatFacts, m: ArmyId)
    requires OneOrderEach(c) && m in RunRules(c, f).dispersed
    ensures OutcomeOf(RunRules(c, f), m) != Invalid
  {
    FinalKeepsDispersions(c, f);
    FinalizeKeeps(c, f, m);
  }

  lemma OtherEmpties(c: Context, v: View, f: CombatFacts, end: Rules, a: ArmyId)
    requires SettledTurnOf(c, v) && f == Recorded(c, v) && IsOutcome(c, f, end) && IsPeaceful(c, a) && a !in end.dispersed
    ensures LeavesNobody(c, f, end, a) <==> OutcomeIn(c, end, a).departs
  {
    PeacefulNotDislodged(c, v, a);
    RetreatingIff(c, v, a);
    assert AttackMoves(c, f, a) ==> MoverEntered(c, f, a);
    PeacefulLeaves(c, f, end, a);
  }

  lemma PeacefulLeaves(c: Context, f: CombatFacts, end: Rules, a: ArmyId)
    requires a in c.armies && IsPeaceful(c, a) && !(a in c.joins && a in c.disperses) && a !in end.dispersed
    requires !IsDislodged(c, f, a) && !AttackMoves(c, f, a)
    ensures LeavesNobody(c, f, end, a) <==> OutcomeIn(c, end, a).departs
  {
  }
}
