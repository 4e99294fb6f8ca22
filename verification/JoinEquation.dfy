/**
 Joins read off a settled turn: exactly which ones succeed, and into which army they
 go, in terms of the orders, the decisions and the targets the dispersions serve.
 */
module JoinEquation {
  import opened Wrappers
  import opened SortedIds
  import opened Turn
  import opened Facts
  import opened Peaceful
  import opened Greatest
  import opened SettledTurn
  import opened Combat
  import opened Contests
  import opened FactReads
  import opened JoinRules
  import opened DispersionRules
  import opened Presences
  import opened SettledCombat
  import opened Execution
  import opened MoveEquation
  import opened PeacefulEquation

  /** A dispersion carried out sends a troop to the territory at once, or does not leave its origin there empty. */
  ghost predicate Visits(c: Context, v: View, end: Rules, m: ArmyId, t: TerritoryId)
    requires WellFormed(c)
  {
    && m in Carried(end) && m in c.disperses
    && var d, sent := c.disperses[m], ServedAtOnce(c, v, Carried(end), m);
    if t == d.source then |d.targets| != c.armies[m].size || exists i :: 0 <= i < |d.targets| && (i !in sent || d.targets[i] == t)
    else SentTo(d, sent, t)
  }

  /** Only its own player's dispersions meet the join on its destination. */
  ghost predicate Admitted(c: Context, v: View, end: Rules, a: ArmyId)
    requires WellFormed(c) && a in c.joins
  {
    forall m :: Visits(c, v, end, m, c.joins[a].target) ==> c.armies[m].owner == c.armies[a].owner
  }

  ghost function Joiners(c: Context, v: View, end: Rules, t: TerritoryId): set<ArmyId>
    requires WellFormed(c)
  {
    set a | a in c.joins && c.joins[a].target == t && Admitted(c, v, end, a)
  }

  /** The army on the territory neither attacks its way out, nor joins another, nor disperses. */
  ghost predicate Hosts(c: Context, v: View, end: Rules, h: ArmyId, t: TerritoryId)
  {
    t in c.armyAt && c.armyAt[t] == h && !(h in c.attacks && Said(v, Move(h))) && !JoinSucceeded(c, end, h) && h !in Carried(end)
  }

  /**
   When a join succeeds. Where an attack is directed it must be the only join, and follow an
   attack of its player that enters. Elsewhere the joins admitted there, itself among them, are at
   most two and of its player, and whoever hosts them is its player's too and takes in one at most.
   */
  ghost predicate MayJoin(c: Context, v: View, end: Rules, a: ArmyId)
    requires WellFormed(c) && a in c.joins
  {
    var t := c.joins[a].target;
    if Assaulted(c, v, t) then
      && (forall b :: b in c.joins && c.joins[b].target == t ==> b == a)
      && exists b :: Enters(c, v, b, t) && c.armies[b].owner == c.armies[a].owner
    else
      && Admitted(c, v, end, a) && |Joiners(c, v, end, t)| <= 2
      && OfOneOwner(c, Joiners(c, v, end, t), a) && HostTakes(c, v, end, t, Joiners(c, v, end, t), a)
  }

  ghost predicate OfOneOwner(c: Context, members: set<ArmyId>, a: ArmyId)
    requires a in c.armies
  {
    forall b :: b in members ==> b in c.armies && c.armies[b].owner == c.armies[a].owner
  }

  /** If an army hosts the place, it is of the same player and the join is alone. */
  ghost predicate HostTakes(c: Context, v: View, end: Rules, t: TerritoryId, members: set<ArmyId>, a: ArmyId)
    requires a in c.armies
  {
    forall h: ArmyId :: Hosts(c, v, end, h, t) ==> h in c.armies && c.armies[h].owner == c.armies[a].owner && members == {a}
  }

  /** Where a join that succeeds ends: behind the attack it follows, in the host, with the other join, or alone. */
  ghost predicate EndsRight(c: Context, v: View, end: Rules, a: ArmyId, result: JoinResult)
    requires WellFormed(c) && a in c.joins
  {
    var t := c.joins[a].target;
    if Assaulted(c, v, t) then !result.pair && result.host.Some? && Enters(c, v, result.host.value, t)
    else if Joiners(c, v, end, t) == {a} then
      !result.pair && forall h: ArmyId :: Hosts(c, v, end, h, t) <==> result.host == Some(h)
    else
      exists b :: b in Joiners(c, v, end, t) && b != a && result == JoinResult(Some(if a < b then a else b), true)
  }

  // ---------- the states the joins are judged on

  /** The state before the joins: the first allotments, and every join pending. */
  ghost predicate Opens(c: Context, v: View, end: Rules, start: Rules)
  {
    && WellFormed(c) && start.dispersed.Keys == Carried(end) && Carried(end) <= c.disperses.Keys && AllSound(c, start.dispersed)
    && (forall m :: m in Carried(end) ==> TrueAt(start.dispersed[m].resolved) == ServedAtOnce(c, v, Carried(end), m))
    && forall a :: a in c.joins ==> OutcomeOf(start, a) == Pending
  }

  lemma StartOpens(c: Context, v: View, end: Rules)
    requires IsRun(c, v, end)
    ensures Opens(c, v, end, AfterDispersions(c, Recorded(c, v)))
  {
    var f := Recorded(c, v);
    CarriedAre(c, v, end);
    FirstSound(c, f);
    forall m | m in Carried(end) ensures TrueAt(AfterDispersions(c, f).dispersed[m].resolved) == ServedAtOnce(c, v, Carried(end), m) {
      SparedIs(c, v, end, m);
    }
    forall a | a in c.joins ensures OutcomeOf(AfterDispersions(c, f), a) == Pending {
      PeacefulNotDislodged(c, v, a);
      RetreatingIff(c, v, a);
      JoinPending(c, f, a);
    }
  }

  lemma JoinPending(c: Context, f: CombatFacts, a: ArmyId)
    requires WellFormed(c) && a in c.joins && !IsDislodged(c, f, a)
    ensures OutcomeOf(AfterDispersions(c, f), a) == Pending
  {
    StartIs(c, f);
  }

  /** The state after the joins. */
  ghost predicate Closes(c: Context, end: Rules, joins: Rules)
  {
    && joins.dispersed.Keys == Carried(end) && joins.joined == end.joined
    && forall a :: a in c.joins ==>
         OutcomeOf(joins, a) == OutcomeOf(end, a) && (OutcomeOf(end, a) == Success || OutcomeOf(end, a) == Failure)
  }

  lemma JoinsClose(c: Context, f: CombatFacts, end: Rules)
    requires IsOutcome(c, f, end)
    ensures Closes(c, end, AfterAllJoins(c, f))
  {
    forall a | a in c.joins
      ensures OutcomeOf(AfterAllJoins(c, f), a) == OutcomeOf(end, a) && (OutcomeOf(end, a) == Success || OutcomeOf(end, a) == Failure)
    {
      EndRead(c, f, end, a);
    }
  }

  // ---------- what they say

  lemma VisitsIs(c: Context, v: View, end: Rules, start: Rules, t: TerritoryId, m: ArmyId)
    requires Opens(c, v, end, start)
    ensures m in DisperseActivity(c, start, t) <==> Visits(c, v, end, m, t)
  {
    if m in Carried(end) {
      var d, bits := c.disperses[m], start.dispersed[m].resolved;
      assert IsSound(c, m, start.dispersed[m]);
      EmptiedBits(d, c.armies[m].size, bits);
      SentIs(d, bits, t);
      assert SizeOf(c, m) == c.armies[m].size;
      assert VacatesSource(c, start, m) <==> CountTrue(bits) == c.armies[m].size && AllSentAway(d, bits);
    }
  }

  lemma AdmittedIs(c: Context, v: View, end: Rules, start: Rules, a: ArmyId)
    requires Opens(c, v, end, start) && a in c.joins
    ensures a in Welcome(c, start, c.joins[a].target) <==> Admitted(c, v, end, a)
  {
    var t := c.joins[a].target;
    forall m: ArmyId ensures m in DisperseActivity(c, start, t) <==> Visits(c, v, end, m, t) {
      VisitsIs(c, v, end, start, t, m);
    }
    assert a in PendingMembers(c, start, t);
    forall m | Visits(c, v, end, m, t) ensures OwnerOf(c, m) == c.armies[m].owner {
    }
  }

  lemma JoinersAre(c: Context, v: View, end: Rules, start: Rules, t: TerritoryId)
    requires Opens(c, v, end, start)
    ensures Welcome(c, start, t) == Joiners(c, v, end, t)
  {
    forall a | a in c.joins && c.joins[a].target == t ensures a in Welcome(c, start, t) <==> Admitted(c, v, end, a) {
      AdmittedIs(c, v, end, start, a);
    }
  }

  lemma HostIs(c: Context, v: View, f: CombatFacts, end: Rules, joins: Rules, t: TerritoryId, h: ArmyId)
    requires Closes(c, end, joins) && !IsDislodged(c, f, h) && (AttackMoves(c, f, h) <==> h in c.attacks && Said(v, Move(h)))
    ensures StationaryHost(c, f, joins, t) == Some(h) <==> Hosts(c, v, end, h, t)
  {
  }

  lemma HostsAre(c: Context, v: View, end: Rules, joins: Rules, t: TerritoryId, h: ArmyId)
    requires SettledTurnOf(c, v) && Closes(c, end, joins) && !Assaulted(c, v, t)
    ensures StationaryHost(c, Recorded(c, v), joins, t) == Some(h) <==> Hosts(c, v, end, h, t)
  {
    if t in c.armyAt && c.armyAt[t] == h {
      AssaultedIs(c, v, t);
      if IsDislodged(c, Recorded(c, v), h) { DislodgedAttacked(c, v, h); }
      MovesRead(c, v, h);
      HostIs(c, v, Recorded(c, v), end, joins, t, h);
    }
  }

  // ---------- which joins succeed

  lemma CompatibleIs(c: Context, members: set<ArmyId>, a: ArmyId)
    requires a in members && members <= c.armies.Keys
    ensures Compatible(c, members) <==> |members| <= 2 && OfOneOwner(c, members, a)
  {
    assert |members| >= 1 by { assert {a} <= members; SubsetSize({a}, members); }
    if |members| == 1 { OneMember(members); }
    forall b | b in members ensures OwnerOf(c, b) == c.armies[b].owner {
    }
  }

  lemma SubsetSize(s: set<ArmyId>, t: set<ArmyId>)
    requires s <= t
    ensures |s| <= |t|
  {
    assert t == s + (t - s);
  }

  lemma OnlyOne(members: set<ArmyId>, a: ArmyId)
    requires a in members
    ensures |members| == 1 <==> members == {a}
  {
    if |members| == 1 { OneMember(members); }
  }

  /** The host accepts a single join of its owner. */
  lemma HostAllowsIs(c: Context, f: CombatFacts, joins: Rules, t: TerritoryId, members: set<ArmyId>, a: ArmyId)
    requires a in members && a in c.armies && WellFormed(c)
    ensures HostAllows(c, f, joins, t, members) <==>
              forall h: ArmyId :: StationaryHost(c, f, joins, t) == Some(h) ==>
                h in c.armies && c.armies[h].owner == c.armies[a].owner && members == {a}
  {
    OnlyOne(members, a);
    if StationaryHost(c, f, joins, t).Some? {
      var h := StationaryHost(c, f, joins, t).value;
      assert t in c.armyAt && c.armyAt[t] == h;
    }
  }

  lemma SucceedsQuietly(c: Context, f: CombatFacts, start: Rules, joins: Rules, a: ArmyId)
    requires a in c.joins && !Attacked(c, f, c.joins[a].target)
    ensures var t := c.joins[a].target; var members := Welcome(c, start, t);
            Succeeds(c, f, start, joins, a) <==> a in members && Compatible(c, members) && HostAllows(c, f, joins, t, members)
  {
  }

  lemma HostsAllowIs(c: Context, v: View, end: Rules, joins: Rules, t: TerritoryId, members: set<ArmyId>, a: ArmyId)
    requires SettledTurnOf(c, v) && Closes(c, end, joins) && !Assaulted(c, v, t) && a in members && a in c.armies
    ensures HostAllows(c, Recorded(c, v), joins, t, members) <==> HostTakes(c, v, end, t, members, a)
  {
    HostAllowsIs(c, Recorded(c, v), joins, t, members, a);
    forall h: ArmyId ensures StationaryHost(c, Recorded(c, v), joins, t) == Some(h) <==> Hosts(c, v, end, h, t) {
      HostsAre(c, v, end, joins, t, h);
    }
  }

  lemma QuietJoinIs(c: Context, v: View, end: Rules, start: Rules, joins: Rules, a: ArmyId)
    requires SettledTurnOf(c, v) && Opens(c, v, end, start) && Closes(c, end, joins) && a in c.joins && !Assaulted(c, v, c.joins[a].target)
    ensures Succeeds(c, Recorded(c, v), start, joins, a) <==> MayJoin(c, v, end, a)
  {
    var t := c.joins[a].target;
    AssaultedIs(c, v, t);
    JoinersAre(c, v, end, start, t);
    if Admitted(c, v, end, a) {
      CompatibleIs(c, Joiners(c, v, end, t), a);
      HostsAllowIs(c, v, end, joins, t, Joiners(c, v, end, t), a);
    }
    QuietlyRight(c, v, Recorded(c, v), end, start, joins, a);
  }

  lemma QuietlyRight(c: Context, v: View, f: CombatFacts, end: Rules, start: Rules, joins: Rules, a: ArmyId)
    requires WellFormed(c) && a in c.joins && !Attacked(c, f, c.joins[a].target) && !Assaulted(c, v, c.joins[a].target)
    requires Welcome(c, start, c.joins[a].target) == Joiners(c, v, end, c.joins[a].target)
    requires Admitted(c, v, end, a) ==>
               var t := c.joins[a].target; var members := Joiners(c, v, end, t);
               && (Compatible(c, members) <==> |members| <= 2 && OfOneOwner(c, members, a))
               && (HostAllows(c, f, joins, t, members) <==> HostTakes(c, v, end, t, members, a))
    ensures Succeeds(c, f, start, joins, a) <==> MayJoin(c, v, end, a)
  {
    SucceedsQuietly(c, f, start, joins, a);
  }

  lemma SucceedsByForce(c: Context, f: CombatFacts, start: Rules, joins: Rules, a: ArmyId)
    requires a in c.joins && Attacked(c, f, c.joins[a].target) && OutcomeOf(start, a) == Pending
    ensures var t := c.joins[a].target;
            Succeeds(c, f, start, joins, a) <==> PendingMembers(c, start, t) == {a} && AlliedAttackArrival(c, f, t, OwnerOf(c, a))
  {
    OnlyOne(PendingMembers(c, start, c.joins[a].target), a);
  }

  lemma ForcedJoinIs(c: Context, v: View, end: Rules, start: Rules, joins: Rules, a: ArmyId)
    requires SettledTurnOf(c, v) && Opens(c, v, end, start) && a in c.joins && Assaulted(c, v, c.joins[a].target)
    ensures Succeeds(c, Recorded(c, v), start, joins, a) <==> MayJoin(c, v, end, a)
  {
    var t := c.joins[a].target;
    AssaultedIs(c, v, t);
    ArrivalByForce(c, v, t, c.armies[a].owner);
    PendingAre(c, v, end, start, t);
    ForcedRight(c, v, Recorded(c, v), end, start, joins, a);
  }

  lemma ForcedRight(c: Context, v: View, f: CombatFacts, end: Rules, start: Rules, joins: Rules, a: ArmyId)
    requires WellFormed(c) && a in c.joins && Attacked(c, f, c.joins[a].target) && Assaulted(c, v, c.joins[a].target)
    requires forall b: ArmyId :: b in PendingMembers(c, start, c.joins[a].target) <==> b in c.joins && c.joins[b].target == c.joins[a].target
    requires AlliedAttackArrival(c, f, c.joins[a].target, c.armies[a].owner)
        <==> exists b :: Enters(c, v, b, c.joins[a].target) && c.armies[b].owner == c.armies[a].owner
    ensures Succeeds(c, f, start, joins, a) <==> MayJoin(c, v, end, a)
  {
    assert a in PendingMembers(c, start, c.joins[a].target);
    SucceedsByForce(c, f, start, joins, a);
  }

  lemma PendingAre(c: Context, v: View, end: Rules, start: Rules, t: TerritoryId)
    requires Opens(c, v, end, start)
    ensures forall b: ArmyId :: b in PendingMembers(c, start, t) <==> b in c.joins && c.joins[b].target == t
  {
  }

  lemma JoinDecided(c: Context, v: View, end: Rules, a: ArmyId)
    requires IsRun(c, v, end) && a in c.joins
    ensures var start, joins := AfterDispersions(c, Recorded(c, v)), AfterAllJoins(c, Recorded(c, v));
            Opens(c, v, end, start) && Closes(c, end, joins) && Decided(c, Recorded(c, v), start, joins, a)
  {
    var f := Recorded(c, v);
    StartOpens(c, v, end);
    SettledFought(c, v);
    RunIsOutcome(c, f);
    JoinsClose(c, f, end);
    StartIs(c, f);
    JoinsDecided(c, f, AfterDispersions(c, f), a);
  }

  /** A join succeeds exactly when the end of the turn says it may. */
  lemma JoinIff(c: Context, v: View, end: Rules, a: ArmyId)
    requires IsRun(c, v, end) && a in c.joins
    ensures JoinSucceeded(c, end, a) <==> MayJoin(c, v, end, a)
    ensures OutcomeOf(end, a) == if MayJoin(c, v, end, a) then Success else Failure
  {
    var start, joins := AfterDispersions(c, Recorded(c, v)), AfterAllJoins(c, Recorded(c, v));
    JoinDecided(c, v, end, a);
    if Assaulted(c, v, c.joins[a].target) {
      ForcedJoinIs(c, v, end, start, joins, a);
    } else {
      QuietJoinIs(c, v, end, start, joins, a);
    }
  }

  // ---------- where they end

  lemma PairOf(members: set<ArmyId>, a: ArmyId)
    requires a in members && |members| <= 2
    ensures members == {a} <==> |members| != 2
    ensures |members| == 2 ==> exists b :: b in members && b != a && Least(members) == if a < b then a else b
  {
    OnlyOne(members, a);
    SubsetSize({a}, members);
    if |members| == 2 {
      var rest := members - {a};
      assert members == rest + {a};
      OneMember(rest);
      var b :| b in rest;
      assert rest == {b};
    }
  }

  lemma ResultIs(c: Context, v: View, end: Rules, start: Rules, joins: Rules, a: ArmyId)
    requires SettledTurnOf(c, v) && Opens(c, v, end, start) && Closes(c, end, joins) && a in c.joins && MayJoin(c, v, end, a)
    ensures EndsRight(c, v, end, a, ResultAt(c, Recorded(c, v), start, joins, c.joins[a].target))
  {
    var t := c.joins[a].target;
    AssaultedIs(c, v, t);
    if Assaulted(c, v, t) {
      var b :| Enters(c, v, b, t);
      MoverCounts(c, v, b);
      ForcedResult(c, v, Recorded(c, v), end, start, joins, a, b);
    } else {
      JoinersAre(c, v, end, start, t);
      forall h: ArmyId ensures StationaryHost(c, Recorded(c, v), joins, t) == Some(h) <==> Hosts(c, v, end, h, t) {
        HostsAre(c, v, end, joins, t, h);
      }
      QuietResult(c, v, Recorded(c, v), end, start, joins, a);
    }
  }

  lemma ForcedResult(c: Context, v: View, f: CombatFacts, end: Rules, start: Rules, joins: Rules, a: ArmyId, b: ArmyId)
    requires WellFormed(c) && a in c.joins && Attacked(c, f, c.joins[a].target) && Assaulted(c, v, c.joins[a].target)
    requires Enters(c, v, b, c.joins[a].target) && WinnerAt(c, f, c.joins[a].target) == Some(b)
    ensures EndsRight(c, v, end, a, ResultAt(c, f, start, joins, c.joins[a].target))
  {
  }

  lemma QuietResult(c: Context, v: View, f: CombatFacts, end: Rules, start: Rules, joins: Rules, a: ArmyId)
    requires WellFormed(c) && a in c.joins && !Attacked(c, f, c.joins[a].target) && !Assaulted(c, v, c.joins[a].target)
    requires Welcome(c, start, c.joins[a].target) == Joiners(c, v, end, c.joins[a].target) && MayJoin(c, v, end, a)
    requires forall h: ArmyId :: StationaryHost(c, f, joins, c.joins[a].target) == Some(h) <==> Hosts(c, v, end, h, c.joins[a].target)
    ensures EndsRight(c, v, end, a, ResultAt(c, f, start, joins, c.joins[a].target))
  {
    PairOf(Joiners(c, v, end, c.joins[a].target), a);
  }

  /** A join that succeeds ends where it should, and no other join has a result. */
  lemma JoinEnds(c: Context, v: View, end: Rules, a: ArmyId)
    requires IsRun(c, v, end)
    ensures a in end.joined <==> JoinSucceeded(c, end, a)
    ensures a in end.joined ==> EndsRight(c, v, end, a, end.joined[a])
  {
    var f := Recorded(c, v);
    SettledFought(c, v);
    RunIsOutcome(c, f);
    JoinedSucceeded(c, f, end, a);
    if a in c.joins && a in end.joined {
      JoinIff(c, v, end, a);
      JoinDecided(c, v, end, a);
      ResultIs(c, v, end, AfterDispersions(c, f), AfterAllJoins(c, f), a);
    }
  }
}
