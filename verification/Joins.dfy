/**
 What resolveJoins decides, read off its end state: every pending join is
 decided, the last pass accepts every join it decides, and each outcome is the
 one the final state of its destination calls for.
 */
module JoinRules {
  import opened Wrappers
  import opened SortedIds
  import opened Turn
  import opened Facts
  import opened Peaceful

  /** The joins pending at t that the dispersions arriving or remaining there let through. */
  function Welcome(c: Context, st: Rules, t: TerritoryId): set<ArmyId>
  {
    set a | a in PendingMembers(c, st, t)
            && (DisperseActivity(c, st, t) == {} || ActivityOwnedBy(c, st, t, OwnerOf(c, a)))
  }

  /** One join, or two of one player. */
  predicate Compatible(c: Context, members: set<ArmyId>)
  {
    |members| == 1 || (|members| == 2 && ShareOwner(c, members))
  }

  /** The joins of t accept what stands there once everything is decided. */
  predicate HostAllows(c: Context, f: CombatFacts, st: Rules, t: TerritoryId, members: set<ArmyId>)
  {
    match StationaryHost(c, f, st, t)
    case None => true
    case Some(h) => |members| == 1 && OwnerOf(c, h) == OwnerOf(c, Least(members))
  }

  /** Whether joins pending in `start` succeed at t, judged on a later state. */
  predicate Succeeds(c: Context, f: CombatFacts, start: Rules, st: Rules, a: ArmyId)
    requires a in c.joins
  {
    var t := c.joins[a].target;
    if Attacked(c, f, t) then JoinAtAttackTarget(c, f, t, PendingMembers(c, start, t)).Accept?
    else
      var members := Welcome(c, start, t);
      a in members && Compatible(c, members) && HostAllows(c, f, st, t, members)
  }

  /** Where a successful join ends. */
  function ResultAt(c: Context, f: CombatFacts, start: Rules, st: Rules, t: TerritoryId): JoinResult
  {
    if Attacked(c, f, t) then JoinResult(WinnerAt(c, f, t), false)
    else
      var members := Welcome(c, start, t);
      if |members| == 2 then JoinResult(Some(Least(members)), true) else JoinResult(StationaryHost(c, f, st, t), false)
  }

  /** The join is decided as the state calls for. */
  ghost predicate Decided(c: Context, f: CombatFacts, start: Rules, st: Rules, a: ArmyId)
    requires a in c.joins
  {
    if Succeeds(c, f, start, st, a)
    then OutcomeOf(st, a) == Success && a in st.joined && st.joined[a] == ResultAt(c, f, start, st, c.joins[a].target)
    else OutcomeOf(st, a) == Failure && a !in st.joined
  }

  // ---------- one step

  lemma AppliedAt(st: Rules, v: Verdict, a: ArmyId)
    ensures Apply(st, v).dispersed == st.dispersed
    ensures a !in MembersOf(v) ==>
              OutcomeOf(Apply(st, v), a) == OutcomeOf(st, a) && (a in Apply(st, v).joined <==> a in st.joined)
              && (a in st.joined ==> Apply(st, v).joined[a] == st.joined[a])
    ensures a in MembersOf(v) && v.Refuse? ==> OutcomeOf(Apply(st, v), a) == Failure && (a in Apply(st, v).joined <==> a in st.joined)
    ensures a in MembersOf(v) && v.Accept? ==>
              OutcomeOf(Apply(st, v), a) == Success && a in Apply(st, v).joined && Apply(st, v).joined[a] == v.result
  {
  }

  /** The two states agree about an order. */
  ghost predicate SameAt(st: Rules, next: Rules, a: ArmyId)
  {
    && OutcomeOf(st, a) == OutcomeOf(next, a)
    && (a in st.joined <==> a in next.joined)
    && (a in st.joined ==> st.joined[a] == next.joined[a])
  }

  /** A step at t decides joins pending at t only. */
  lemma StepElsewhere(c: Context, f: CombatFacts, pass: Pass, st: Rules, t: TerritoryId, a: ArmyId)
    ensures JoinStep(c, f, pass, st, t).dispersed == st.dispersed
    ensures a !in PendingMembers(c, st, t) ==> SameAt(st, JoinStep(c, f, pass, st, t), a)
  {
    VerdictOnPending(c, f, pass, st, t);
    AppliedAt(st, JoinVerdict(c, f, pass, st, t), a);
  }

  /** Decided orders stay decided, and pending joins elsewhere stay pending, along a pass. */
  lemma {:induction false} PassKeeps(c: Context, f: CombatFacts, pass: Pass, st: Rules, targets: seq<TerritoryId>, a: ArmyId)
    ensures JoinPass(c, f, pass, st, targets).dispersed == st.dispersed
    ensures OutcomeOf(st, a) != Pending || a !in c.joins || c.joins[a].target !in targets ==>
              SameAt(st, JoinPass(c, f, pass, st, targets), a)
    decreases |targets|
  {
    if targets != [] {
      StepElsewhere(c, f, pass, st, targets[0], a);
      PassKeeps(c, f, pass, JoinStep(c, f, pass, st, targets[0]), targets[1..], a);
    }
  }

  // ---------- the filtering passes decide each target on its own

  lemma FilterVerdict(c: Context, f: CombatFacts, pass: Pass, st: Rules, next: Rules, t: TerritoryId)
    requires !pass.Settle? && st.dispersed == next.dispersed && PendingMembers(c, st, t) == PendingMembers(c, next, t)
    ensures JoinVerdict(c, f, pass, st, t) == JoinVerdict(c, f, pass, next, t)
  {
    assert DisperseActivity(c, st, t) == DisperseActivity(c, next, t);
  }

  lemma SamePending(c: Context, st: Rules, next: Rules, t: TerritoryId)
    requires forall a :: a in c.joins && c.joins[a].target == t ==> OutcomeOf(st, a) == OutcomeOf(next, a)
    ensures PendingMembers(c, st, t) == PendingMembers(c, next, t)
  {
  }

  lemma {:induction false} FilterPassAt(c: Context, f: CombatFacts, pass: Pass, st: Rules, targets: seq<TerritoryId>, a: ArmyId)
    requires !pass.Settle? && Ascending(targets) && a in c.joins && c.joins[a].target in targets
    ensures SameAt(JoinStep(c, f, pass, st, c.joins[a].target), JoinPass(c, f, pass, st, targets), a)
    decreases |targets|
  {
    var t := c.joins[a].target;
    var next := JoinStep(c, f, pass, st, targets[0]);
    AscendingTail(targets);
    if targets[0] == t {
      PassKeeps(c, f, pass, next, targets[1..], a);
    } else {
      forall b | b in c.joins && c.joins[b].target == t ensures SameAt(st, next, b) {
        StepElsewhere(c, f, pass, st, targets[0], b);
      }
      StepElsewhere(c, f, pass, st, targets[0], a);
      SamePending(c, st, next, t);
      FilterVerdict(c, f, pass, st, next, t);
      AppliedAt(st, JoinVerdict(c, f, pass, st, t), a);
      AppliedAt(next, JoinVerdict(c, f, pass, st, t), a);
      FilterPassAt(c, f, pass, next, targets[1..], a);
    }
  }

  /** The joins of a context that nothing decided, with no result yet. */
  ghost predicate Fresh(c: Context, start: Rules, a: ArmyId)
  {
    a in c.joins && OutcomeOf(start, a) == Pending && a !in start.joined
  }

  lemma TargetListed(c: Context, a: ArmyId)
    requires a in c.joins
    ensures c.joins[a].target in JoinTargets(c) && Ascending(JoinTargets(c))
  {
  }

  function AfterConflict(c: Context, f: CombatFacts, start: Rules): Rules
  {
    JoinPass(c, f, Conflict, start, JoinTargets(c))
  }

  lemma ConflictVerdict(c: Context, f: CombatFacts, start: Rules, t: TerritoryId)
    ensures var v := JoinVerdict(c, f, Conflict, start, t);
            !v.Accept? && MembersOf(v) == if Attacked(c, f, t) then {} else PendingMembers(c, start, t) - Welcome(c, start, t)
  {
  }

  lemma ConflictAt(c: Context, f: CombatFacts, start: Rules, a: ArmyId)
    requires Fresh(c, start, a)
    ensures a !in AfterConflict(c, f, start).joined
    ensures OutcomeOf(AfterConflict(c, f, start), a)
         == if Attacked(c, f, c.joins[a].target) || a in Welcome(c, start, c.joins[a].target) then Pending else Failure
  {
    var t := c.joins[a].target;
    TargetListed(c, a);
    FilterPassAt(c, f, Conflict, start, JoinTargets(c), a);
    AppliedAt(start, JoinVerdict(c, f, Conflict, start, t), a);
    ConflictVerdict(c, f, start, t);
    assert a in PendingMembers(c, start, t);
  }

  lemma DecidedBefore(c: Context, f: CombatFacts, pass: Pass, st: Rules, a: ArmyId)
    requires OutcomeOf(st, a) != Pending
    ensures SameAt(st, JoinPass(c, f, pass, st, JoinTargets(c)), a)
  {
    PassKeeps(c, f, pass, st, JoinTargets(c), a);
  }

  /** Every join of the context is fresh or was decided before. */
  ghost predicate Starting(c: Context, start: Rules)
  {
    start.joined == map[]
  }

  lemma ConflictLeaves(c: Context, f: CombatFacts, start: Rules, t: TerritoryId)
    requires Starting(c, start)
    ensures PendingMembers(c, AfterConflict(c, f, start), t)
         == if Attacked(c, f, t) then PendingMembers(c, start, t) else Welcome(c, start, t)
  {
    forall a | a in c.joins && c.joins[a].target == t
      ensures a in PendingMembers(c, AfterConflict(c, f, start), t)
         <==> a in if Attacked(c, f, t) then PendingMembers(c, start, t) else Welcome(c, start, t)
    {
      if OutcomeOf(start, a) == Pending { ConflictAt(c, f, start, a); } else { DecidedBefore(c, f, Conflict, start, a); }
    }
  }

  function AfterAttacks(c: Context, f: CombatFacts, start: Rules): Rules
  {
    JoinPass(c, f, AttackTarget, AfterConflict(c, f, start), JoinTargets(c))
  }

  lemma AttacksAt(c: Context, f: CombatFacts, start: Rules, a: ArmyId)
    requires Starting(c, start) && Fresh(c, start, a)
    ensures SameAt(if Attacked(c, f, c.joins[a].target)
                   then Apply(AfterConflict(c, f, start), JoinAtAttackTarget(c, f, c.joins[a].target, PendingMembers(c, start, c.joins[a].target)))
                   else AfterConflict(c, f, start),
                   AfterAttacks(c, f, start), a)
  {
    var t, st := c.joins[a].target, AfterConflict(c, f, start);
    TargetListed(c, a);
    FilterPassAt(c, f, AttackTarget, st, JoinTargets(c), a);
    ConflictLeaves(c, f, start, t);
    assert a in PendingMembers(c, start, t);
    AppliedAt(st, JoinVerdict(c, f, AttackTarget, st, t), a);
  }

  lemma AttacksLeave(c: Context, f: CombatFacts, start: Rules, t: TerritoryId)
    requires Starting(c, start) && !Attacked(c, f, t)
    ensures PendingMembers(c, AfterAttacks(c, f, start), t) == Welcome(c, start, t)
  {
    ConflictLeaves(c, f, start, t);
    forall a | a in c.joins && c.joins[a].target == t
      ensures OutcomeOf(AfterConflict(c, f, start), a) == OutcomeOf(AfterAttacks(c, f, start), a)
    {
      if OutcomeOf(start, a) == Pending { AttacksAt(c, f, start, a); }
      else { DecidedBefore(c, f, Conflict, start, a); DecidedBefore(c, f, AttackTarget, AfterConflict(c, f, start), a); }
    }
    SamePending(c, AfterConflict(c, f, start), AfterAttacks(c, f, start), t);
  }

  function Filtered(c: Context, f: CombatFacts, start: Rules): Rules
  {
    JoinPass(c, f, Convergence, AfterAttacks(c, f, start), JoinTargets(c))
  }

  lemma ConvergenceVerdict(c: Context, f: CombatFacts, st: Rules, t: TerritoryId)
    ensures var v := JoinVerdict(c, f, Convergence, st, t); var members := PendingMembers(c, st, t);
            !v.Accept? && MembersOf(v) == if Attacked(c, f, t) || members == {} || Compatible(c, members) then {} else members
  {
  }

  /** The filters decide joins toward contested territories, and refuse the others unless welcome and compatible. */
  lemma FilteredAt(c: Context, f: CombatFacts, start: Rules, a: ArmyId)
    requires Starting(c, start) && Fresh(c, start, a)
    ensures Attacked(c, f, c.joins[a].target) ==> Decided(c, f, start, Filtered(c, f, start), a)
    ensures !Attacked(c, f, c.joins[a].target) ==>
              && a !in Filtered(c, f, start).joined
              && OutcomeOf(Filtered(c, f, start), a)
              == var members := Welcome(c, start, c.joins[a].target);
                 if a in members && Compatible(c, members) then Pending else Failure
  {
    var t, st := c.joins[a].target, AfterAttacks(c, f, start);
    TargetListed(c, a);
    ConflictAt(c, f, start, a);
    AttacksAt(c, f, start, a);
    FilterPassAt(c, f, Convergence, st, JoinTargets(c), a);
    ConvergenceVerdict(c, f, st, t);
    AppliedAt(st, JoinVerdict(c, f, Convergence, st, t), a);
    if Attacked(c, f, t) {
      assert a in PendingMembers(c, start, t);
      AppliedAt(AfterConflict(c, f, start), JoinAtAttackTarget(c, f, t, PendingMembers(c, start, t)), a);
    } else {
      AttacksLeave(c, f, start, t);
    }
  }

  lemma FilteredBefore(c: Context, f: CombatFacts, start: Rules, a: ArmyId)
    requires OutcomeOf(start, a) != Pending
    ensures SameAt(start, Filtered(c, f, start), a)
  {
    DecidedBefore(c, f, Conflict, start, a);
    DecidedBefore(c, f, AttackTarget, AfterConflict(c, f, start), a);
    DecidedBefore(c, f, Convergence, AfterAttacks(c, f, start), a);
  }

  lemma FilteredDispersed(c: Context, f: CombatFacts, start: Rules)
    ensures Filtered(c, f, start).dispersed == start.dispersed
  {
    PassKeeps(c, f, Conflict, start, JoinTargets(c), 0);
    PassKeeps(c, f, AttackTarget, AfterConflict(c, f, start), JoinTargets(c), 0);
    PassKeeps(c, f, Convergence, AfterAttacks(c, f, start), JoinTargets(c), 0);
  }

  // ---------- settling

  /** Every decided order stays as it is. */
  ghost predicate Later(st: Rules, next: Rules)
  {
    st.dispersed == next.dispersed && forall a :: OutcomeOf(st, a) != Pending ==> SameAt(st, next, a)
  }

  /** Once the army on t is decided, what it is for a join does not change. */
  lemma HostStable(c: Context, f: CombatFacts, st: Rules, next: Rules, t: TerritoryId)
    requires Later(st, next) && !HasUnresolvedJoin(c, st, t)
    ensures StationaryHost(c, f, next, t) == StationaryHost(c, f, st, t) && !HasUnresolvedJoin(c, next, t)
  {
    if OccupantAt(c, t).Some? && OccupantAt(c, t).value in c.joins {
      assert SameAt(st, next, OccupantAt(c, t).value);
    }
  }

  lemma UnresolvedNoHost(c: Context, f: CombatFacts, st: Rules, t: TerritoryId)
    requires HasUnresolvedJoin(c, st, t)
    ensures StationaryHost(c, f, st, t) == None
  {
  }

  lemma DecidedStable(c: Context, f: CombatFacts, start: Rules, st: Rules, next: Rules, a: ArmyId)
    requires a in c.joins && Decided(c, f, start, st, a) && Later(st, next)
    requires Attacked(c, f, c.joins[a].target) || !HasUnresolvedJoin(c, st, c.joins[a].target)
    ensures Decided(c, f, start, next, a)
  {
    var t := c.joins[a].target;
    assert SameAt(st, next, a);
    if !Attacked(c, f, t) { HostStable(c, f, st, next, t); }
  }

  /** The joins still pending at t are all those welcome there, and may settle together. */
  ghost predicate WaitingAt(c: Context, f: CombatFacts, start: Rules, st: Rules, t: TerritoryId)
  {
    PendingMembers(c, st, t) == {} ||
    (!Attacked(c, f, t) && PendingMembers(c, st, t) == Welcome(c, start, t) && Compatible(c, Welcome(c, start, t)))
  }

  /** What one settling rule does to the joins pending at t. */
  lemma SettleVerdict(c: Context, f: CombatFacts, start: Rules, st: Rules, t: TerritoryId, final: bool)
    requires st.dispersed == start.dispersed && WaitingAt(c, f, start, st, t) && PendingMembers(c, st, t) != {}
    ensures JoinVerdict(c, f, Settle(final), st, t)
         == var members := PendingMembers(c, st, t);
            if !final && HasUnresolvedJoin(c, st, t) then Wait
            else if HostAllows(c, f, st, t, members) then Accept(members, ResultAt(c, f, start, st, t))
            else Refuse(members)
  {
    var members := PendingMembers(c, st, t);
    if HasUnresolvedJoin(c, st, t) { UnresolvedNoHost(c, f, st, t); }
    WelcomeTurnsNoneAway(c, start, st, t);
    if |members| == 1 { OneMember(members); }
  }

  lemma OneMember(members: set<ArmyId>)
    requires |members| == 1
    ensures members == {Least(members)}
  {
    var a := Least(members);
    assert |members - {a}| == 0;
  }

  lemma WelcomeTurnsNoneAway(c: Context, start: Rules, st: Rules, t: TerritoryId)
    requires st.dispersed == start.dispersed
    ensures forall a :: a in Welcome(c, start, t) ==>
              DisperseActivity(c, st, t) == {} || ActivityOwnedBy(c, st, t, OwnerOf(c, a))
  {
    assert DisperseActivity(c, st, t) == DisperseActivity(c, start, t);
    forall p ensures ActivityOwnedBy(c, st, t, p) == ActivityOwnedBy(c, start, t, p) {
    }
  }

  /** A join still pending, or decided on a host that will not change. */
  ghost predicate OnTrack(c: Context, f: CombatFacts, start: Rules, st: Rules, a: ArmyId)
  {
    a in c.joins && OutcomeOf(start, a) == Pending ==>
      || (OutcomeOf(st, a) == Pending && a !in st.joined)
      || (Decided(c, f, start, st, a)
          && (Attacked(c, f, c.joins[a].target) || !HasUnresolvedJoin(c, st, c.joins[a].target)
              || !(a in Welcome(c, start, c.joins[a].target) && Compatible(c, Welcome(c, start, c.joins[a].target)))))
  }

  ghost predicate AllOnTrack(c: Context, f: CombatFacts, start: Rules, st: Rules)
  {
    && st.dispersed == start.dispersed && Later(start, st)
    && (forall t :: WaitingAt(c, f, start, st, t))
    && forall a :: OnTrack(c, f, start, st, a)
  }

  lemma TrackKept(c: Context, f: CombatFacts, start: Rules, st: Rules, next: Rules, a: ArmyId)
    requires OnTrack(c, f, start, st, a) && Later(st, next) && SameAt(st, next, a)
    ensures OnTrack(c, f, start, next, a)
  {
    if a in c.joins && OutcomeOf(start, a) == Pending && OutcomeOf(st, a) != Pending {
      var t := c.joins[a].target;
      if Attacked(c, f, t) || !HasUnresolvedJoin(c, st, t) {
        DecidedStable(c, f, start, st, next, a);
        if !Attacked(c, f, t) { HostStable(c, f, st, next, t); }
      }
    }
  }

  lemma StepLater(c: Context, f: CombatFacts, pass: Pass, st: Rules, t: TerritoryId)
    ensures Later(st, JoinStep(c, f, pass, st, t))
  {
    forall a ensures JoinStep(c, f, pass, st, t).dispersed == st.dispersed && (OutcomeOf(st, a) != Pending ==> SameAt(st, JoinStep(c, f, pass, st, t), a)) {
      StepElsewhere(c, f, pass, st, t, a);
    }
  }

  lemma LaterTrans(st: Rules, mid: Rules, next: Rules)
    requires Later(st, mid) && Later(mid, next)
    ensures Later(st, next)
  {
    forall a | OutcomeOf(st, a) != Pending ensures SameAt(st, next, a) {
      assert SameAt(st, mid, a) && SameAt(mid, next, a);
    }
  }

  lemma WaitingElsewhere(c: Context, f: CombatFacts, start: Rules, st: Rules, pass: Pass, t: TerritoryId, u: TerritoryId)
    requires WaitingAt(c, f, start, st, u) && u != t
    ensures WaitingAt(c, f, start, JoinStep(c, f, pass, st, t), u)
  {
    forall a | a in c.joins && c.joins[a].target == u ensures OutcomeOf(st, a) == OutcomeOf(JoinStep(c, f, pass, st, t), a) {
      StepElsewhere(c, f, pass, st, t, a);
    }
    SamePending(c, st, JoinStep(c, f, pass, st, t), u);
  }

  /** Deciding the joins waiting at t as their host allows is right. */
  lemma DecidesRight(c: Context, f: CombatFacts, start: Rules, st: Rules, next: Rules, a: ArmyId)
    requires a in c.joins && OutcomeOf(st, a) == Pending && a !in st.joined && !Attacked(c, f, c.joins[a].target)
    requires a in Welcome(c, start, c.joins[a].target) && Compatible(c, Welcome(c, start, c.joins[a].target))
    requires
      var t := c.joins[a].target; var members := Welcome(c, start, t);
      && StationaryHost(c, f, next, t) == StationaryHost(c, f, st, t)
      && next == Apply(st, if HostAllows(c, f, st, t, members) then Accept(members, ResultAt(c, f, start, st, t)) else Refuse(members))
    ensures Decided(c, f, start, next, a)
  {
    var t := c.joins[a].target; var members := Welcome(c, start, t);
    AppliedAt(st, if HostAllows(c, f, st, t, members) then Accept(members, ResultAt(c, f, start, st, t)) else Refuse(members), a);
  }

  /** The joins waiting at t are decided together, or not at all. */
  lemma StepAt(c: Context, f: CombatFacts, start: Rules, st: Rules, t: TerritoryId, a: ArmyId)
    requires AllOnTrack(c, f, start, st) && a in PendingMembers(c, st, t)
    ensures HasUnresolvedJoin(c, st, t) ==> JoinStep(c, f, Settle(false), st, t) == st
    ensures !HasUnresolvedJoin(c, st, t) ==>
              && OutcomeOf(JoinStep(c, f, Settle(false), st, t), a) != Pending
              && Decided(c, f, start, JoinStep(c, f, Settle(false), st, t), a)
              && !HasUnresolvedJoin(c, JoinStep(c, f, Settle(false), st, t), t)
  {
    assert WaitingAt(c, f, start, st, t) && OnTrack(c, f, start, st, a);
    SettleVerdict(c, f, start, st, t, false);
    if !HasUnresolvedJoin(c, st, t) {
      var next := JoinStep(c, f, Settle(false), st, t);
      StepLater(c, f, Settle(false), st, t);
      HostStable(c, f, st, next, t);
      PendingFromStart(c, start, st, a);
      DecidesRight(c, f, start, st, next, a);
    }
  }

  lemma PendingFromStart(c: Context, start: Rules, st: Rules, a: ArmyId)
    requires Later(start, st) && OutcomeOf(st, a) == Pending
    ensures OutcomeOf(start, a) == Pending
  {
    assert OutcomeOf(start, a) != Pending ==> SameAt(start, st, a);
  }

  lemma StepWaiting(c: Context, f: CombatFacts, start: Rules, st: Rules, t: TerritoryId)
    requires AllOnTrack(c, f, start, st)
    ensures WaitingAt(c, f, start, JoinStep(c, f, Settle(false), st, t), t)
  {
    assert WaitingAt(c, f, start, st, t);
    var next := JoinStep(c, f, Settle(false), st, t);
    if next != st {
      forall a | a in c.joins && c.joins[a].target == t ensures OutcomeOf(next, a) != Pending {
        if a in PendingMembers(c, st, t) {
          StepAt(c, f, start, st, t, a);
        } else {
          StepElsewhere(c, f, Settle(false), st, t, a);
        }
      }
      assert PendingMembers(c, next, t) == {};
    }
  }

  lemma StepOnTrack(c: Context, f: CombatFacts, start: Rules, st: Rules, t: TerritoryId)
    requires AllOnTrack(c, f, start, st)
    ensures AllOnTrack(c, f, start, JoinStep(c, f, Settle(false), st, t))
  {
    var next := JoinStep(c, f, Settle(false), st, t);
    StepLater(c, f, Settle(false), st, t);
    LaterTrans(start, st, next);
    forall u ensures WaitingAt(c, f, start, next, u) {
      assert WaitingAt(c, f, start, st, u);
      if u == t { StepWaiting(c, f, start, st, t); } else { WaitingElsewhere(c, f, start, st, Settle(false), t, u); }
    }
    forall a ensures OnTrack(c, f, start, next, a) {
      assert OnTrack(c, f, start, st, a);
      if a in PendingMembers(c, st, t) {
        StepAt(c, f, start, st, t, a);
      } else {
        StepElsewhere(c, f, Settle(false), st, t, a);
        TrackKept(c, f, start, st, next, a);
      }
    }
  }

  lemma {:induction false} PassOnTrack(c: Context, f: CombatFacts, start: Rules, st: Rules, targets: seq<TerritoryId>)
    requires AllOnTrack(c, f, start, st)
    ensures AllOnTrack(c, f, start, JoinPass(c, f, Settle(false), st, targets))
    decreases |targets|
  {
    if targets != [] {
      StepOnTrack(c, f, start, st, targets[0]);
      PassOnTrack(c, f, start, JoinStep(c, f, Settle(false), st, targets[0]), targets[1..]);
    }
  }

  /** A pass that decides nothing decides nothing at any target. */
  lemma {:induction false} QuietPass(c: Context, f: CombatFacts, pass: Pass, st: Rules, targets: seq<TerritoryId>, t: TerritoryId)
    requires JoinPass(c, f, pass, st, targets) == st && t in targets
    ensures JoinStep(c, f, pass, st, t) == st
    decreases |targets|
  {
    var next := JoinStep(c, f, pass, st, targets[0]);
    JoinStepProgress(c, f, pass, st, targets[0]);
    JoinPassProgress(c, f, pass, next, targets[1..]);
    if t != targets[0] {
      QuietPass(c, f, pass, st, targets[1..], t);
    }
  }

  lemma {:induction false} SettledOnTrack(c: Context, f: CombatFacts, start: Rules, st: Rules)
    requires AllOnTrack(c, f, start, st)
    ensures AllOnTrack(c, f, start, SettleJoins(c, f, st))
    ensures forall t :: t in JoinTargets(c) ==> JoinStep(c, f, Settle(false), SettleJoins(c, f, st), t) == SettleJoins(c, f, st)
    decreases PendingJoins(c, st)
  {
    var next := JoinPass(c, f, Settle(false), st, JoinTargets(c));
    PassOnTrack(c, f, start, st, JoinTargets(c));
    JoinPassProgress(c, f, Settle(false), st, JoinTargets(c));
    if next != st {
      SettledOnTrack(c, f, start, next);
    } else {
      forall t | t in JoinTargets(c) ensures JoinStep(c, f, Settle(false), st, t) == st {
        QuietPass(c, f, Settle(false), st, JoinTargets(c), t);
      }
    }
  }

  /** When no rule can decide more, each pending join waits for a pending join to leave its destination. */
  lemma PendingWaits(c: Context, f: CombatFacts, start: Rules, st: Rules, a: ArmyId)
    requires AllOnTrack(c, f, start, st) && a in c.joins && OutcomeOf(st, a) == Pending
    requires forall t :: t in JoinTargets(c) ==> JoinStep(c, f, Settle(false), st, t) == st
    ensures HasUnresolvedJoin(c, st, c.joins[a].target)
  {
    TargetListed(c, a);
    StepAt(c, f, start, st, c.joins[a].target, a);
  }

  lemma FilteredOnTrack(c: Context, f: CombatFacts, start: Rules)
    requires Starting(c, start)
    ensures AllOnTrack(c, f, start, Filtered(c, f, start))
  {
    var st := Filtered(c, f, start);
    FilteredDispersed(c, f, start);
    forall a | OutcomeOf(start, a) != Pending ensures SameAt(start, st, a) {
      FilteredBefore(c, f, start, a);
    }
    forall a ensures OnTrack(c, f, start, st, a) {
      if a in c.joins && OutcomeOf(start, a) == Pending { FilteredAt(c, f, start, a); }
    }
    forall t ensures WaitingAt(c, f, start, st, t) {
      FilteredWaiting(c, f, start, t);
    }
  }

  lemma FilteredWaiting(c: Context, f: CombatFacts, start: Rules, t: TerritoryId)
    requires Starting(c, start)
    ensures WaitingAt(c, f, start, Filtered(c, f, start), t)
  {
    var st := Filtered(c, f, start);
    var members := Welcome(c, start, t);
    var left := if !Attacked(c, f, t) && Compatible(c, members) then members else {};
    forall a | a in c.joins && c.joins[a].target == t ensures OutcomeOf(st, a) == Pending <==> a in left {
      if OutcomeOf(start, a) == Pending { FilteredAt(c, f, start, a); } else { FilteredBefore(c, f, start, a); }
    }
    assert PendingMembers(c, st, t) == left;
  }

  // ---------- the last pass

  /** A join left pending when the rules are stuck, before and after the last pass reaches it. */
  ghost predicate Closing(c: Context, f: CombatFacts, start: Rules, stuck: Rules, st: Rules, a: ArmyId)
  {
    a in c.joins && OutcomeOf(stuck, a) == Pending ==>
      || (OutcomeOf(st, a) == Pending && a !in st.joined)
      || (OutcomeOf(st, a) == Success && a in st.joined
          && st.joined[a] == ResultAt(c, f, start, stuck, c.joins[a].target))
  }

  ghost predicate LastPass(c: Context, f: CombatFacts, start: Rules, stuck: Rules, st: Rules)
  {
    && Later(stuck, st)
    && (forall t :: WaitingAt(c, f, start, st, t))
    && forall a :: Closing(c, f, start, stuck, st, a)
  }

  ghost predicate Stuck(c: Context, f: CombatFacts, start: Rules, stuck: Rules)
  {
    && AllOnTrack(c, f, start, stuck)
    && forall a :: a in c.joins && OutcomeOf(stuck, a) == Pending ==> HasUnresolvedJoin(c, stuck, c.joins[a].target)
  }

  /** In the last pass a waiting join finds its destination empty or emptying. */
  lemma NoHostLeft(c: Context, f: CombatFacts, start: Rules, stuck: Rules, st: Rules, t: TerritoryId)
    requires LastPass(c, f, start, stuck, st) && HasUnresolvedJoin(c, stuck, t)
    ensures StationaryHost(c, f, st, t) == None
  {
    assert Closing(c, f, start, stuck, st, OccupantAt(c, t).value);
  }

  lemma LastStepAt(c: Context, f: CombatFacts, start: Rules, stuck: Rules, st: Rules, t: TerritoryId, a: ArmyId)
    requires Stuck(c, f, start, stuck) && LastPass(c, f, start, stuck, st) && a in PendingMembers(c, st, t)
    ensures JoinVerdict(c, f, Settle(true), st, t) == Accept(PendingMembers(c, st, t), ResultAt(c, f, start, stuck, t))
    ensures var next := JoinStep(c, f, Settle(true), st, t);
            OutcomeOf(next, a) == Success && a in next.joined && next.joined[a] == ResultAt(c, f, start, stuck, t)
  {
    LastWaits(c, f, start, stuck, st, t, a);
    SettleVerdict(c, f, start, st, t, true);
    SameResult(c, f, start, stuck, st, t);
    AppliedAt(st, JoinVerdict(c, f, Settle(true), st, t), a);
  }

  lemma LastWaits(c: Context, f: CombatFacts, start: Rules, stuck: Rules, st: Rules, t: TerritoryId, a: ArmyId)
    requires Stuck(c, f, start, stuck) && LastPass(c, f, start, stuck, st) && a in PendingMembers(c, st, t)
    ensures WaitingAt(c, f, start, st, t) && st.dispersed == start.dispersed
    ensures StationaryHost(c, f, st, t) == None == StationaryHost(c, f, stuck, t)
  {
    assert WaitingAt(c, f, start, st, t);
    assert OutcomeOf(stuck, a) != Pending ==> SameAt(stuck, st, a);
    NoHostLeft(c, f, start, stuck, st, t);
    UnresolvedNoHost(c, f, stuck, t);
  }

  lemma SameResult(c: Context, f: CombatFacts, start: Rules, st: Rules, next: Rules, t: TerritoryId)
    requires StationaryHost(c, f, st, t) == StationaryHost(c, f, next, t)
    ensures ResultAt(c, f, start, st, t) == ResultAt(c, f, start, next, t)
    ensures forall members :: HostAllows(c, f, st, t, members) == HostAllows(c, f, next, t, members)
  {
  }

  lemma LastStepWaiting(c: Context, f: CombatFacts, start: Rules, stuck: Rules, st: Rules, t: TerritoryId)
    requires Stuck(c, f, start, stuck) && LastPass(c, f, start, stuck, st)
    ensures PendingMembers(c, JoinStep(c, f, Settle(true), st, t), t) == {}
  {
    var next := JoinStep(c, f, Settle(true), st, t);
    forall a | a in c.joins && c.joins[a].target == t ensures OutcomeOf(next, a) != Pending {
      if a in PendingMembers(c, st, t) {
        LastStepAt(c, f, start, stuck, st, t, a);
      } else {
        StepElsewhere(c, f, Settle(true), st, t, a);
      }
    }
  }

  lemma LastStep(c: Context, f: CombatFacts, start: Rules, stuck: Rules, st: Rules, t: TerritoryId)
    requires Stuck(c, f, start, stuck) && LastPass(c, f, start, stuck, st)
    ensures LastPass(c, f, start, stuck, JoinStep(c, f, Settle(true), st, t))
  {
    var next := JoinStep(c, f, Settle(true), st, t);
    StepLater(c, f, Settle(true), st, t);
    LaterTrans(stuck, st, next);
    LastStepWaiting(c, f, start, stuck, st, t);
    forall u ensures WaitingAt(c, f, start, next, u) {
      assert WaitingAt(c, f, start, st, u);
      if u != t { WaitingElsewhere(c, f, start, st, Settle(true), t, u); }
    }
    forall a ensures Closing(c, f, start, stuck, next, a) {
      assert Closing(c, f, start, stuck, st, a);
      if a in PendingMembers(c, st, t) {
        LastStepAt(c, f, start, stuck, st, t, a);
      } else {
        StepElsewhere(c, f, Settle(true), st, t, a);
      }
    }
  }

  /** The last pass keeps its invariant, and leaves no join pending at the targets it visits. */
  lemma {:induction false} LastPassKept(c: Context, f: CombatFacts, start: Rules, stuck: Rules, st: Rules, targets: seq<TerritoryId>)
    requires Stuck(c, f, start, stuck) && LastPass(c, f, start, stuck, st)
    ensures LastPass(c, f, start, stuck, JoinPass(c, f, Settle(true), st, targets))
    ensures forall t :: t in targets ==> PendingMembers(c, JoinPass(c, f, Settle(true), st, targets), t) == {}
    decreases |targets|
  {
    if targets != [] {
      var next := JoinStep(c, f, Settle(true), st, targets[0]);
      LastStep(c, f, start, stuck, st, targets[0]);
      LastStepWaiting(c, f, start, stuck, st, targets[0]);
      LastPassKept(c, f, start, stuck, next, targets[1..]);
      forall a | a in c.joins && c.joins[a].target == targets[0]
        ensures OutcomeOf(JoinPass(c, f, Settle(true), next, targets[1..]), a) != Pending
      {
        assert a !in PendingMembers(c, next, targets[0]);
        PassKeeps(c, f, Settle(true), next, targets[1..], a);
      }
    }
  }

  // ---------- main results

  ghost function StuckJoins(c: Context, f: CombatFacts, start: Rules): Rules
  {
    SettleJoins(c, f, Filtered(c, f, start))
  }

  lemma StuckIsStuck(c: Context, f: CombatFacts, start: Rules)
    requires Starting(c, start)
    ensures Stuck(c, f, start, StuckJoins(c, f, start))
    ensures LastPass(c, f, start, StuckJoins(c, f, start), StuckJoins(c, f, start))
  {
    var stuck := StuckJoins(c, f, start);
    FilteredOnTrack(c, f, start);
    SettledOnTrack(c, f, start, Filtered(c, f, start));
    forall a | a in c.joins && OutcomeOf(stuck, a) == Pending ensures HasUnresolvedJoin(c, stuck, c.joins[a].target) {
      PendingWaits(c, f, start, stuck, a);
    }
    forall a ensures Closing(c, f, start, stuck, stuck, a) {
      assert OnTrack(c, f, start, stuck, a);
      if a in c.joins && OutcomeOf(start, a) != Pending { assert SameAt(start, stuck, a); }
    }
  }

  /** The last pass fails no join: whatever is still pending succeeds, and the rest is left as it is. */
  lemma LastPassAccepts(c: Context, f: CombatFacts, start: Rules, a: ArmyId)
    requires Starting(c, start) && a in c.joins
    ensures var stuck, end := StuckJoins(c, f, start), AfterJoins(c, f, start);
            if OutcomeOf(stuck, a) == Pending then OutcomeOf(end, a) == Success else SameAt(stuck, end, a)
  {
    var stuck := StuckJoins(c, f, start);
    var end := AfterJoins(c, f, start);
    StuckIsStuck(c, f, start);
    LastPassKept(c, f, start, stuck, stuck, JoinTargets(c));
    TargetListed(c, a);
    assert Closing(c, f, start, stuck, end, a);
    assert a !in PendingMembers(c, end, c.joins[a].target);
  }

  /** A success into a place nobody holds is right. */
  lemma EmptyIsRight(c: Context, f: CombatFacts, start: Rules, stuck: Rules, end: Rules, a: ArmyId)
    requires a in c.joins && !Attacked(c, f, c.joins[a].target)
    requires a in Welcome(c, start, c.joins[a].target) && Compatible(c, Welcome(c, start, c.joins[a].target))
    requires StationaryHost(c, f, stuck, c.joins[a].target) == None == StationaryHost(c, f, end, c.joins[a].target)
    requires OutcomeOf(end, a) == Success && a in end.joined && end.joined[a] == ResultAt(c, f, start, stuck, c.joins[a].target)
    ensures Decided(c, f, start, end, a)
  {
  }

  lemma LastDecided(c: Context, f: CombatFacts, start: Rules, stuck: Rules, end: Rules, a: ArmyId)
    requires Stuck(c, f, start, stuck) && LastPass(c, f, start, stuck, end)
    requires a in c.joins && OutcomeOf(stuck, a) == Pending && PendingMembers(c, end, c.joins[a].target) == {}
    ensures Decided(c, f, start, end, a)
  {
    var t := c.joins[a].target;
    assert Closing(c, f, start, stuck, end, a);
    assert a !in PendingMembers(c, end, t);
    NoHostLeft(c, f, start, stuck, end, t);
    UnresolvedNoHost(c, f, stuck, t);
    assert WaitingAt(c, f, start, stuck, t) && a in PendingMembers(c, stuck, t);
    EmptyIsRight(c, f, start, stuck, end, a);
  }

  /** Every pending join is decided, exactly as the final state of its destination calls for. */
  lemma JoinsDecided(c: Context, f: CombatFacts, start: Rules, a: ArmyId)
    requires Starting(c, start) && a in c.joins && OutcomeOf(start, a) == Pending
    ensures Decided(c, f, start, AfterJoins(c, f, start), a)
  {
    var stuck := StuckJoins(c, f, start);
    var end := AfterJoins(c, f, start);
    var t := c.joins[a].target;
    StuckIsStuck(c, f, start);
    LastPassKept(c, f, start, stuck, stuck, JoinTargets(c));
    TargetListed(c, a);
    assert OnTrack(c, f, start, stuck, a);
    if OutcomeOf(stuck, a) == Pending {
      LastDecided(c, f, start, stuck, end, a);
    } else if Attacked(c, f, t) || !HasUnresolvedJoin(c, stuck, t) {
      DecidedStable(c, f, start, stuck, end, a);
    } else {
      assert SameAt(stuck, end, a);
    }
  }

  // ---------- rings

  /** Joins in a ring, each toward the place of the next, which no attack, dispersion or other join disputes. */
  ghost predicate IsJoinRing(c: Context, f: CombatFacts, start: Rules, ring: seq<ArmyId>)
  {
    && |ring| >= 2
    && forall i :: 0 <= i < |ring| ==>
         && ring[i] in c.joins && OutcomeOf(start, ring[i]) == Pending
         && OccupantAt(c, c.joins[ring[i]].target) == Some(ring[Successor(i, |ring|)])
         && !Attacked(c, f, c.joins[ring[i]].target)
         && DisperseActivity(c, start, c.joins[ring[i]].target) == {}
         && PendingMembers(c, start, c.joins[ring[i]].target) == {ring[i]}
  }

  lemma RingWelcome(c: Context, f: CombatFacts, start: Rules, ring: seq<ArmyId>, i: nat)
    requires IsJoinRing(c, f, start, ring) && i < |ring|
    ensures Welcome(c, start, c.joins[ring[i]].target) == {ring[i]}
  {
    assert PendingMembers(c, start, c.joins[ring[i]].target) == {ring[i]};
  }

  /** No member of the ring is ever refused: the army ahead is still in the ring, or has moved on. */
  ghost predicate RingRuns(c: Context, st: Rules, ring: seq<ArmyId>)
  {
    forall i :: 0 <= i < |ring| ==> OutcomeOf(st, ring[i]) == Pending || OutcomeOf(st, ring[i]) == Success
  }

  lemma RingAhead(c: Context, f: CombatFacts, start: Rules, ring: seq<ArmyId>, i: nat)
    requires IsJoinRing(c, f, start, ring) && i < |ring|
    ensures var h := ring[Successor(i, |ring|)]; OccupantAt(c, c.joins[ring[i]].target) == Some(h) && h in c.joins
  {
  }

  lemma GoneNoHost(c: Context, f: CombatFacts, st: Rules, t: TerritoryId, h: ArmyId)
    requires OccupantAt(c, t) == Some(h) && h in c.joins && (OutcomeOf(st, h) == Pending || OutcomeOf(st, h) == Success)
    ensures StationaryHost(c, f, st, t) == None
  {
  }

  lemma RingFree(c: Context, f: CombatFacts, start: Rules, st: Rules, ring: seq<ArmyId>, i: nat)
    requires IsJoinRing(c, f, start, ring) && RingRuns(c, st, ring) && i < |ring|
    ensures StationaryHost(c, f, st, c.joins[ring[i]].target) == None
  {
    RingAhead(c, f, start, ring, i);
    GoneNoHost(c, f, st, c.joins[ring[i]].target, ring[Successor(i, |ring|)]);
  }

  lemma RingStep(c: Context, f: CombatFacts, start: Rules, st: Rules, ring: seq<ArmyId>, t: TerritoryId)
    requires IsJoinRing(c, f, start, ring) && RingRuns(c, st, ring) && AllOnTrack(c, f, start, st)
    ensures RingRuns(c, JoinStep(c, f, Settle(false), st, t), ring)
  {
    var next := JoinStep(c, f, Settle(false), st, t);
    forall i | 0 <= i < |ring| ensures OutcomeOf(next, ring[i]) == Pending || OutcomeOf(next, ring[i]) == Success {
      StepElsewhere(c, f, Settle(false), st, t, ring[i]);
      if ring[i] in PendingMembers(c, st, t) {
        assert WaitingAt(c, f, start, st, t);
        SettleVerdict(c, f, start, st, t, false);
        RingFree(c, f, start, st, ring, i);
        AppliedAt(st, JoinVerdict(c, f, Settle(false), st, t), ring[i]);
      }
    }
  }

  lemma {:induction false} RingPass(c: Context, f: CombatFacts, start: Rules, st: Rules, ring: seq<ArmyId>, targets: seq<TerritoryId>)
    requires IsJoinRing(c, f, start, ring) && RingRuns(c, st, ring) && AllOnTrack(c, f, start, st)
    ensures RingRuns(c, JoinPass(c, f, Settle(false), st, targets), ring)
    decreases |targets|
  {
    if targets != [] {
      RingStep(c, f, start, st, ring, targets[0]);
      StepOnTrack(c, f, start, st, targets[0]);
      RingPass(c, f, start, JoinStep(c, f, Settle(false), st, targets[0]), ring, targets[1..]);
    }
  }

  lemma {:induction false} RingSettles(c: Context, f: CombatFacts, start: Rules, st: Rules, ring: seq<ArmyId>)
    requires IsJoinRing(c, f, start, ring) && RingRuns(c, st, ring) && AllOnTrack(c, f, start, st)
    ensures RingRuns(c, SettleJoins(c, f, st), ring)
    decreases PendingJoins(c, st)
  {
    var next := JoinPass(c, f, Settle(false), st, JoinTargets(c));
    RingPass(c, f, start, st, ring, JoinTargets(c));
    PassOnTrack(c, f, start, st, JoinTargets(c));
    JoinPassProgress(c, f, Settle(false), st, JoinTargets(c));
    if next != st {
      RingSettles(c, f, start, next, ring);
    }
  }

  /** An uncontested ring of joins, of any length and any owners, succeeds as a whole. */
  lemma JoinRingSucceeds(c: Context, f: CombatFacts, start: Rules, ring: seq<ArmyId>)
    requires Starting(c, start) && IsJoinRing(c, f, start, ring)
    ensures forall i :: 0 <= i < |ring| ==> OutcomeOf(AfterJoins(c, f, start), ring[i]) == Success
  {
    var st := Filtered(c, f, start);
    forall i | 0 <= i < |ring| ensures OutcomeOf(st, ring[i]) == Pending || OutcomeOf(st, ring[i]) == Success {
      RingWelcome(c, f, start, ring, i);
      FilteredAt(c, f, start, ring[i]);
    }
    FilteredOnTrack(c, f, start);
    RingSettles(c, f, start, st, ring);
    forall i | 0 <= i < |ring| ensures OutcomeOf(AfterJoins(c, f, start), ring[i]) == Success {
      LastPassAccepts(c, f, start, ring[i]);
    }
  }
}
