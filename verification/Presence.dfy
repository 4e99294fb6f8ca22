/**
 Who ends the turn where, read off the outcome of the rules: the armies that
 stay, win, join, or send and keep troops on a territory are all of one player,
 and at most one of them is not about to fuse into another.
 */
module Presences {
  import opened Wrappers
  import opened SortedIds
  import opened Turn
  import opened Facts
  import opened Peaceful
  import opened FactReads
  import opened JoinRules
  import opened DispersionRules

  /** Combat as a settled turn leaves it for the rules. */
  ghost predicate IsFought(c: Context, f: CombatFacts)
  {
    && WellFormed(c)
    && (forall b :: AttackMoves(c, f, b) ==> MoverEntered(c, f, b))
    && (forall t :: Attacked(c, f, t) ==> AttackedSettled(c, f, t))
    && (forall o :: IsDislodged(c, f, o) ==> o in c.armies && Attacked(c, f, c.armies[o].territory))
  }

  /** A moving attack is not dislodged, and wins a territory whose army left. */
  ghost predicate MoverEntered(c: Context, f: CombatFacts, b: ArmyId)
  {
    && b in c.attacks && !IsDislodged(c, f, b)
    && Attacked(c, f, c.attacks[b].target) && WinnerAt(c, f, c.attacks[b].target) == Some(b)
    && DefenderLeaves(c, f, c.attacks[b].target)
  }

  /** An attacked army gives no peaceful order, and leaves only by moving or by being dislodged. */
  ghost predicate AttackedSettled(c: Context, f: CombatFacts, t: TerritoryId)
  {
    && (WinnerAt(c, f, t).Some? ==>
          var w := WinnerAt(c, f, t).value; AttackMoves(c, f, w) && c.attacks[w].target == t)
    && (OccupantAt(c, t).Some? ==>
          var o := OccupantAt(c, t).value;
          !IsPeaceful(c, o) && (DefenderLeaves(c, f, t) ==> AttackMoves(c, f, o) || IsDislodged(c, f, o)))
  }

  // ---------- the five ways to be on a territory at the end

  predicate JoinSucceeded(c: Context, end: Rules, b: ArmyId)
  {
    b in c.joins && OutcomeOf(end, b) == Success
  }

  /** It neither moved, nor dispersed, nor was driven out. */
  predicate StaysAt(c: Context, f: CombatFacts, end: Rules, b: ArmyId, t: TerritoryId)
  {
    && b in c.armies && c.armies[b].territory == t && !IsDislodged(c, f, b)
    && !AttackMoves(c, f, b) && !JoinSucceeded(c, end, b) && b !in end.dispersed
  }

  predicate WinsAt(c: Context, f: CombatFacts, b: ArmyId, t: TerritoryId)
  {
    AttackMoves(c, f, b) && c.attacks[b].target == t
  }

  predicate JoinsAt(c: Context, end: Rules, b: ArmyId, t: TerritoryId)
  {
    JoinSucceeded(c, end, b) && c.joins[b].target == t
  }

  /** A dispersion leaves troops on its origin, or sends one back to it. */
  predicate KeepsAt(c: Context, end: Rules, b: ArmyId, t: TerritoryId)
  {
    && b in end.dispersed && b in c.disperses && c.disperses[b].source == t
    && (end.dispersed[b].remaining > 0 || Reaches(c.disperses[b], end.dispersed[b].resolved, t))
  }

  predicate Present(c: Context, f: CombatFacts, end: Rules, b: ArmyId, t: TerritoryId)
  {
    || StaysAt(c, f, end, b, t) || WinsAt(c, f, b, t) || JoinsAt(c, end, b, t)
    || KeepsAt(c, end, b, t) || ArrivesFrom(c, end, b, t)
  }

  /** A join that another army absorbs. */
  predicate Fuses(end: Rules, b: ArmyId)
  {
    b in end.joined && end.joined[b].host.Some? && end.joined[b].host != Some(b)
  }

  /** An army that ends the turn under its own name on t, dispersions apart. */
  predicate AnchorAt(c: Context, f: CombatFacts, end: Rules, b: ArmyId, t: TerritoryId)
  {
    StaysAt(c, f, end, b, t) || WinsAt(c, f, b, t) || (JoinsAt(c, end, b, t) && !Fuses(end, b))
  }

  // ---------- the end state of the rules

  /** What the rules leave, as the lemmas on joins and dispersions describe it. */
  ghost predicate IsOutcome(c: Context, f: CombatFacts, end: Rules)
  {
    && IsFought(c, f)
    && end.joined == AfterAllJoins(c, f).joined && end.dispersed == BeforeFinal(c, f).dispersed
    && (forall a :: a in c.joins ==> OutcomeOf(end, a) == OutcomeOf(AfterAllJoins(c, f), a))
    && Kept(c, f, AfterAllJoins(c, f), BeforeFinal(c, f))
  }

  lemma RunIsOutcome(c: Context, f: CombatFacts)
    requires IsFought(c, f)
    ensures IsOutcome(c, f, RunRules(c, f))
  {
    BeforeFinalKept(c, f);
    FinalKeepsDispersions(c, f);
    forall a | a in c.joins ensures OutcomeOf(RunRules(c, f), a) == OutcomeOf(AfterAllJoins(c, f), a) {
    }
  }

  lemma StartIs(c: Context, f: CombatFacts)
    ensures Starting(c, AfterDispersions(c, f))
    ensures forall a :: a in c.joins && a !in c.disperses ==>
              OutcomeOf(AfterDispersions(c, f), a) == if IsDislodged(c, f, a) then Failure else Pending
    ensures AfterAllJoins(c, f).dispersed == AfterDispersions(c, f).dispersed
    ensures AfterDispersions(c, f).dispersed.Keys == (set m | m in c.disperses && !IsDislodged(c, f, m) && m !in RefusedFrom(c, f, {}))
  {
    JoinsKeepDispersions(c, f, AfterDispersions(c, f));
    forall m ensures m in RefusedFrom(c, f, {}) ==> m in c.disperses {
      RefusedDisperse(c, f, {});
    }
  }

  lemma {:induction false} RefusedDisperse(c: Context, f: CombatFacts, invalid: set<ArmyId>)
    requires invalid <= c.disperses.Keys
    ensures RefusedFrom(c, f, invalid) <= c.disperses.Keys
    decreases c.disperses.Keys - invalid
  {
    var more := NewlyRefused(c, f, invalid);
    if more != {} {
      assert c.disperses.Keys - (invalid + more) < c.disperses.Keys - invalid by {
        var m :| m in more;
        assert m in c.disperses.Keys - invalid && m !in c.disperses.Keys - (invalid + more);
      }
      RefusedDisperse(c, f, invalid + more);
    }
  }

  /** A join that succeeded was decided so by its destination. */
  lemma JoinDecidedAtEnd(c: Context, f: CombatFacts, end: Rules, a: ArmyId)
    requires IsOutcome(c, f, end) && a in c.joins
    ensures OutcomeOf(end, a) == Success ==>
              && Decided(c, f, AfterDispersions(c, f), AfterAllJoins(c, f), a)
              && Succeeds(c, f, AfterDispersions(c, f), AfterAllJoins(c, f), a)
              && OutcomeOf(AfterDispersions(c, f), a) == Pending
    ensures OutcomeOf(end, a) != Success ==> OutcomeOf(end, a) == Failure
  {
    StartIs(c, f);
    if OutcomeOf(AfterDispersions(c, f), a) == Pending {
      JoinsDecided(c, f, AfterDispersions(c, f), a);
    } else {
      JoinsKeepOutcome(c, f, AfterDispersions(c, f), a);
    }
  }

  /** A join with a result has succeeded. */
  lemma JoinedSucceeded(c: Context, f: CombatFacts, end: Rules, b: ArmyId)
    requires IsOutcome(c, f, end)
    ensures b in end.joined <==> JoinSucceeded(c, end, b)
  {
    JoinedAreJoins(c, f, b);
    if b in c.joins {
      JoinDecidedAtEnd(c, f, end, b);
      StartIs(c, f);
      if OutcomeOf(AfterDispersions(c, f), b) == Pending {
        JoinsDecided(c, f, AfterDispersions(c, f), b);
      } else {
        JoinsKeepOutcome(c, f, AfterDispersions(c, f), b);
      }
    }
  }

  /** A joiner's success needs room: what the final state of its destination says. */
  lemma JoinFacts(c: Context, f: CombatFacts, end: Rules, a: ArmyId, t: TerritoryId)
    requires IsOutcome(c, f, end) && JoinsAt(c, end, a, t)
    ensures var start, joins := AfterDispersions(c, f), AfterAllJoins(c, f);
            && a in end.joined && end.joined[a] == ResultAt(c, f, start, joins, t)
            && if Attacked(c, f, t) then JoinAtAttackTarget(c, f, t, PendingMembers(c, start, t)).Accept? && a in PendingMembers(c, start, t)
               else a in Welcome(c, start, t) && Compatible(c, Welcome(c, start, t)) && HostAllows(c, f, joins, t, Welcome(c, start, t))
  {
    JoinDecidedAtEnd(c, f, end, a);
  }

  // ---------- who is on a territory with whom

  lemma Occupies(c: Context, b: ArmyId, t: TerritoryId)
    requires WellFormed(c) && b in c.armies && c.armies[b].territory == t
    ensures OccupantAt(c, t) == Some(b)
  {
  }

  lemma EndRead(c: Context, f: CombatFacts, end: Rules, h: ArmyId)
    requires IsOutcome(c, f, end)
    ensures h in end.dispersed <==> h in AfterAllJoins(c, f).dispersed
    ensures h in c.joins ==>
              OutcomeOf(end, h) == OutcomeOf(AfterAllJoins(c, f), h) && (OutcomeOf(end, h) == Success || OutcomeOf(end, h) == Failure)
  {
    if h in c.joins { JoinDecidedAtEnd(c, f, end, h); }
  }

  lemma HostRead(c: Context, f: CombatFacts, st: Rules, end: Rules, t: TerritoryId, h: ArmyId)
    requires h in end.dispersed <==> h in st.dispersed
    requires h in c.joins ==> OutcomeOf(end, h) == OutcomeOf(st, h) && (OutcomeOf(end, h) == Success || OutcomeOf(end, h) == Failure)
    requires OccupantAt(c, t) == Some(h) && h in c.armies && c.armies[h].territory == t
    ensures StationaryHost(c, f, st, t) == Some(h) <==> StaysAt(c, f, end, h, t)
  {
  }

  /** The host of a join is the army that stays at its destination. */
  lemma HostStays(c: Context, f: CombatFacts, end: Rules, t: TerritoryId, h: ArmyId)
    requires IsOutcome(c, f, end)
    ensures StationaryHost(c, f, AfterAllJoins(c, f), t) == Some(h) <==> StaysAt(c, f, end, h, t)
  {
    if OccupantAt(c, t) == Some(h) {
      EndRead(c, f, end, h);
      HostRead(c, f, AfterAllJoins(c, f), end, t, h);
    } else if StaysAt(c, f, end, h, t) {
      Occupies(c, h, t);
    }
  }

  lemma AttackedAccept(c: Context, f: CombatFacts, t: TerritoryId, members: set<ArmyId>, a: ArmyId)
    requires JoinAtAttackTarget(c, f, t, members).Accept? && a in members
    ensures members == {a} && AlliedAttackArrival(c, f, t, OwnerOf(c, a))
  {
    OneMember(members);
  }

  /** Where a mover enters, nobody stays. */
  lemma WinnerAlone(c: Context, f: CombatFacts, end: Rules, w: ArmyId, b: ArmyId, t: TerritoryId)
    requires IsOutcome(c, f, end) && WinsAt(c, f, w, t)
    ensures !StaysAt(c, f, end, b, t) && !KeepsAt(c, end, b, t)
    ensures WinsAt(c, f, b, t) ==> b == w
  {
    assert MoverEntered(c, f, w) && AttackedSettled(c, f, t);
    if b in c.armies && c.armies[b].territory == t { Occupies(c, b, t); }
    assert AttackMoves(c, f, b) ==> MoverEntered(c, f, b);
  }

  lemma WinnerAndJoin(c: Context, f: CombatFacts, end: Rules, w: ArmyId, a: ArmyId, t: TerritoryId)
    requires IsOutcome(c, f, end) && WinsAt(c, f, w, t) && JoinsAt(c, end, a, t)
    ensures OwnerOf(c, w) == OwnerOf(c, a) && a in end.joined && end.joined[a].host == Some(w) && a != w
  {
    assert MoverEntered(c, f, w);
    JoinFacts(c, f, end, a, t);
    AttackedAccept(c, f, t, PendingMembers(c, AfterDispersions(c, f), t), a);
  }

  lemma StayAndJoin(c: Context, f: CombatFacts, end: Rules, o: ArmyId, a: ArmyId, t: TerritoryId)
    requires IsOutcome(c, f, end) && StaysAt(c, f, end, o, t) && JoinsAt(c, end, a, t)
    ensures OwnerOf(c, o) == OwnerOf(c, a) && a in end.joined && end.joined[a].host == Some(o) && a != o
  {
    JoinFacts(c, f, end, a, t);
    Occupies(c, o, t);
    HostStays(c, f, end, t, o);
    if Attacked(c, f, t) {
      AttackedAccept(c, f, t, PendingMembers(c, AfterDispersions(c, f), t), a);
      AlliedArrivalLeft(c, f, end, o, t, OwnerOf(c, a));
    } else {
      OneMember(Welcome(c, AfterDispersions(c, f), t));
    }
  }

  lemma TwoWelcome(c: Context, start: Rules, t: TerritoryId, a: ArmyId, b: ArmyId)
    requires a in Welcome(c, start, t) && b in Welcome(c, start, t) && Compatible(c, Welcome(c, start, t))
    ensures OwnerOf(c, a) == OwnerOf(c, b) && (a != b ==> |Welcome(c, start, t)| == 2)
  {
    if |Welcome(c, start, t)| == 1 { OneMember(Welcome(c, start, t)); }
  }

  lemma PairResult(c: Context, f: CombatFacts, start: Rules, st: Rules, t: TerritoryId)
    requires !Attacked(c, f, t) && |Welcome(c, start, t)| == 2
    ensures ResultAt(c, f, start, st, t).host == Some(Least(Welcome(c, start, t)))
  {
  }

  lemma TwoJoinsAttacked(c: Context, f: CombatFacts, end: Rules, a: ArmyId, b: ArmyId, t: TerritoryId)
    requires IsOutcome(c, f, end) && JoinsAt(c, end, a, t) && JoinsAt(c, end, b, t) && Attacked(c, f, t)
    ensures a == b
  {
    JoinFacts(c, f, end, a, t);
    JoinFacts(c, f, end, b, t);
    AttackedAccept(c, f, t, PendingMembers(c, AfterDispersions(c, f), t), a);
  }

  /** What lets a join onto an uncontested territory. */
  ghost predicate Joined(c: Context, f: CombatFacts, end: Rules, a: ArmyId, t: TerritoryId)
  {
    var members := Welcome(c, AfterDispersions(c, f), t);
    && a in members && Compatible(c, members) && a in end.joined
    && end.joined[a] == ResultAt(c, f, AfterDispersions(c, f), AfterAllJoins(c, f), t)
  }

  lemma UncontestedJoin(c: Context, f: CombatFacts, end: Rules, a: ArmyId, t: TerritoryId)
    requires IsOutcome(c, f, end) && JoinsAt(c, end, a, t) && !Attacked(c, f, t)
    ensures Joined(c, f, end, a, t)
  {
    JoinFacts(c, f, end, a, t);
  }

  lemma TwoJoined(c: Context, f: CombatFacts, end: Rules, a: ArmyId, b: ArmyId, t: TerritoryId)
    requires Joined(c, f, end, a, t) && Joined(c, f, end, b, t) && !Attacked(c, f, t)
    ensures OwnerOf(c, a) == OwnerOf(c, b)
    ensures a == b || (a in end.joined && b in end.joined && end.joined[a] == end.joined[b] && end.joined[a].host.Some?)
  {
    TwoWelcome(c, AfterDispersions(c, f), t, a, b);
    if a != b { PairResult(c, f, AfterDispersions(c, f), AfterAllJoins(c, f), t); }
  }

  /** Two joins to one territory are of one player, and fuse into the first of them. */
  lemma TwoJoins(c: Context, f: CombatFacts, end: Rules, a: ArmyId, b: ArmyId, t: TerritoryId)
    requires IsOutcome(c, f, end) && JoinsAt(c, end, a, t) && JoinsAt(c, end, b, t)
    ensures OwnerOf(c, a) == OwnerOf(c, b)
    ensures a == b || (a in end.joined && b in end.joined && end.joined[a] == end.joined[b] && end.joined[a].host.Some?)
  {
    if Attacked(c, f, t) {
      TwoJoinsAttacked(c, f, end, a, b, t);
    } else {
      UncontestedJoin(c, f, end, a, t);
      UncontestedJoin(c, f, end, b, t);
      TwoJoined(c, f, end, a, b, t);
    }
  }

  // ---------- dispersions

  lemma FirstArrival(c: Context, f: CombatFacts, m: ArmyId, t: TerritoryId)
    requires ArrivesFrom(c, AfterAllJoins(c, f), m, t)
    ensures m in c.disperses && IsCandidate(c, f, m, t) && t != c.disperses[m].source
    ensures ArrivesFrom(c, AfterDispersions(c, f), m, t)
  {
    JoinsKeepDispersions(c, f, AfterDispersions(c, f));
    FirstArrivals(c, f, m, t);
  }

  /** Troops sent to t came by the first resolution, or late to a place left to them. */
  lemma SentFacts(c: Context, f: CombatFacts, end: Rules, m: ArmyId, t: TerritoryId)
    requires IsOutcome(c, f, end) && ArrivesFrom(c, end, m, t)
    ensures m in c.disperses && t != c.disperses[m].source && !IsDislodged(c, f, m)
    ensures SentRight(c, f, AfterAllJoins(c, f), BeforeFinal(c, f), m, t) && ArrivesFrom(c, BeforeFinal(c, f), m, t)
  {
    StartIs(c, f);
    assert m in AfterDispersions(c, f).dispersed;
  }

  lemma AlliedArrivalLeft(c: Context, f: CombatFacts, end: Rules, o: ArmyId, t: TerritoryId, owner: PlayerId)
    requires IsOutcome(c, f, end) && Attacked(c, f, t) && AlliedAttackArrival(c, f, t, owner)
    ensures !StaysAt(c, f, end, o, t)
  {
    assert AttackedSettled(c, f, t);
    if StaysAt(c, f, end, o, t) { Occupies(c, o, t); }
  }

  lemma StayAndFirst(c: Context, f: CombatFacts, end: Rules, o: ArmyId, m: ArmyId, t: TerritoryId)
    requires IsOutcome(c, f, end) && StaysAt(c, f, end, o, t) && m in c.disperses && t != c.disperses[m].source && IsCandidate(c, f, m, t)
    ensures OwnerOf(c, o) == OwnerOf(c, m)
  {
    Occupies(c, o, t);
    if Attacked(c, f, t) { AlliedArrivalLeft(c, f, end, o, t, OwnerOf(c, m)); }
  }

  lemma StayAndSend(c: Context, f: CombatFacts, end: Rules, o: ArmyId, m: ArmyId, t: TerritoryId)
    requires IsOutcome(c, f, end) && StaysAt(c, f, end, o, t) && ArrivesFrom(c, end, m, t)
    ensures OwnerOf(c, o) == OwnerOf(c, m)
  {
    Occupies(c, o, t);
    SentFacts(c, f, end, m, t);
    StayNotLeft(c, f, end, o, t, OwnerOf(c, m));
    FirstArrival(c, f, m, t);
    StayAndFirst(c, f, end, o, m, t);
  }

  /** Nothing arrives late where an army stays. */
  lemma StayNotLeft(c: Context, f: CombatFacts, end: Rules, o: ArmyId, t: TerritoryId, owner: PlayerId)
    requires IsOutcome(c, f, end) && StaysAt(c, f, end, o, t)
    ensures !LateAllowed(c, BeforeFinal(c, f), o, owner)
  {
    assert o !in BeforeFinal(c, f).dispersed;
    JoinedAreJoins(c, f, o);
  }

  /** Only joins have a result. */
  lemma JoinedAreJoins(c: Context, f: CombatFacts, o: ArmyId)
    ensures o in AfterAllJoins(c, f).joined ==> o in c.joins
    ensures AfterAllJoins(c, f).joined == BeforeFinal(c, f).joined && AfterAllJoins(c, f).outcome == BeforeFinal(c, f).outcome
  {
    BeforeFinalKept(c, f);
    if o !in c.joins { JoinsKeepOutcome(c, f, AfterDispersions(c, f), o); }
  }

  lemma WinnerAndSend(c: Context, f: CombatFacts, end: Rules, w: ArmyId, m: ArmyId, t: TerritoryId)
    requires IsOutcome(c, f, end) && WinsAt(c, f, w, t) && ArrivesFrom(c, end, m, t)
    ensures OwnerOf(c, w) == OwnerOf(c, m)
  {
    assert MoverEntered(c, f, w);
    SentFacts(c, f, end, m, t);
    FirstArrival(c, f, m, t);
  }

  lemma JoinAndFirst(c: Context, f: CombatFacts, end: Rules, a: ArmyId, m: ArmyId, t: TerritoryId)
    requires IsOutcome(c, f, end) && JoinsAt(c, end, a, t) && ArrivesFrom(c, AfterAllJoins(c, f), m, t)
    ensures OwnerOf(c, a) == OwnerOf(c, m)
  {
    JoinFacts(c, f, end, a, t);
    FirstArrival(c, f, m, t);
    if Attacked(c, f, t) {
      AttackedAccept(c, f, t, PendingMembers(c, AfterDispersions(c, f), t), a);
    } else {
      WelcomeOwns(c, AfterDispersions(c, f), t, a, m);
    }
  }

  lemma JoinAndLate(c: Context, f: CombatFacts, end: Rules, a: ArmyId, t: TerritoryId, owner: PlayerId)
    requires IsOutcome(c, f, end) && JoinsAt(c, end, a, t) && !OtherOwnerJoins(c, BeforeFinal(c, f), t, owner)
    ensures OwnerOf(c, a) == owner
  {
    JoinedAreJoins(c, f, a);
    assert OutcomeOf(BeforeFinal(c, f), a) == Success;
  }

  lemma JoinAndSend(c: Context, f: CombatFacts, end: Rules, a: ArmyId, m: ArmyId, t: TerritoryId)
    requires IsOutcome(c, f, end) && JoinsAt(c, end, a, t) && ArrivesFrom(c, end, m, t)
    ensures OwnerOf(c, a) == OwnerOf(c, m)
  {
    SentFacts(c, f, end, m, t);
    if ArrivesFrom(c, AfterAllJoins(c, f), m, t) {
      JoinAndFirst(c, f, end, a, m, t);
    } else {
      JoinAndLate(c, f, end, a, t, OwnerOf(c, m));
    }
  }

  lemma WelcomeOwns(c: Context, start: Rules, t: TerritoryId, a: ArmyId, m: ArmyId)
    requires a in Welcome(c, start, t) && m in DisperseActivity(c, start, t)
    ensures OwnerOf(c, a) == OwnerOf(c, m)
  {
  }

  /** Troops kept at the end were never all gone. */
  lemma KeepsFacts(c: Context, f: CombatFacts, end: Rules, o: ArmyId, t: TerritoryId)
    requires IsOutcome(c, f, end) && KeepsAt(c, end, o, t)
    ensures OccupantAt(c, t) == Some(o) && !Attacked(c, f, t) && o !in c.joins
    ensures !VacatesSource(c, BeforeFinal(c, f), o) && !VacatesSource(c, AfterAllJoins(c, f), o)
    ensures StillAt(c, AfterDispersions(c, f), o, t)
  {
    StartIs(c, f);
    JoinsKeepDispersions(c, f, AfterDispersions(c, f));
    Occupies(c, o, t);
    assert Attacked(c, f, t) ==> AttackedSettled(c, f, t);
    assert !VacatesSource(c, BeforeFinal(c, f), o);
    FirstSound(c, f);
    assert IsSound(c, o, AfterDispersions(c, f).dispersed[o]);
  }

  lemma KeepAndJoin(c: Context, f: CombatFacts, end: Rules, o: ArmyId, a: ArmyId, t: TerritoryId)
    requires IsOutcome(c, f, end) && KeepsAt(c, end, o, t) && JoinsAt(c, end, a, t)
    ensures OwnerOf(c, o) == OwnerOf(c, a)
  {
    KeepsFacts(c, f, end, o, t);
    JoinFacts(c, f, end, a, t);
    WelcomeOwns(c, AfterDispersions(c, f), t, a, o);
  }

  lemma KeepAndFirst(c: Context, f: CombatFacts, end: Rules, o: ArmyId, m: ArmyId, t: TerritoryId)
    requires IsOutcome(c, f, end) && KeepsAt(c, end, o, t) && OccupantAt(c, t) == Some(o) && !Attacked(c, f, t)
    requires m in c.disperses && t != c.disperses[m].source
    ensures !IsCandidate(c, f, m, t)
  {
    assert AttackMoves(c, f, o) ==> MoverEntered(c, f, o);
  }

  lemma KeepAndLate(c: Context, f: CombatFacts, end: Rules, o: ArmyId, owner: PlayerId)
    requires o !in c.joins && !VacatesSource(c, BeforeFinal(c, f), o) && LateAllowed(c, BeforeFinal(c, f), o, owner)
    ensures OwnerOf(c, o) == owner
  {
    JoinedAreJoins(c, f, o);
  }

  lemma KeepAndSend(c: Context, f: CombatFacts, end: Rules, o: ArmyId, m: ArmyId, t: TerritoryId)
    requires IsOutcome(c, f, end) && KeepsAt(c, end, o, t) && ArrivesFrom(c, end, m, t)
    ensures OwnerOf(c, o) == OwnerOf(c, m)
  {
    KeepsFacts(c, f, end, o, t);
    SentFacts(c, f, end, m, t);
    KeepAndFirst(c, f, end, o, m, t);
    if !ArrivesFrom(c, AfterAllJoins(c, f), m, t) {
      KeepAndLate(c, f, end, o, OwnerOf(c, m));
    } else {
      FirstArrival(c, f, m, t);
    }
  }

  /** The army starting on t is the only one that can stay there or keep troops there. */
  lemma OneOccupant(c: Context, f: CombatFacts, end: Rules, a: ArmyId, b: ArmyId, t: TerritoryId)
    requires IsOutcome(c, f, end)
    requires (StaysAt(c, f, end, a, t) || KeepsAt(c, end, a, t)) && (StaysAt(c, f, end, b, t) || KeepsAt(c, end, b, t))
    ensures a == b
  {
    if KeepsAt(c, end, a, t) { KeepsFacts(c, f, end, a, t); } else { Occupies(c, a, t); }
    if KeepsAt(c, end, b, t) { KeepsFacts(c, f, end, b, t); } else { Occupies(c, b, t); }
  }

  /** Two dispersions that send troops to t are of one player. */
  lemma TwoSends(c: Context, f: CombatFacts, end: Rules, m: ArmyId, n: ArmyId, t: TerritoryId)
    requires IsOutcome(c, f, end) && ArrivesFrom(c, end, m, t) && ArrivesFrom(c, end, n, t)
    ensures OwnerOf(c, m) == OwnerOf(c, n)
  {
    assert ArrivesFrom(c, BeforeFinal(c, f), m, t) && ArrivesFrom(c, BeforeFinal(c, f), n, t);
  }

  lemma WithStay(c: Context, f: CombatFacts, end: Rules, o: ArmyId, b: ArmyId, t: TerritoryId)
    requires IsOutcome(c, f, end) && StaysAt(c, f, end, o, t) && Present(c, f, end, b, t)
    ensures OwnerOf(c, o) == OwnerOf(c, b)
  {
    if WinsAt(c, f, b, t) { WinnerAlone(c, f, end, b, o, t); }
    else if JoinsAt(c, end, b, t) { StayAndJoin(c, f, end, o, b, t); }
    else if ArrivesFrom(c, end, b, t) { StayAndSend(c, f, end, o, b, t); }
    else { OneOccupant(c, f, end, o, b, t); }
  }

  lemma WithWin(c: Context, f: CombatFacts, end: Rules, w: ArmyId, b: ArmyId, t: TerritoryId)
    requires IsOutcome(c, f, end) && WinsAt(c, f, w, t) && Present(c, f, end, b, t)
    ensures OwnerOf(c, w) == OwnerOf(c, b)
  {
    WinnerAlone(c, f, end, w, b, t);
    if JoinsAt(c, end, b, t) { WinnerAndJoin(c, f, end, w, b, t); }
    else if ArrivesFrom(c, end, b, t) { WinnerAndSend(c, f, end, w, b, t); }
  }

  lemma WithKeep(c: Context, f: CombatFacts, end: Rules, o: ArmyId, b: ArmyId, t: TerritoryId)
    requires IsOutcome(c, f, end) && KeepsAt(c, end, o, t) && Present(c, f, end, b, t)
    ensures OwnerOf(c, o) == OwnerOf(c, b)
  {
    if WinsAt(c, f, b, t) { WinnerAlone(c, f, end, b, o, t); }
    else if JoinsAt(c, end, b, t) { KeepAndJoin(c, f, end, o, b, t); }
    else if ArrivesFrom(c, end, b, t) { KeepAndSend(c, f, end, o, b, t); }
    else { OneOccupant(c, f, end, o, b, t); }
  }

  /** Whoever ends the turn on a territory, by whatever order, is of one player. */
  lemma OneOwnerPresent(c: Context, f: CombatFacts, end: Rules, a: ArmyId, b: ArmyId, t: TerritoryId)
    requires IsOutcome(c, f, end) && Present(c, f, end, a, t) && Present(c, f, end, b, t)
    ensures OwnerOf(c, a) == OwnerOf(c, b)
  {
    if StaysAt(c, f, end, a, t) { WithStay(c, f, end, a, b, t); }
    else if StaysAt(c, f, end, b, t) { WithStay(c, f, end, b, a, t); }
    else if WinsAt(c, f, a, t) { WithWin(c, f, end, a, b, t); }
    else if WinsAt(c, f, b, t) { WithWin(c, f, end, b, a, t); }
    else if KeepsAt(c, end, a, t) { WithKeep(c, f, end, a, b, t); }
    else if KeepsAt(c, end, b, t) { WithKeep(c, f, end, b, a, t); }
    else if JoinsAt(c, end, a, t) && JoinsAt(c, end, b, t) { TwoJoins(c, f, end, a, b, t); }
    else if JoinsAt(c, end, a, t) { JoinAndSend(c, f, end, a, b, t); }
    else if JoinsAt(c, end, b, t) { JoinAndSend(c, f, end, b, a, t); }
    else { TwoSends(c, f, end, a, b, t); }
  }

  lemma AnchorsWithStay(c: Context, f: CombatFacts, end: Rules, o: ArmyId, b: ArmyId, t: TerritoryId)
    requires IsOutcome(c, f, end) && StaysAt(c, f, end, o, t) && AnchorAt(c, f, end, b, t)
    ensures o == b
  {
    if WinsAt(c, f, b, t) { WinnerAlone(c, f, end, b, o, t); }
    else if StaysAt(c, f, end, b, t) { OneOccupant(c, f, end, o, b, t); }
    else { StayAndJoin(c, f, end, o, b, t); }
  }

  lemma AnchorsWithWin(c: Context, f: CombatFacts, end: Rules, w: ArmyId, b: ArmyId, t: TerritoryId)
    requires IsOutcome(c, f, end) && WinsAt(c, f, w, t) && AnchorAt(c, f, end, b, t)
    ensures w == b
  {
    WinnerAlone(c, f, end, w, b, t);
    if !WinsAt(c, f, b, t) { WinnerAndJoin(c, f, end, w, b, t); }
  }

  lemma AnchorsWithJoin(c: Context, f: CombatFacts, end: Rules, a: ArmyId, b: ArmyId, t: TerritoryId)
    requires IsOutcome(c, f, end) && JoinsAt(c, end, a, t) && JoinsAt(c, end, b, t) && !Fuses(end, a) && !Fuses(end, b)
    ensures a == b
  {
    TwoJoins(c, f, end, a, b, t);
  }

  /** At most one army stands on a territory without fusing into another, dispersions apart. */
  lemma OneAnchor(c: Context, f: CombatFacts, end: Rules, a: ArmyId, b: ArmyId, t: TerritoryId)
    requires IsOutcome(c, f, end) && AnchorAt(c, f, end, a, t) && AnchorAt(c, f, end, b, t)
    ensures a == b
  {
    if StaysAt(c, f, end, a, t) { AnchorsWithStay(c, f, end, a, b, t); }
    else if StaysAt(c, f, end, b, t) { AnchorsWithStay(c, f, end, b, a, t); }
    else if WinsAt(c, f, a, t) { AnchorsWithWin(c, f, end, a, b, t); }
    else if WinsAt(c, f, b, t) { AnchorsWithWin(c, f, end, b, a, t); }
    else { AnchorsWithJoin(c, f, end, a, b, t); }
  }

  /** The army a join fuses into stands at its destination, and fuses into nobody. */
  lemma HostAnchored(c: Context, f: CombatFacts, end: Rules, a: ArmyId)
    requires IsOutcome(c, f, end) && Fuses(end, a)
    ensures a in c.joins && AnchorAt(c, f, end, end.joined[a].host.value, c.joins[a].target)
    ensures OwnerOf(c, end.joined[a].host.value) == OwnerOf(c, a)
  {
    JoinedSucceeded(c, f, end, a);
    var t := c.joins[a].target;
    var h := end.joined[a].host.value;
    JoinFacts(c, f, end, a, t);
    var start, joins := AfterDispersions(c, f), AfterAllJoins(c, f);
    if Attacked(c, f, t) {
      AttackedAccept(c, f, t, PendingMembers(c, start, t), a);
      assert AttackedSettled(c, f, t);
      WinnerAndJoin(c, f, end, h, a, t);
    } else if |Welcome(c, start, t)| == 2 {
      PairHost(c, f, end, a, t);
    } else {
      HostStays(c, f, end, t, h);
      StayAndJoin(c, f, end, h, a, t);
    }
  }

  lemma PairHost(c: Context, f: CombatFacts, end: Rules, a: ArmyId, t: TerritoryId)
    requires IsOutcome(c, f, end) && JoinsAt(c, end, a, t) && !Attacked(c, f, t)
    requires |Welcome(c, AfterDispersions(c, f), t)| == 2
    ensures var h := Least(Welcome(c, AfterDispersions(c, f), t));
            JoinsAt(c, end, h, t) && !Fuses(end, h) && OwnerOf(c, h) == OwnerOf(c, a)
  {
    var start := AfterDispersions(c, f);
    var members := Welcome(c, start, t);
    var h := Least(members);
    JoinFacts(c, f, end, a, t);
    JoinsDecided(c, f, start, h);
    assert Succeeds(c, f, start, AfterAllJoins(c, f), h);
  }
}
