/**
 What the dispersion rules keep from resolveDispersions to
 finalizeDispersions: no dispersion sends more troops than its army has, none
 that was kept becomes invalid, and the troops arriving on a territory from
 elsewhere all belong to one player.
 */
module DispersionRules {
  import opened Wrappers
  import opened SortedIds
  import opened Turn
  import opened Facts
  import opened Peaceful
  import opened FactReads
  import opened JoinRules
  import opened Locality

  // ---------- allotting troops

  /** Troops go to the first allowed targets, one each, until none is left. */
  lemma {:induction false} AllotGreedy(allowed: seq<bool>, available: int, i: nat)
    requires i < |allowed|
    ensures Allot(allowed, available)[i] <==> allowed[i] && CountTrue(allowed[..i]) < available
  {
    if i > 0 {
      AllotGreedy(allowed[1..], if allowed[0] && available >= 1 then available - 1 else available, i - 1);
      assert allowed[..i] == [allowed[0]] + allowed[1..][..i - 1];
    }
  }

  lemma {:induction false} AllotBounded(allowed: seq<bool>, available: int)
    ensures CountTrue(Allot(allowed, available)) <= if available > 0 then available else 0
    decreases |allowed|
  {
    if allowed != [] {
      AllotBounded(allowed[1..], if allowed[0] && available >= 1 then available - 1 else available);
      var rest := Allot(allowed[1..], if allowed[0] && available >= 1 then available - 1 else available);
      assert Allot(allowed, available)[1..] == rest;
    }
  }

  lemma {:induction false} OneMoreTrue(bits: seq<bool>, i: nat)
    requires i < |bits| && !bits[i]
    ensures CountTrue(bits[i := true]) == CountTrue(bits) + 1
  {
    if i > 0 {
      OneMoreTrue(bits[1..], i - 1);
      assert bits[i := true][1..] == bits[1..][i - 1 := true];
    } else {
      assert bits[i := true][1..] == bits[1..];
    }
  }

  // ---------- what every stage keeps

  /** The dispersion spends troops it has, and nothing invalidates it. */
  ghost predicate IsSound(c: Context, m: ArmyId, d: Dispersal)
  {
    && m in c.disperses && |d.resolved| == |c.disperses[m].targets| && !d.invalid
    && d.remaining == Remaining(c, m, d.resolved) && d.remaining >= 0
    && !IsRefused(c, m, d.resolved)
  }

  ghost predicate AllSound(c: Context, dispersed: map<ArmyId, Dispersal>)
  {
    forall m :: m in dispersed ==> IsSound(c, m, dispersed[m])
  }

  /** Troops of two players never arrive on one territory from elsewhere. */
  ghost predicate OneOwnerEach(c: Context, st: Rules)
  {
    forall m, n, t :: ArrivesFrom(c, st, m, t) && ArrivesFrom(c, st, n, t) ==> OwnerOf(c, m) == OwnerOf(c, n)
  }

  lemma {:induction false} RefusalsEnd(c: Context, f: CombatFacts, invalid: set<ArmyId>)
    ensures NewlyRefused(c, f, RefusedFrom(c, f, invalid)) == {} && invalid <= RefusedFrom(c, f, invalid)
    decreases c.disperses.Keys - invalid
  {
    var more := NewlyRefused(c, f, invalid);
    if more != {} {
      assert c.disperses.Keys - (invalid + more) < c.disperses.Keys - invalid by {
        var m :| m in more;
        assert m in c.disperses.Keys - invalid && m !in c.disperses.Keys - (invalid + more);
      }
      RefusalsEnd(c, f, invalid + more);
    }
  }

  /** A dispersion is dropped only when its allotment, against the claims still standing at some round, makes it invalid. */
  lemma {:induction false} RefusedForCause(c: Context, f: CombatFacts, invalid: set<ArmyId>, m: ArmyId)
    requires m in RefusedFrom(c, f, invalid) && m !in invalid
    ensures exists dropped: set<ArmyId> ::
              invalid <= dropped <= RefusedFrom(c, f, invalid) && m in NewlyRefused(c, f, dropped)
    decreases c.disperses.Keys - invalid
  {
    var more := NewlyRefused(c, f, invalid);
    if m in more {
      RefusalsEnd(c, f, invalid);
    } else if more != {} {
      assert c.disperses.Keys - (invalid + more) < c.disperses.Keys - invalid by {
        var k :| k in more;
        assert k in c.disperses.Keys - invalid && k !in c.disperses.Keys - (invalid + more);
      }
      RefusedForCause(c, f, invalid + more, m);
      RefusalsEnd(c, f, invalid + more);
      var dropped: set<ArmyId> :| invalid + more <= dropped <= RefusedFrom(c, f, invalid + more) && m in NewlyRefused(c, f, dropped);
      assert invalid <= dropped <= RefusedFrom(c, f, invalid);
    }
  }

  lemma FirstSound(c: Context, f: CombatFacts)
    ensures AllSound(c, AfterDispersions(c, f).dispersed)
  {
    var invalid := RefusedFrom(c, f, {});
    RefusalsEnd(c, f, {});
    var dispersed := AfterDispersions(c, f).dispersed;
    forall m | m in dispersed ensures IsSound(c, m, dispersed[m]) {
      assert m !in NewlyRefused(c, f, invalid);
      var targets := c.disperses[m].targets;
      AllotBounded(seq(|targets|, i requires 0 <= i < |targets| => MayResolve(c, f, invalid, m, targets[i])), SizeOf(c, m));
    }
  }

  /** A resolved target away from the origin is claimed, by claimants of one player. */
  lemma ResolvedClaimed(c: Context, f: CombatFacts, m: ArmyId, i: nat)
    requires m in AfterDispersions(c, f).dispersed && i < |c.disperses[m].targets|
    requires AfterDispersions(c, f).dispersed[m].resolved[i]
    ensures MayResolve(c, f, RefusedFrom(c, f, {}), m, c.disperses[m].targets[i])
    ensures c.disperses[m].targets[i] != c.disperses[m].source ==>
              m in Claimants(c, f, RefusedFrom(c, f, {}), c.disperses[m].targets[i])
  {
    var targets := c.disperses[m].targets;
    AllotGreedy(seq(|targets|, j requires 0 <= j < |targets| => MayResolve(c, f, RefusedFrom(c, f, {}), m, targets[j])), SizeOf(c, m), i);
  }

  lemma FirstArrivals(c: Context, f: CombatFacts, m: ArmyId, t: TerritoryId)
    requires ArrivesFrom(c, AfterDispersions(c, f), m, t)
    ensures m in Claimants(c, f, RefusedFrom(c, f, {}), t) && ShareOwner(c, Claimants(c, f, RefusedFrom(c, f, {}), t))
  {
    var d := AfterDispersions(c, f).dispersed[m];
    var i :| 0 <= i < |c.disperses[m].targets| && i < |d.resolved| && c.disperses[m].targets[i] == t && d.resolved[i];
    ResolvedClaimed(c, f, m, i);
  }

  lemma FirstOneOwner(c: Context, f: CombatFacts)
    ensures OneOwnerEach(c, AfterDispersions(c, f))
  {
    var st := AfterDispersions(c, f);
    forall m, n, t | ArrivesFrom(c, st, m, t) && ArrivesFrom(c, st, n, t) ensures OwnerOf(c, m) == OwnerOf(c, n) {
      FirstArrivals(c, f, m, t);
      FirstArrivals(c, f, n, t);
    }
  }

  lemma JoinsKeepDispersions(c: Context, f: CombatFacts, st: Rules)
    ensures AfterJoins(c, f, st).dispersed == st.dispersed
  {
    FilteredDispersed(c, f, st);
    SettleKeepsDispersions(c, f, Filtered(c, f, st));
    PassKeeps(c, f, Settle(true), StuckJoins(c, f, st), JoinTargets(c), 0);
  }

  lemma {:induction false} SettleKeepsDispersions(c: Context, f: CombatFacts, st: Rules)
    ensures SettleJoins(c, f, st).dispersed == st.dispersed
    decreases PendingJoins(c, st)
  {
    var next := JoinPass(c, f, Settle(false), st, JoinTargets(c));
    PassKeeps(c, f, Settle(false), st, JoinTargets(c), 0);
    JoinPassProgress(c, f, Settle(false), st, JoinTargets(c));
    if next != st { SettleKeepsDispersions(c, f, next); }
  }

  lemma SameArrivals(c: Context, st: Rules, next: Rules)
    requires st.dispersed == next.dispersed && OneOwnerEach(c, st)
    ensures OneOwnerEach(c, next)
  {
    forall m, n, t | ArrivesFrom(c, next, m, t) && ArrivesFrom(c, next, n, t) ensures OwnerOf(c, m) == OwnerOf(c, n) {
      assert ArrivesFrom(c, st, m, t) && ArrivesFrom(c, st, n, t);
    }
  }

  // ---------- late arrivals

  /** One late arrival. */
  ghost predicate Arrival(c: Context, f: CombatFacts, st: Rules, m: ArmyId, i: nat)
  {
    m in c.disperses && m in st.dispersed && i < |c.disperses[m].targets| && CanArriveLate(c, f, st, m, i)
  }

  lemma ArrivalProgress(c: Context, f: CombatFacts, st: Rules, m: ArmyId, i: nat)
    requires Arrival(c, f, st, m, i)
    ensures Unresolved(WithTarget(st, m, i)) < Unresolved(st)
  {
    assert (m, i) in Unresolved(st) && (m, i) !in Unresolved(WithTarget(st, m, i));
  }

  /** If one dispersion resolves nothing late, none of its targets can be reached. */
  lemma {:induction false} QuietArrivals(c: Context, f: CombatFacts, st: Rules, m: ArmyId, i: nat, j: nat)
    requires ArriveLate(c, f, st, m, i) == st && i <= j
    ensures !Arrival(c, f, st, m, j)
    decreases if m in c.disperses then |c.disperses[m].targets| - i else 0
  {
    if m in c.disperses && m in st.dispersed && i < |c.disperses[m].targets| {
      if Arrival(c, f, st, m, i) {
        Tried(c, f, st, m, i);
        AfterTry(c, f, st, m, i, WithTarget(st, m, i));
        ArrivalProgress(c, f, st, m, i);
        ArriveLateProgress(c, f, WithTarget(st, m, i), m, i + 1);
        assert false;
      } else if i < j {
        QuietArrivals(c, f, st, m, i + 1, j);
      }
    }
  }

  lemma {:induction false} QuietSweep(c: Context, f: CombatFacts, st: Rules, order: seq<ArmyId>, m: ArmyId)
    requires LateSweep(c, f, st, order) == st && m in order && m in st.dispersed && !st.dispersed[m].invalid
    ensures ArriveLate(c, f, st, m, 0) == st
    decreases |order|
  {
    var first := order[0];
    var next := if first in st.dispersed && !st.dispersed[first].invalid then ArriveLate(c, f, st, first, 0) else st;
    ArriveLateProgress(c, f, st, first, 0);
    LateSweepProgress(c, f, next, order[1..]);
    assert next == st;
    if m != first {
      QuietSweep(c, f, st, order[1..], m);
    }
  }

  /** When the late arrivals end, no target left out can still be reached. */
  lemma {:induction false} ArrivalsExhausted(c: Context, f: CombatFacts, st: Rules, m: ArmyId, i: nat)
    requires m in AfterVacated(c, f, st).dispersed && !AfterVacated(c, f, st).dispersed[m].invalid
    ensures !Arrival(c, f, AfterVacated(c, f, st), m, i)
    decreases Unresolved(st)
  {
    VacatedUnfolds(c, f, st);
    if Swept(c, f, st) != st {
      ArrivalsExhausted(c, f, Swept(c, f, st), m, i);
    } else {
      QuietSweep(c, f, st, Sorted(st.dispersed.Keys), m);
      QuietArrivals(c, f, st, m, 0, i);
    }
  }

  lemma ArrivalSound(c: Context, f: CombatFacts, st: Rules, m: ArmyId, i: nat)
    requires Arrival(c, f, st, m, i) && AllSound(c, st.dispersed)
    ensures AllSound(c, WithTarget(st, m, i).dispersed)
  {
    assert IsSound(c, m, st.dispersed[m]);
    OneMoreTrue(st.dispersed[m].resolved, i);
    forall n | n in WithTarget(st, m, i).dispersed ensures IsSound(c, n, WithTarget(st, m, i).dispersed[n]) {
      assert IsSound(c, n, st.dispersed[n]);
    }
  }

  /** Only the claimant of a territory arrives late on it. */
  lemma ArrivalOnlyClaimant(c: Context, f: CombatFacts, st: Rules, m: ArmyId, i: nat, n: ArmyId)
    requires Arrival(c, f, st, m, i) && AllSound(c, st.dispersed)
    requires ArrivesFrom(c, WithTarget(st, m, i), n, c.disperses[m].targets[i])
    ensures n == m
  {
    var t := c.disperses[m].targets[i];
    var claimants := TargetClaimants(c, st, t);
    assert IsSound(c, m, st.dispersed[m]) && IsSound(c, n, st.dispersed[n]);
    assert m in claimants && n in claimants;
    OneMember(claimants);
  }

  lemma ArrivalElsewhere(c: Context, st: Rules, m: ArmyId, i: nat, n: ArmyId, t: TerritoryId)
    requires m in c.disperses && m in st.dispersed && i < |st.dispersed[m].resolved| && i < |c.disperses[m].targets|
    requires t != c.disperses[m].targets[i]
    ensures ArrivesFrom(c, WithTarget(st, m, i), n, t) ==> ArrivesFrom(c, st, n, t)
  {
    if n == m && ArrivesFrom(c, WithTarget(st, m, i), m, t) {
      var d := WithTarget(st, m, i).dispersed[m];
      var k :| 0 <= k < |c.disperses[m].targets| && k < |d.resolved| && c.disperses[m].targets[k] == t && d.resolved[k];
      assert k != i && st.dispersed[m].resolved[k];
    }
  }

  lemma ArrivalOneOwner(c: Context, f: CombatFacts, st: Rules, m: ArmyId, i: nat)
    requires Arrival(c, f, st, m, i) && AllSound(c, st.dispersed) && OneOwnerEach(c, st)
    ensures OneOwnerEach(c, WithTarget(st, m, i))
  {
    var next := WithTarget(st, m, i);
    forall a, b, t | ArrivesFrom(c, next, a, t) && ArrivesFrom(c, next, b, t) ensures OwnerOf(c, a) == OwnerOf(c, b) {
      if t == c.disperses[m].targets[i] {
        ArrivalOnlyClaimant(c, f, st, m, i, a);
        ArrivalOnlyClaimant(c, f, st, m, i, b);
      } else {
        ArrivalElsewhere(c, st, m, i, a, t);
        ArrivalElsewhere(c, st, m, i, b, t);
      }
    }
  }

  // ---------- what allows a late arrival

  /** The army on t has left, is leaving entirely, or is of that player. */
  ghost predicate LateAllowed(c: Context, st: Rules, o: ArmyId, owner: PlayerId)
  {
    || (o in st.joined && OutcomeOf(st, o) == Success)
    || (o in st.dispersed && (VacatesSource(c, st, o) || OwnerOf(c, o) == owner))
  }

  /** Troops arrive on t by the first resolution, or late on a territory left to them. */
  ghost predicate SentRight(c: Context, f: CombatFacts, start: Rules, st: Rules, m: ArmyId, t: TerritoryId)
  {
    ArrivesFrom(c, st, m, t) ==>
      || ArrivesFrom(c, start, m, t)
      || (!Attacked(c, f, t) && OccupantAt(c, t).Some? && !OtherOwnerJoins(c, st, t, OwnerOf(c, m))
          && LateAllowed(c, st, OccupantAt(c, t).value, OwnerOf(c, m)))
  }

  /** A dispersion that leaves nobody behind has nothing more to send. */
  lemma VacatedStays(c: Context, f: CombatFacts, st: Rules, m: ArmyId, i: nat, o: ArmyId)
    requires Arrival(c, f, st, m, i) && VacatesSource(c, st, o)
    ensures VacatesSource(c, WithTarget(st, m, i), o)
  {
  }

  lemma ArrivalOutcomes(c: Context, f: CombatFacts, st: Rules, m: ArmyId, i: nat)
    requires Arrival(c, f, st, m, i)
    ensures WithTarget(st, m, i).outcome == st.outcome && WithTarget(st, m, i).joined == st.joined
    ensures WithTarget(st, m, i).dispersed.Keys == st.dispersed.Keys
  {
  }

  lemma AllowedStays(c: Context, f: CombatFacts, st: Rules, m: ArmyId, i: nat, o: ArmyId, owner: PlayerId)
    requires Arrival(c, f, st, m, i) && LateAllowed(c, st, o, owner)
    ensures LateAllowed(c, WithTarget(st, m, i), o, owner)
  {
    ArrivalOutcomes(c, f, st, m, i);
    if VacatesSource(c, st, o) { VacatedStays(c, f, st, m, i, o); }
  }

  lemma OtherJoinsKept(c: Context, st: Rules, next: Rules, t: TerritoryId, owner: PlayerId)
    requires st.outcome == next.outcome
    ensures OtherOwnerJoins(c, st, t, owner) == OtherOwnerJoins(c, next, t, owner)
  {
    forall a ensures OutcomeOf(st, a) == OutcomeOf(next, a) {
    }
  }

  lemma NewArrivalRight(c: Context, f: CombatFacts, start: Rules, st: Rules, m: ArmyId, i: nat)
    requires Arrival(c, f, st, m, i)
    ensures SentRight(c, f, start, WithTarget(st, m, i), m, c.disperses[m].targets[i])
  {
    var t := c.disperses[m].targets[i];
    ArrivalOutcomes(c, f, st, m, i);
    OtherJoinsKept(c, st, WithTarget(st, m, i), t, OwnerOf(c, m));
    AllowedStays(c, f, st, m, i, OccupantAt(c, t).value, OwnerOf(c, m));
  }

  lemma OldArrivalRight(c: Context, f: CombatFacts, start: Rules, st: Rules, m: ArmyId, i: nat, n: ArmyId, t: TerritoryId)
    requires Arrival(c, f, st, m, i) && SentRight(c, f, start, st, n, t)
    requires ArrivesFrom(c, WithTarget(st, m, i), n, t) ==> ArrivesFrom(c, st, n, t)
    ensures SentRight(c, f, start, WithTarget(st, m, i), n, t)
  {
    ArrivalOutcomes(c, f, st, m, i);
    OtherJoinsKept(c, st, WithTarget(st, m, i), t, OwnerOf(c, n));
    if OccupantAt(c, t).Some? && LateAllowed(c, st, OccupantAt(c, t).value, OwnerOf(c, n)) {
      AllowedStays(c, f, st, m, i, OccupantAt(c, t).value, OwnerOf(c, n));
    }
  }

  lemma ArrivalRight(c: Context, f: CombatFacts, start: Rules, st: Rules, m: ArmyId, i: nat, n: ArmyId, t: TerritoryId)
    requires Arrival(c, f, st, m, i) && AllSound(c, st.dispersed) && SentRight(c, f, start, st, n, t)
    ensures SentRight(c, f, start, WithTarget(st, m, i), n, t)
  {
    if t == c.disperses[m].targets[i] && n == m {
      NewArrivalRight(c, f, start, st, m, i);
    } else {
      if t == c.disperses[m].targets[i] {
        if ArrivesFrom(c, WithTarget(st, m, i), n, t) { ArrivalOnlyClaimant(c, f, st, m, i, n); }
      } else {
        assert IsSound(c, m, st.dispersed[m]);
        ArrivalElsewhere(c, st, m, i, n, t);
      }
      OldArrivalRight(c, f, start, st, m, i, n, t);
    }
  }

  /** What the late arrivals keep, start being the state the joins left. */
  ghost predicate Kept(c: Context, f: CombatFacts, start: Rules, st: Rules)
  {
    && AllSound(c, st.dispersed) && OneOwnerEach(c, st)
    && st.outcome == start.outcome && st.joined == start.joined && st.dispersed.Keys == start.dispersed.Keys
    && (forall m, t :: SentRight(c, f, start, st, m, t))
    && forall o :: VacatesSource(c, start, o) ==> VacatesSource(c, st, o)
  }

  lemma ArrivalKept(c: Context, f: CombatFacts, start: Rules, st: Rules, m: ArmyId, i: nat)
    requires Kept(c, f, start, st) && Arrival(c, f, st, m, i)
    ensures Kept(c, f, start, WithTarget(st, m, i))
  {
    ArrivalSound(c, f, st, m, i);
    ArrivalOneOwner(c, f, st, m, i);
    ArrivalOutcomes(c, f, st, m, i);
    forall n, t ensures SentRight(c, f, start, WithTarget(st, m, i), n, t) {
      ArrivalRight(c, f, start, st, m, i, n, t);
    }
    forall o | VacatesSource(c, start, o) ensures VacatesSource(c, WithTarget(st, m, i), o) {
      VacatedStays(c, f, st, m, i, o);
    }
  }

  // ---------- induction over late arrivals

  /** A property every late arrival keeps. */
  ghost predicate Preserved(c: Context, f: CombatFacts, inv: Rules -> bool)
  {
    forall st, m, i :: inv(st) && Arrival(c, f, st, m, i) ==> inv(WithTarget(st, m, i))
  }

  lemma {:induction false} ArriveLatePreserves(c: Context, f: CombatFacts, inv: Rules -> bool, st: Rules, m: ArmyId, i: nat)
    requires Preserved(c, f, inv) && inv(st)
    ensures inv(ArriveLate(c, f, st, m, i))
    decreases if m in c.disperses then |c.disperses[m].targets| - i else 0
  {
    if m in c.disperses && m in st.dispersed && i < |c.disperses[m].targets| {
      if CanArriveLate(c, f, st, m, i) {
        assert Arrival(c, f, st, m, i);
        AfterTry(c, f, st, m, i, WithTarget(st, m, i));
        ArriveLatePreserves(c, f, inv, WithTarget(st, m, i), m, i + 1);
      } else {
        AfterTry(c, f, st, m, i, st);
        ArriveLatePreserves(c, f, inv, st, m, i + 1);
      }
    }
  }

  lemma {:induction false} LateSweepPreserves(c: Context, f: CombatFacts, inv: Rules -> bool, st: Rules, order: seq<ArmyId>)
    requires Preserved(c, f, inv) && inv(st)
    ensures inv(LateSweep(c, f, st, order))
    decreases |order|
  {
    if order != [] {
      ArriveLatePreserves(c, f, inv, st, order[0], 0);
      LateSweepPreserves(c, f, inv, LateStep(c, f, st, order[0]), order[1..]);
    }
  }

  /** What every late arrival keeps holds when none is left to make. */
  lemma {:induction false} VacatedPreserves(c: Context, f: CombatFacts, inv: Rules -> bool, st: Rules)
    requires Preserved(c, f, inv) && inv(st)
    ensures inv(AfterVacated(c, f, st))
    decreases Unresolved(st)
  {
    LateSweepPreserves(c, f, inv, st, Sorted(st.dispersed.Keys));
    VacatedUnfolds(c, f, st);
    if Swept(c, f, st) != st {
      VacatedPreserves(c, f, inv, Swept(c, f, st));
    }
  }

  lemma KeptPreserved(c: Context, f: CombatFacts, start: Rules)
    ensures Preserved(c, f, st => Kept(c, f, start, st))
  {
    forall st, m, i | Kept(c, f, start, st) && Arrival(c, f, st, m, i) ensures Kept(c, f, start, WithTarget(st, m, i)) {
      ArrivalKept(c, f, start, st, m, i);
    }
  }

  function AfterAllJoins(c: Context, f: CombatFacts): Rules
  {
    AfterJoins(c, f, AfterDispersions(c, f))
  }

  /** The state of the rules before the final outcomes are recorded. */
  function BeforeFinal(c: Context, f: CombatFacts): Rules
  {
    AfterVacated(c, f, AfterAllJoins(c, f))
  }

  lemma BeforeFinalKept(c: Context, f: CombatFacts)
    ensures Kept(c, f, AfterAllJoins(c, f), BeforeFinal(c, f))
  {
    FirstSound(c, f);
    FirstOneOwner(c, f);
    var first := AfterDispersions(c, f);
    JoinsKeepDispersions(c, f, first);
    SameArrivals(c, first, AfterJoins(c, f, first));
    KeptPreserved(c, f, AfterAllJoins(c, f));
    VacatedPreserves(c, f, st => Kept(c, f, AfterAllJoins(c, f), st), AfterAllJoins(c, f));
  }

  // ---------- final outcomes

  lemma DispersionOutcome(c: Context, f: CombatFacts, m: ArmyId)
    requires OneOrderEach(c) && m in AfterDispersions(c, f).dispersed
    ensures OutcomeOf(AfterAllJoins(c, f), m) == Success || OutcomeOf(AfterAllJoins(c, f), m) == Failure
    ensures m in BeforeFinal(c, f).outcome
  {
    var st := AfterDispersions(c, f);
    JoinsKeepOutcome(c, f, st, m);
    BeforeFinalKept(c, f);
  }

  lemma JoinsKeepOutcome(c: Context, f: CombatFacts, st: Rules, a: ArmyId)
    requires a !in c.joins || OutcomeOf(st, a) != Pending
    ensures SameAt(st, AfterJoins(c, f, st), a)
  {
    PassKeeps(c, f, Conflict, st, JoinTargets(c), a);
    PassKeeps(c, f, AttackTarget, AfterConflict(c, f, st), JoinTargets(c), a);
    PassKeeps(c, f, Convergence, AfterAttacks(c, f, st), JoinTargets(c), a);
    SettleKeepsOutcome(c, f, Filtered(c, f, st), a);
    PassKeeps(c, f, Settle(true), StuckJoins(c, f, st), JoinTargets(c), a);
  }

  lemma {:induction false} SettleKeepsOutcome(c: Context, f: CombatFacts, st: Rules, a: ArmyId)
    requires a !in c.joins || OutcomeOf(st, a) != Pending
    ensures SameAt(st, SettleJoins(c, f, st), a)
    decreases PendingJoins(c, st)
  {
    var next := JoinPass(c, f, Settle(false), st, JoinTargets(c));
    PassKeeps(c, f, Settle(false), st, JoinTargets(c), a);
    JoinPassProgress(c, f, Settle(false), st, JoinTargets(c));
    if next != st { SettleKeepsOutcome(c, f, next, a); }
  }

  /** finalizeDispersions invalidates nothing: it only tells complete dispersions from partial ones. */
  lemma FinalizeKeeps(c: Context, f: CombatFacts, m: ArmyId)
    requires OneOrderEach(c) && m in BeforeFinal(c, f).dispersed
    ensures m in RunRules(c, f).dispersed && RunRules(c, f).dispersed[m] == BeforeFinal(c, f).dispersed[m]
    ensures OutcomeOf(RunRules(c, f), m) == DispersalOutcome(BeforeFinal(c, f).dispersed[m].resolved)
  {
    BeforeFinalKept(c, f);
    JoinsKeepDispersions(c, f, AfterDispersions(c, f));
    DispersionOutcome(c, f, m);
    assert IsSound(c, m, BeforeFinal(c, f).dispersed[m]);
  }

  lemma FinalKeepsDispersions(c: Context, f: CombatFacts)
    requires OneOrderEach(c)
    ensures RunRules(c, f).dispersed == BeforeFinal(c, f).dispersed
  {
    forall m | m in BeforeFinal(c, f).dispersed ensures RunRules(c, f).dispersed[m] == BeforeFinal(c, f).dispersed[m] {
      FinalizeKeeps(c, f, m);
    }
    FinalKeys(c, BeforeFinal(c, f));
    SameDispersed(RunRules(c, f).dispersed, BeforeFinal(c, f).dispersed);
  }

  lemma FinalKeys(c: Context, st: Rules)
    ensures FinalRules(c, st).dispersed.Keys == st.dispersed.Keys
  {
  }

  lemma SameDispersed(x: map<ArmyId, Dispersal>, y: map<ArmyId, Dispersal>)
    requires x.Keys == y.Keys && forall m :: m in y ==> x[m] == y[m]
    ensures x == y
  {
  }

  /** Every dispersion carried out sends at most the troops its army has, and the rest stay. */
  lemma NeverOverspent(c: Context, f: CombatFacts, m: ArmyId)
    requires OneOrderEach(c) && m in RunRules(c, f).dispersed
    ensures var d := RunRules(c, f).dispersed[m];
            && CountTrue(d.resolved) <= SizeOf(c, m) && d.remaining == SizeOf(c, m) - CountTrue(d.resolved)
            && !d.invalid && m in c.disperses && |d.resolved| == |c.disperses[m].targets|
  {
    BeforeFinalKept(c, f);
    FinalKeepsDispersions(c, f);
    assert IsSound(c, m, BeforeFinal(c, f).dispersed[m]);
  }

  /** Two dispersions carried out onto one territory from elsewhere are of one player. */
  lemma OneOwnerArrives(c: Context, f: CombatFacts, m: ArmyId, n: ArmyId, t: TerritoryId)
    requires OneOrderEach(c) && ArrivesFrom(c, RunRules(c, f), m, t) && ArrivesFrom(c, RunRules(c, f), n, t)
    ensures OwnerOf(c, m) == OwnerOf(c, n)
  {
    BeforeFinalKept(c, f);
    FinalKeepsDispersions(c, f);
    assert ArrivesFrom(c, BeforeFinal(c, f), m, t) && ArrivesFrom(c, BeforeFinal(c, f), n, t);
  }
}
