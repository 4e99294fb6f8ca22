/**
 The join and dispersion rules read combat only about the territories their
 orders touch and the armies that give them: two sets of facts that agree there
 give the same run.
 */
module FactReads {
  import opened Wrappers
  import opened SortedIds
  import opened Turn
  import opened Facts
  import opened Peaceful
  import opened Groups

  ghost predicate AgreeAt(c: Context, f: CombatFacts, g: CombatFacts, t: TerritoryId)
  {
    && Attacked(c, f, t) == Attacked(c, g, t)
    && (Attacked(c, f, t) ==>
          WinnerAt(c, f, t) == WinnerAt(c, g, t) && DefenderLeaves(c, f, t) == DefenderLeaves(c, g, t))
    && (forall o :: OccupantAt(c, t) == Some(o) ==>
          AttackMoves(c, f, o) == AttackMoves(c, g, o) && IsDislodged(c, f, o) == IsDislodged(c, g, o))
  }

  ghost predicate Agree(c: Context, f: CombatFacts, g: CombatFacts)
  {
    && (forall a :: IsPeaceful(c, a) ==> IsDislodged(c, f, a) == IsDislodged(c, g, a))
    && (forall t :: t in AllTouched(c) ==> AgreeAt(c, f, g, t))
  }

  lemma TouchedByOrder(c: Context, a: ArmyId, t: TerritoryId)
    requires IsPeaceful(c, a) && t in Touched(c, a)
    ensures t in AllTouched(c)
  {
  }

  lemma SameCandidate(c: Context, f: CombatFacts, g: CombatFacts, m: ArmyId, t: TerritoryId)
    requires Agree(c, f, g) && m in c.disperses && m !in c.joins && t in c.disperses[m].targets
    ensures IsCandidate(c, f, m, t) == IsCandidate(c, g, m, t)
  {
    TouchedByOrder(c, m, t);
    assert AgreeAt(c, f, g, t);
  }

  ghost predicate OneOrderEach(c: Context)
  {
    c.joins.Keys !! c.disperses.Keys
  }

  lemma SameResolution(c: Context, f: CombatFacts, g: CombatFacts, invalid: set<ArmyId>, m: ArmyId)
    requires Agree(c, f, g) && OneOrderEach(c) && m in c.disperses
    ensures Resolution(c, f, invalid, m) == Resolution(c, g, invalid, m)
  {
    var targets := c.disperses[m].targets;
    forall i | 0 <= i < |targets|
      ensures MayResolve(c, f, invalid, m, targets[i]) == MayResolve(c, g, invalid, m, targets[i])
    {
      var t := targets[i];
      SameCandidate(c, f, g, m, t);
      forall n | n in c.disperses && t in c.disperses[n].targets
        ensures IsCandidate(c, f, n, t) == IsCandidate(c, g, n, t)
      {
        SameCandidate(c, f, g, n, t);
      }
      assert Claimants(c, f, invalid, t) == Claimants(c, g, invalid, t);
    }
    assert seq(|targets|, i requires 0 <= i < |targets| => MayResolve(c, f, invalid, m, targets[i]))
        == seq(|targets|, i requires 0 <= i < |targets| => MayResolve(c, g, invalid, m, targets[i]));
  }

  lemma {:induction false} SameRefused(c: Context, f: CombatFacts, g: CombatFacts, invalid: set<ArmyId>)
    requires Agree(c, f, g) && OneOrderEach(c)
    ensures RefusedFrom(c, f, invalid) == RefusedFrom(c, g, invalid)
    decreases c.disperses.Keys - invalid
  {
    forall m | m in c.disperses ensures Resolution(c, f, invalid, m) == Resolution(c, g, invalid, m) {
      SameResolution(c, f, g, invalid, m);
    }
    var more := NewlyRefused(c, f, invalid);
    assert more == NewlyRefused(c, g, invalid);
    if more != {} {
      assert c.disperses.Keys - (invalid + more) < c.disperses.Keys - invalid by {
        var m :| m in more;
        assert m in c.disperses.Keys - invalid && m !in c.disperses.Keys - (invalid + more);
      }
      SameRefused(c, f, g, invalid + more);
    }
  }

  lemma SameOutcomes(c: Context, f: CombatFacts, g: CombatFacts, invalid: set<ArmyId>, dispersed: map<ArmyId, Dispersal>)
    requires Agree(c, f, g)
    ensures DispersionOutcomes(c, f, invalid, dispersed) == DispersionOutcomes(c, g, invalid, dispersed)
  {
  }

  lemma SameDispersions(c: Context, f: CombatFacts, g: CombatFacts)
    requires Agree(c, f, g) && OneOrderEach(c)
    ensures AfterDispersions(c, f) == AfterDispersions(c, g)
  {
    SameRefused(c, f, g, {});
    var invalid := RefusedFrom(c, f, {});
    forall m | m in c.disperses ensures Resolution(c, f, invalid, m) == Resolution(c, g, invalid, m) {
      SameResolution(c, f, g, invalid, m);
    }
    forall m ensures IsActive(c, f, invalid, m) == IsActive(c, g, invalid, m) {
    }
    var dispersed := Dispersed(c, f, invalid);
    assert dispersed == Dispersed(c, g, invalid);
    SameOutcomes(c, f, g, invalid, dispersed);
  }

  lemma SameVerdict(c: Context, f: CombatFacts, g: CombatFacts, pass: Pass, st: Rules, t: TerritoryId)
    requires Agree(c, f, g) && t in AllTouched(c)
    ensures JoinVerdict(c, f, pass, st, t) == JoinVerdict(c, g, pass, st, t)
  {
    assert AgreeAt(c, f, g, t);
    assert StationaryHost(c, f, st, t) == StationaryHost(c, g, st, t);
  }

  lemma {:induction false} SameJoinPass(c: Context, f: CombatFacts, g: CombatFacts, pass: Pass, st: Rules, targets: seq<TerritoryId>)
    requires Agree(c, f, g) && forall t :: t in targets ==> t in AllTouched(c)
    ensures JoinPass(c, f, pass, st, targets) == JoinPass(c, g, pass, st, targets)
    decreases |targets|
  {
    if targets != [] {
      SameVerdict(c, f, g, pass, st, targets[0]);
      SameJoinPass(c, f, g, pass, JoinStep(c, f, pass, st, targets[0]), targets[1..]);
    }
  }

  lemma JoinTargetsTouched(c: Context)
    ensures forall t :: t in JoinTargets(c) ==> t in AllTouched(c)
  {
    forall t | t in JoinTargets(c) ensures t in AllTouched(c) {
      var a :| a in c.joins && c.joins[a].target == t;
      TouchedByOrder(c, a, t);
    }
  }

  lemma {:induction false} SameSettled(c: Context, f: CombatFacts, g: CombatFacts, st: Rules)
    requires Agree(c, f, g)
    ensures SettleJoins(c, f, st) == SettleJoins(c, g, st)
    decreases PendingJoins(c, st)
  {
    JoinTargetsTouched(c);
    var next := JoinPass(c, f, Settle(false), st, JoinTargets(c));
    SameJoinPass(c, f, g, Settle(false), st, JoinTargets(c));
    JoinPassProgress(c, f, Settle(false), st, JoinTargets(c));
    if next != st {
      SameSettled(c, f, g, next);
    }
  }

  lemma SameJoins(c: Context, f: CombatFacts, g: CombatFacts, st: Rules)
    requires Agree(c, f, g)
    ensures AfterJoins(c, f, st) == AfterJoins(c, g, st)
  {
    JoinTargetsTouched(c);
    var targets := JoinTargets(c);
    SameJoinPass(c, f, g, Conflict, st, targets);
    var s1 := JoinPass(c, f, Conflict, st, targets);
    SameJoinPass(c, f, g, AttackTarget, s1, targets);
    var s2 := JoinPass(c, f, AttackTarget, s1, targets);
    SameJoinPass(c, f, g, Convergence, s2, targets);
    var s3 := JoinPass(c, f, Convergence, s2, targets);
    SameSettled(c, f, g, s3);
    SameJoinPass(c, f, g, Settle(true), SettleJoins(c, f, s3), targets);
  }

  lemma {:induction false} SameArriveLate(c: Context, f: CombatFacts, g: CombatFacts, st: Rules, m: ArmyId, i: nat)
    requires Agree(c, f, g) && OneOrderEach(c)
    ensures ArriveLate(c, f, st, m, i) == ArriveLate(c, g, st, m, i)
    decreases if m in c.disperses then |c.disperses[m].targets| - i else 0
  {
    if m in c.disperses && m in st.dispersed && i < |c.disperses[m].targets| {
      var t := c.disperses[m].targets[i];
      TouchedByOrder(c, m, t);
      assert AgreeAt(c, f, g, t);
      assert CanArriveLate(c, f, st, m, i) == CanArriveLate(c, g, st, m, i);
      if CanArriveLate(c, f, st, m, i) {
        var d := st.dispersed[m];
        var d' := d.(resolved := d.resolved[i := true], remaining := d.remaining - 1);
        SameArriveLate(c, f, g, st.(dispersed := st.dispersed[m := d']), m, i + 1);
      } else {
        SameArriveLate(c, f, g, st, m, i + 1);
      }
    }
  }

  lemma {:induction false} SameLateSweep(c: Context, f: CombatFacts, g: CombatFacts, st: Rules, order: seq<ArmyId>)
    requires Agree(c, f, g) && OneOrderEach(c)
    ensures LateSweep(c, f, st, order) == LateSweep(c, g, st, order)
    decreases |order|
  {
    if order != [] {
      var m := order[0];
      SameArriveLate(c, f, g, st, m, 0);
      var next := if m in st.dispersed && !st.dispersed[m].invalid then ArriveLate(c, f, st, m, 0) else st;
      SameLateSweep(c, f, g, next, order[1..]);
    }
  }

  lemma {:induction false} SameVacated(c: Context, f: CombatFacts, g: CombatFacts, st: Rules)
    requires Agree(c, f, g) && OneOrderEach(c)
    ensures AfterVacated(c, f, st) == AfterVacated(c, g, st)
    decreases Unresolved(st)
  {
    var next := LateSweep(c, f, st, Sorted(st.dispersed.Keys));
    SameLateSweep(c, f, g, st, Sorted(st.dispersed.Keys));
    LateSweepProgress(c, f, st, Sorted(st.dispersed.Keys));
    if next != st {
      SameVacated(c, f, g, next);
    }
  }

  /** Facts that agree on what a context's peaceful orders touch give the same run. */
  lemma SameRun(c: Context, f: CombatFacts, g: CombatFacts)
    requires Agree(c, f, g) && OneOrderEach(c)
    ensures RunRules(c, f) == RunRules(c, g)
  {
    SameDispersions(c, f, g);
    var s1 := AfterDispersions(c, f);
    SameJoins(c, f, g, s1);
    SameVacated(c, f, g, AfterJoins(c, f, s1));
  }
}
