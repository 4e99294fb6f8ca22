/**
 The join and dispersion rules of one group never read the orders of another:
 running them on a closed part of the turn gives the outcomes of running them
 on the whole turn.
 */
module Locality {
  import opened Wrappers
  import opened SortedIds
  import opened Turn
  import opened Facts
  import opened Peaceful
  import opened Groups
  import opened FactReads

  /** The orders lying in s. */
  ghost function Inside(c: Context, s: set<TerritoryId>): set<ArmyId>
  {
    Restricted(c, s).joins.Keys + Restricted(c, s).disperses.Keys
  }

  /** A part of the turn no order crosses. */
  ghost predicate IsPart(c: Context, s: set<TerritoryId>)
  {
    IsClosed(c, s) && WellFormed(c)
  }

  lemma InsideTouched(c: Context, s: set<TerritoryId>, a: ArmyId, t: TerritoryId)
    requires IsPart(c, s) && IsPeaceful(c, a) && t in Touched(c, a)
    ensures a in Inside(c, s) <==> t in s
  {
    var source := if a in c.joins then c.joins[a].source else c.disperses[a].source;
    assert source in Touched(c, a);
    if source in s { assert Touched(c, a) <= s; }
    if t in s { assert Touched(c, a) <= s; }
  }

  /** The army standing on a territory of the part gives an order inside it, or none. */
  lemma OccupantInside(c: Context, s: set<TerritoryId>, t: TerritoryId, o: ArmyId)
    requires IsPart(c, s) && OccupantAt(c, t) == Some(o) && t in s
    ensures o in c.joins <==> o in Restricted(c, s).joins
    ensures o in c.disperses <==> o in Restricted(c, s).disperses
  {
  }

  lemma TargetInside(c: Context, s: set<TerritoryId>, m: ArmyId, t: TerritoryId)
    requires IsPart(c, s) && m in c.disperses && t in c.disperses[m].targets
    ensures m in Restricted(c, s).disperses <==> t in s
  {
    assert m !in c.joins;
    InsideTouched(c, s, m, t);
  }

  lemma JoinInside(c: Context, s: set<TerritoryId>, a: ArmyId)
    requires IsPart(c, s) && a in c.joins
    ensures a in Restricted(c, s).joins <==> c.joins[a].target in s
  {
    InsideTouched(c, s, a, c.joins[a].target);
  }

  // ---------- dispersions

  lemma CandidateInside(c: Context, s: set<TerritoryId>, f: CombatFacts, m: ArmyId, t: TerritoryId)
    requires IsPart(c, s) && m in Restricted(c, s).disperses && t in c.disperses[m].targets
    ensures IsCandidate(c, f, m, t) == IsCandidate(Restricted(c, s), f, m, t)
  {
    var sc := Restricted(c, s);
    TargetInside(c, s, m, t);
    SameFacts(c, s, f, t);
    if OccupantAt(c, t).Some? { OccupantInside(c, s, t, OccupantAt(c, t).value); }
  }

  /** Facts do not depend on the peaceful orders considered. */
  lemma SameFacts(c: Context, s: set<TerritoryId>, f: CombatFacts, t: TerritoryId)
    ensures Attacked(c, f, t) == Attacked(Restricted(c, s), f, t)
    ensures WinnerAt(c, f, t) == WinnerAt(Restricted(c, s), f, t)
    ensures DefenderLeaves(c, f, t) == DefenderLeaves(Restricted(c, s), f, t)
    ensures forall a :: AttackMoves(c, f, a) == AttackMoves(Restricted(c, s), f, a)
    ensures forall a :: IsDislodged(c, f, a) == IsDislodged(Restricted(c, s), f, a)
  {
    var sc := Restricted(c, s);
    assert Attackers(c, t) == Attackers(sc, t);
    forall a ensures Gone(c, f, a) == Gone(sc, f, a) && AttackMoves(c, f, a) == AttackMoves(sc, f, a) {
    }
    forall b ensures CountsAgainst(c, f, t, b) == CountsAgainst(sc, f, t, b) {
    }
    if f.DecisionFacts? {
      assert (set a | a in Attackers(c, t) && Moves(c, f.view, a)) == (set a | a in Attackers(sc, t) && Moves(sc, f.view, a));
    }
  }

  lemma ActiveInside(c: Context, s: set<TerritoryId>, f: CombatFacts, invalid: set<ArmyId>, m: ArmyId)
    requires IsPart(c, s) && m in Restricted(c, s).disperses
    ensures IsActive(c, f, invalid, m) == IsActive(Restricted(c, s), f, invalid * Inside(c, s), m)
  {
    SameFacts(c, s, f, 0);
  }

  lemma ClaimantsInside(c: Context, s: set<TerritoryId>, f: CombatFacts, invalid: set<ArmyId>, t: TerritoryId)
    requires IsPart(c, s) && t in s
    ensures Claimants(c, f, invalid, t) == Claimants(Restricted(c, s), f, invalid * Inside(c, s), t)
  {
    var sc := Restricted(c, s);
    forall m ensures m in Claimants(c, f, invalid, t) <==> m in Claimants(sc, f, invalid * Inside(c, s), t) {
      if m in c.disperses && t in c.disperses[m].targets {
        TargetInside(c, s, m, t);
        CandidateInside(c, s, f, m, t);
        ActiveInside(c, s, f, invalid, m);
      }
    }
  }

  lemma ResolutionInside(c: Context, s: set<TerritoryId>, f: CombatFacts, invalid: set<ArmyId>, m: ArmyId)
    requires IsPart(c, s) && m in Restricted(c, s).disperses
    ensures Resolution(c, f, invalid, m) == Resolution(Restricted(c, s), f, invalid * Inside(c, s), m)
  {
    var sc, inv := Restricted(c, s), invalid * Inside(c, s);
    var targets := c.disperses[m].targets;
    forall i | 0 <= i < |targets| ensures MayResolve(c, f, invalid, m, targets[i]) == MayResolve(sc, f, inv, m, targets[i]) {
      CandidateInside(c, s, f, m, targets[i]);
      TargetInside(c, s, m, targets[i]);
      ClaimantsInside(c, s, f, invalid, targets[i]);
    }
    assert seq(|targets|, i requires 0 <= i < |targets| => MayResolve(c, f, invalid, m, targets[i]))
        == seq(|targets|, i requires 0 <= i < |targets| => MayResolve(sc, f, inv, m, targets[i]));
  }

  lemma RefusedInside(c: Context, s: set<TerritoryId>, f: CombatFacts, invalid: set<ArmyId>)
    requires IsPart(c, s)
    ensures NewlyRefused(c, f, invalid) * Inside(c, s) == NewlyRefused(Restricted(c, s), f, invalid * Inside(c, s))
  {
    var sc, inv := Restricted(c, s), invalid * Inside(c, s);
    forall m | m in sc.disperses
      ensures m in NewlyRefused(c, f, invalid) <==> m in NewlyRefused(sc, f, inv)
    {
      ActiveInside(c, s, f, invalid, m);
      ResolutionInside(c, s, f, invalid, m);
      RefusalInside(c, s, m, Resolution(c, f, invalid, m));
    }
  }

  lemma RefusalInside(c: Context, s: set<TerritoryId>, m: ArmyId, resolved: seq<bool>)
    requires m in Restricted(c, s).disperses
    ensures IsRefused(c, m, resolved) == IsRefused(Restricted(c, s), m, resolved)
  {
  }

  lemma {:induction false} AllRefusedInside(c: Context, s: set<TerritoryId>, f: CombatFacts, invalid: set<ArmyId>)
    requires IsPart(c, s)
    ensures RefusedFrom(c, f, invalid) * Inside(c, s) == RefusedFrom(Restricted(c, s), f, invalid * Inside(c, s))
    decreases c.disperses.Keys - invalid
  {
    var more := NewlyRefused(c, f, invalid);
    RefusedInside(c, s, f, invalid);
    if more != {} {
      assert c.disperses.Keys - (invalid + more) < c.disperses.Keys - invalid by {
        var m :| m in more;
        assert m in c.disperses.Keys - invalid && m !in c.disperses.Keys - (invalid + more);
      }
      AllRefusedInside(c, s, f, invalid + more);
      assert (invalid + more) * Inside(c, s) == invalid * Inside(c, s) + more * Inside(c, s);
      if more * Inside(c, s) == {} {
        assert (invalid + more) * Inside(c, s) == invalid * Inside(c, s);
      }
    }
  }

  // ---------- the rules' state inside the part

  /** Results are recorded for orders of their kind. */
  ghost predicate Records(c: Context, st: Rules)
  {
    st.joined.Keys <= c.joins.Keys && st.dispersed.Keys <= c.disperses.Keys
  }

  ghost function Cut(st: Rules, inside: set<ArmyId>): Rules
  {
    Rules(map a | a in st.outcome && a in inside :: st.outcome[a],
          map a | a in st.joined && a in inside :: st.joined[a],
          map m | m in st.dispersed && m in inside :: st.dispersed[m])
  }

  lemma MemberInside(c: Context, s: set<TerritoryId>, a: ArmyId)
    requires IsPart(c, s)
    ensures a in c.disperses ==> (a in Inside(c, s) <==> a in Restricted(c, s).disperses)
    ensures a in c.joins ==> (a in Inside(c, s) <==> a in Restricted(c, s).joins)
    ensures a in Inside(c, s) ==> IsPeaceful(c, a)
  {
  }

  lemma DispersedInside(c: Context, s: set<TerritoryId>, f: CombatFacts, invalid: set<ArmyId>, m: ArmyId)
    requires IsPart(c, s)
    ensures m in Dispersed(Restricted(c, s), f, invalid * Inside(c, s)) <==> m in Dispersed(c, f, invalid) && m in Inside(c, s)
    ensures m in Dispersed(c, f, invalid) && m in Inside(c, s) ==>
              Dispersed(Restricted(c, s), f, invalid * Inside(c, s))[m] == Dispersed(c, f, invalid)[m]
  {
    MemberInside(c, s, m);
    if m in Restricted(c, s).disperses {
      ActiveInside(c, s, f, invalid, m);
      ResolutionInside(c, s, f, invalid, m);
    }
  }

  lemma OutcomeInside(c: Context, s: set<TerritoryId>, f: CombatFacts, invalid: set<ArmyId>, a: ArmyId)
    requires IsPart(c, s) && a in Inside(c, s)
    ensures DispersionOutcomes(c, f, invalid, Dispersed(c, f, invalid))[a]
         == DispersionOutcomes(Restricted(c, s), f, invalid * Inside(c, s), Dispersed(Restricted(c, s), f, invalid * Inside(c, s)))[a]
  {
    DispersedInside(c, s, f, invalid, a);
    SameDislodgedInside(c, s, f, a);
    MemberInside(c, s, a);
  }

  lemma SameDislodgedInside(c: Context, s: set<TerritoryId>, f: CombatFacts, a: ArmyId)
    ensures IsDislodged(c, f, a) == IsDislodged(Restricted(c, s), f, a)
  {
  }

  /** What a cut keeps, order by order. */
  ghost predicate CutAt(st: Rules, inside: set<ArmyId>, part: Rules, a: ArmyId)
  {
    && (a in part.outcome <==> a in st.outcome && a in inside)
    && (a in part.outcome ==> part.outcome[a] == st.outcome[a])
    && (a in part.joined <==> a in st.joined && a in inside)
    && (a in part.joined ==> part.joined[a] == st.joined[a])
    && (a in part.dispersed <==> a in st.dispersed && a in inside)
    && (a in part.dispersed ==> part.dispersed[a] == st.dispersed[a])
  }

  lemma CutPointwise(st: Rules, inside: set<ArmyId>, part: Rules)
    requires forall a :: CutAt(st, inside, part, a)
    ensures Cut(st, inside) == part
  {
    var cut := Cut(st, inside);
    forall a
      ensures a in cut.outcome <==> a in part.outcome
      ensures a in part.outcome ==> cut.outcome[a] == part.outcome[a]
      ensures a in cut.joined <==> a in part.joined
      ensures a in part.joined ==> cut.joined[a] == part.joined[a]
      ensures a in cut.dispersed <==> a in part.dispersed
      ensures a in part.dispersed ==> cut.dispersed[a] == part.dispersed[a]
    {
      assert CutAt(st, inside, part, a);
    }
    assert cut.outcome == part.outcome;
    assert cut.joined == part.joined;
    assert cut.dispersed == part.dispersed;
  }

  lemma DispersionsAt(c: Context, s: set<TerritoryId>, f: CombatFacts, invalid: set<ArmyId>, a: ArmyId)
    requires IsPart(c, s)
    ensures var d, e := Dispersed(c, f, invalid), Dispersed(Restricted(c, s), f, invalid * Inside(c, s));
            CutAt(Rules(DispersionOutcomes(c, f, invalid, d), map[], d), Inside(c, s),
                  Rules(DispersionOutcomes(Restricted(c, s), f, invalid * Inside(c, s), e), map[], e), a)
  {
    MemberInside(c, s, a);
    DispersedInside(c, s, f, invalid, a);
    if a in Inside(c, s) { OutcomeInside(c, s, f, invalid, a); }
  }

  lemma DispersionsInside(c: Context, s: set<TerritoryId>, f: CombatFacts)
    requires IsPart(c, s)
    ensures Cut(AfterDispersions(c, f), Inside(c, s)) == AfterDispersions(Restricted(c, s), f)
  {
    AllRefusedInside(c, s, f, {});
    assert {} * Inside(c, s) == {};
    var invalid := RefusedFrom(c, f, {});
    var st, part := AfterDispersions(c, f), AfterDispersions(Restricted(c, s), f);
    forall a ensures CutAt(st, Inside(c, s), part, a) {
      DispersionsAt(c, s, f, invalid, a);
    }
    CutPointwise(st, Inside(c, s), part);
  }

  // ---------- joins

  lemma PendingInside(c: Context, s: set<TerritoryId>, st: Rules, t: TerritoryId)
    requires IsPart(c, s) && t in s
    ensures PendingMembers(c, st, t) == PendingMembers(Restricted(c, s), Cut(st, Inside(c, s)), t)
  {
    forall a | a in c.joins && c.joins[a].target == t ensures a in Restricted(c, s).joins {
      JoinInside(c, s, a);
    }
  }

  lemma PendingOutside(c: Context, s: set<TerritoryId>, st: Rules, t: TerritoryId)
    requires IsPart(c, s) && t !in s
    ensures PendingMembers(c, st, t) !! Inside(c, s)
  {
    forall a | a in PendingMembers(c, st, t) ensures a !in Inside(c, s) {
      JoinInside(c, s, a);
      MemberInside(c, s, a);
    }
  }

  lemma VacatesInside(c: Context, s: set<TerritoryId>, st: Rules, m: ArmyId)
    requires IsPart(c, s) && m in Restricted(c, s).disperses
    ensures VacatesSource(c, st, m) == VacatesSource(Restricted(c, s), Cut(st, Inside(c, s)), m)
  {
    MemberInside(c, s, m);
    var sc, part := Restricted(c, s), Cut(st, Inside(c, s));
    assert m in st.dispersed <==> m in part.dispersed;
  }

  lemma ActivityInside(c: Context, s: set<TerritoryId>, st: Rules, t: TerritoryId)
    requires IsPart(c, s) && t in s
    ensures DisperseActivity(c, st, t) == DisperseActivity(Restricted(c, s), Cut(st, Inside(c, s)), t)
  {
    var sc, part := Restricted(c, s), Cut(st, Inside(c, s));
    forall m ensures m in DisperseActivity(c, st, t) <==> m in DisperseActivity(sc, part, t) {
      MemberInside(c, s, m);
      if m in sc.disperses {
        VacatesInside(c, s, st, m);
      } else if m in c.disperses && t in c.disperses[m].targets {
        TargetInside(c, s, m, t);
      }
    }
  }

  lemma OccupantRecords(c: Context, s: set<TerritoryId>, st: Rules, t: TerritoryId, o: ArmyId)
    requires IsPart(c, s) && OccupantAt(c, t) == Some(o) && t in s && Records(c, st)
    ensures o in st.dispersed <==> o in Cut(st, Inside(c, s)).dispersed
    ensures o in st.joined <==> o in Cut(st, Inside(c, s)).joined
    ensures IsPeaceful(c, o) ==> OutcomeOf(st, o) == OutcomeOf(Cut(st, Inside(c, s)), o)
  {
    OccupantInside(c, s, t, o);
    MemberInside(c, s, o);
  }

  lemma HostInside(c: Context, s: set<TerritoryId>, f: CombatFacts, st: Rules, t: TerritoryId)
    requires IsPart(c, s) && t in s && Records(c, st)
    ensures StationaryHost(c, f, st, t) == StationaryHost(Restricted(c, s), f, Cut(st, Inside(c, s)), t)
    ensures HasUnresolvedJoin(c, st, t) == HasUnresolvedJoin(Restricted(c, s), Cut(st, Inside(c, s)), t)
  {
    SameFacts(c, s, f, t);
    if OccupantAt(c, t).Some? {
      OccupantInside(c, s, t, OccupantAt(c, t).value);
      OccupantRecords(c, s, st, t, OccupantAt(c, t).value);
    }
  }

  lemma SameShare(c: Context, sc: Context, members: set<ArmyId>)
    requires c.armies == sc.armies
    ensures ShareOwner(c, members) == ShareOwner(sc, members)
  {
    forall a ensures OwnerOf(c, a) == OwnerOf(sc, a) {
    }
  }

  lemma SameOwned(c: Context, sc: Context, st: Rules, part: Rules, t: TerritoryId, owner: PlayerId)
    requires c.armies == sc.armies && DisperseActivity(c, st, t) == DisperseActivity(sc, part, t)
    ensures ActivityOwnedBy(c, st, t, owner) == ActivityOwnedBy(sc, part, t, owner)
  {
  }

  /** What a verdict reads is the same in both contexts. */
  ghost predicate SameReads(c: Context, sc: Context, f: CombatFacts, st: Rules, part: Rules, t: TerritoryId)
  {
    && c.armies == sc.armies
    && Attacked(c, f, t) == Attacked(sc, f, t) && WinnerAt(c, f, t) == WinnerAt(sc, f, t)
    && DefenderLeaves(c, f, t) == DefenderLeaves(sc, f, t)
    && PendingMembers(c, st, t) == PendingMembers(sc, part, t)
    && DisperseActivity(c, st, t) == DisperseActivity(sc, part, t)
    && StationaryHost(c, f, st, t) == StationaryHost(sc, f, part, t)
    && HasUnresolvedJoin(c, st, t) == HasUnresolvedJoin(sc, part, t)
  }

  lemma SameSettling(c: Context, sc: Context, f: CombatFacts, st: Rules, part: Rules, t: TerritoryId, members: set<ArmyId>, final: bool)
    requires c.armies == sc.armies && members != {}
    requires DisperseActivity(c, st, t) == DisperseActivity(sc, part, t)
    requires StationaryHost(c, f, st, t) == StationaryHost(sc, f, part, t)
    requires HasUnresolvedJoin(c, st, t) == HasUnresolvedJoin(sc, part, t)
    ensures SingleJoin(c, f, st, t, Least(members), final) == SingleJoin(sc, f, part, t, Least(members), final)
    ensures PairedJoin(c, f, st, t, members, final) == PairedJoin(sc, f, part, t, members, final)
  {
    SameOwned(c, sc, st, part, t, OwnerOf(c, Least(members)));
    SamePairing(c, sc, f, st, part, t, members, final);
  }

  lemma SamePairing(c: Context, sc: Context, f: CombatFacts, st: Rules, part: Rules, t: TerritoryId, members: set<ArmyId>, final: bool)
    requires c.armies == sc.armies && members != {}
    requires DisperseActivity(c, st, t) == DisperseActivity(sc, part, t)
    requires StationaryHost(c, f, st, t) == StationaryHost(sc, f, part, t)
    requires HasUnresolvedJoin(c, st, t) == HasUnresolvedJoin(sc, part, t)
    ensures PairedJoin(c, f, st, t, members, final) == PairedJoin(sc, f, part, t, members, final)
  {
    SameShare(c, sc, members);
    forall a ensures ActivityOwnedBy(c, st, t, OwnerOf(c, a)) == ActivityOwnedBy(sc, part, t, OwnerOf(sc, a)) {
      SameOwned(c, sc, st, part, t, OwnerOf(c, a));
    }
  }

  lemma SameConflict(c: Context, sc: Context, f: CombatFacts, st: Rules, part: Rules, t: TerritoryId)
    requires SameReads(c, sc, f, st, part, t)
    ensures JoinVerdict(c, f, Conflict, st, t) == JoinVerdict(sc, f, Conflict, part, t)
  {
    forall a ensures ActivityOwnedBy(c, st, t, OwnerOf(c, a)) == ActivityOwnedBy(sc, part, t, OwnerOf(sc, a)) {
      SameOwned(c, sc, st, part, t, OwnerOf(c, a));
    }
  }

  lemma VerdictReads(c: Context, sc: Context, f: CombatFacts, pass: Pass, st: Rules, part: Rules, t: TerritoryId)
    requires SameReads(c, sc, f, st, part, t)
    ensures JoinVerdict(c, f, pass, st, t) == JoinVerdict(sc, f, pass, part, t)
  {
    var members := PendingMembers(c, st, t);
    SameShare(c, sc, members);
    match pass
    case Conflict => SameConflict(c, sc, f, st, part, t);
    case AttackTarget =>
    case Convergence =>
    case Settle(final) => if members != {} { SameSettling(c, sc, f, st, part, t, members, final); }
  }

  lemma VerdictInside(c: Context, s: set<TerritoryId>, f: CombatFacts, pass: Pass, st: Rules, t: TerritoryId)
    requires IsPart(c, s) && t in s && Records(c, st)
    ensures JoinVerdict(c, f, pass, st, t) == JoinVerdict(Restricted(c, s), f, pass, Cut(st, Inside(c, s)), t)
  {
    SameFacts(c, s, f, t);
    PendingInside(c, s, st, t);
    ActivityInside(c, s, st, t);
    HostInside(c, s, f, st, t);
    VerdictReads(c, Restricted(c, s), f, pass, st, Cut(st, Inside(c, s)), t);
  }

  lemma CutApplied(st: Rules, v: Verdict, inside: set<ArmyId>)
    ensures MembersOf(v) <= inside ==> Cut(Apply(st, v), inside) == Apply(Cut(st, inside), v)
    ensures MembersOf(v) !! inside ==> Cut(Apply(st, v), inside) == Cut(st, inside)
  {
    var next := Apply(st, v);
    if MembersOf(v) <= inside {
      CutPointwise(next, inside, Apply(Cut(st, inside), v));
    }
    if MembersOf(v) !! inside {
      CutPointwise(next, inside, Cut(st, inside));
    }
  }

  lemma JoinStepInside(c: Context, s: set<TerritoryId>, f: CombatFacts, pass: Pass, st: Rules, t: TerritoryId)
    requires IsPart(c, s) && Records(c, st)
    ensures Records(c, JoinStep(c, f, pass, st, t))
    ensures Cut(JoinStep(c, f, pass, st, t), Inside(c, s))
         == if t in s then JoinStep(Restricted(c, s), f, pass, Cut(st, Inside(c, s)), t) else Cut(st, Inside(c, s))
  {
    var v := JoinVerdict(c, f, pass, st, t);
    VerdictOnPending(c, f, pass, st, t);
    CutApplied(st, v, Inside(c, s));
    if t in s {
      VerdictInside(c, s, f, pass, st, t);
      PendingInside(c, s, st, t);
      forall a | a in MembersOf(v) ensures a in Inside(c, s) {
        assert a in PendingMembers(Restricted(c, s), Cut(st, Inside(c, s)), t);
      }
    } else {
      PendingOutside(c, s, st, t);
    }
  }

  lemma {:induction false} JoinPassInside(c: Context, s: set<TerritoryId>, f: CombatFacts, pass: Pass, st: Rules, targets: seq<TerritoryId>)
    requires IsPart(c, s) && Records(c, st)
    ensures Records(c, JoinPass(c, f, pass, st, targets))
    ensures Cut(JoinPass(c, f, pass, st, targets), Inside(c, s))
         == JoinPass(Restricted(c, s), f, pass, Cut(st, Inside(c, s)), Filter(targets, s))
    decreases |targets|
  {
    if targets != [] {
      JoinStepInside(c, s, f, pass, st, targets[0]);
      JoinPassInside(c, s, f, pass, JoinStep(c, f, pass, st, targets[0]), targets[1..]);
      if targets[0] in s {
        assert Filter(targets, s)[1..] == Filter(targets[1..], s);
      }
    }
  }

  lemma JoinTargetsInside(c: Context, s: set<TerritoryId>)
    requires IsPart(c, s)
    ensures JoinTargets(Restricted(c, s)) == Filter(JoinTargets(c), s)
  {
    var all := set a | a in c.joins :: c.joins[a].target;
    var part := set a | a in Restricted(c, s).joins :: Restricted(c, s).joins[a].target;
    forall t ensures t in part <==> t in all * s {
      if t in part {
        var a :| a in Restricted(c, s).joins && Restricted(c, s).joins[a].target == t;
        JoinInside(c, s, a);
      }
      if t in all * s {
        var a :| a in c.joins && c.joins[a].target == t;
        JoinInside(c, s, a);
      }
    }
    assert part == all * s;
    SortedOfPart(all, s);
  }

  lemma {:induction false} SettleInside(c: Context, s: set<TerritoryId>, f: CombatFacts, st: Rules)
    requires IsPart(c, s) && Records(c, st)
    ensures Records(c, SettleJoins(c, f, st))
    ensures Cut(SettleJoins(c, f, st), Inside(c, s)) == SettleJoins(Restricted(c, s), f, Cut(st, Inside(c, s)))
    decreases PendingJoins(c, st)
  {
    var next := JoinPass(c, f, Settle(false), st, JoinTargets(c));
    JoinPassInside(c, s, f, Settle(false), st, JoinTargets(c));
    JoinTargetsInside(c, s);
    JoinPassProgress(c, f, Settle(false), st, JoinTargets(c));
    if next != st {
      SettleInside(c, s, f, next);
    }
  }

  lemma JoinsInside(c: Context, s: set<TerritoryId>, f: CombatFacts, st: Rules)
    requires IsPart(c, s) && Records(c, st)
    ensures Records(c, AfterJoins(c, f, st))
    ensures Cut(AfterJoins(c, f, st), Inside(c, s)) == AfterJoins(Restricted(c, s), f, Cut(st, Inside(c, s)))
  {
    var targets := JoinTargets(c);
    JoinTargetsInside(c, s);
    JoinPassInside(c, s, f, Conflict, st, targets);
    var s1 := JoinPass(c, f, Conflict, st, targets);
    JoinPassInside(c, s, f, AttackTarget, s1, targets);
    var s2 := JoinPass(c, f, AttackTarget, s1, targets);
    JoinPassInside(c, s, f, Convergence, s2, targets);
    var s3 := JoinPass(c, f, Convergence, s2, targets);
    SettleInside(c, s, f, s3);
    JoinPassInside(c, s, f, Settle(true), SettleJoins(c, f, s3), targets);
  }

  // ---------- late arrivals

  lemma TargetClaimantsInside(c: Context, s: set<TerritoryId>, st: Rules, t: TerritoryId)
    requires IsPart(c, s) && t in s
    ensures TargetClaimants(c, st, t) == TargetClaimants(Restricted(c, s), Cut(st, Inside(c, s)), t)
  {
    forall m | m in c.disperses && t in c.disperses[m].targets ensures m in Restricted(c, s).disperses {
      TargetInside(c, s, m, t);
    }
  }

  lemma OtherJoinsInside(c: Context, s: set<TerritoryId>, st: Rules, t: TerritoryId, owner: PlayerId)
    requires IsPart(c, s) && t in s
    ensures OtherOwnerJoins(c, st, t, owner) == OtherOwnerJoins(Restricted(c, s), Cut(st, Inside(c, s)), t, owner)
  {
    var sc, part := Restricted(c, s), Cut(st, Inside(c, s));
    forall a | a in c.joins && c.joins[a].target == t ensures a in sc.joins && OutcomeOf(st, a) == OutcomeOf(part, a) {
      JoinInside(c, s, a);
    }
    forall a | a in sc.joins ensures OutcomeOf(st, a) == OutcomeOf(part, a) {
    }
  }

  lemma AllowsInside(c: Context, s: set<TerritoryId>, st: Rules, t: TerritoryId, o: ArmyId, owner: PlayerId)
    requires IsPart(c, s) && OccupantAt(c, t) == Some(o) && t in s && Records(c, st)
    ensures OccupantAllowsArrival(c, st, o, owner) == OccupantAllowsArrival(Restricted(c, s), Cut(st, Inside(c, s)), o, owner)
  {
    OccupantInside(c, s, t, o);
    OccupantRecords(c, s, st, t, o);
    MemberInside(c, s, o);
    if o in Restricted(c, s).disperses { VacatesInside(c, s, st, o); }
  }

  /** What a late arrival reads is the same in both contexts. */
  lemma CanArriveReads(c: Context, sc: Context, f: CombatFacts, st: Rules, part: Rules, m: ArmyId, i: nat)
    requires m in c.disperses && m in sc.disperses && c.disperses[m] == sc.disperses[m] && i < |c.disperses[m].targets|
    requires m in st.dispersed && m in part.dispersed && st.dispersed[m] == part.dispersed[m]
    requires OwnerOf(c, m) == OwnerOf(sc, m)
    requires
      var t := c.disperses[m].targets[i];
      && TargetClaimants(c, st, t) == TargetClaimants(sc, part, t) && Attacked(c, f, t) == Attacked(sc, f, t)
      && OtherOwnerJoins(c, st, t, OwnerOf(c, m)) == OtherOwnerJoins(sc, part, t, OwnerOf(c, m))
      && OccupantAt(c, t) == OccupantAt(sc, t)
      && (OccupantAt(c, t).Some? ==>
            OccupantAllowsArrival(c, st, OccupantAt(c, t).value, OwnerOf(c, m))
            == OccupantAllowsArrival(sc, part, OccupantAt(c, t).value, OwnerOf(c, m)))
    requires i < |st.dispersed[m].resolved| ==>
               var bits := st.dispersed[m].resolved[i := true]; IsRefused(c, m, bits) == IsRefused(sc, m, bits)
    ensures CanArriveLate(c, f, st, m, i) == CanArriveLate(sc, f, part, m, i)
  {
  }

  lemma CanArriveInside(c: Context, s: set<TerritoryId>, f: CombatFacts, st: Rules, m: ArmyId, i: nat)
    requires IsPart(c, s) && Records(c, st) && m in Restricted(c, s).disperses && m in st.dispersed && i < |c.disperses[m].targets|
    ensures m in Cut(st, Inside(c, s)).dispersed
    ensures CanArriveLate(c, f, st, m, i) == CanArriveLate(Restricted(c, s), f, Cut(st, Inside(c, s)), m, i)
  {
    var t := c.disperses[m].targets[i];
    MemberInside(c, s, m);
    TargetInside(c, s, m, t);
    SameFacts(c, s, f, t);
    TargetClaimantsInside(c, s, st, t);
    OtherJoinsInside(c, s, st, t, OwnerOf(c, m));
    if OccupantAt(c, t).Some? { AllowsInside(c, s, st, t, OccupantAt(c, t).value, OwnerOf(c, m)); }
    var d := st.dispersed[m];
    if i < |d.resolved| { RefusalInside(c, s, m, d.resolved[i := true]); }
    CanArriveReads(c, Restricted(c, s), f, st, Cut(st, Inside(c, s)), m, i);
  }

  lemma CutDispersal(st: Rules, m: ArmyId, d: Dispersal, inside: set<ArmyId>)
    ensures var next, part := st.(dispersed := st.dispersed[m := d]), Cut(st, inside);
            Cut(next, inside) == if m in inside then part.(dispersed := part.dispersed[m := d]) else part
  {
    var next, part := st.(dispersed := st.dispersed[m := d]), Cut(st, inside);
    CutPointwise(next, inside, if m in inside then part.(dispersed := part.dispersed[m := d]) else part);
  }

  /** One more target of m resolved. */
  function WithTarget(st: Rules, m: ArmyId, i: nat): Rules
    requires m in st.dispersed && i < |st.dispersed[m].resolved|
  {
    var d := st.dispersed[m];
    st.(dispersed := st.dispersed[m := d.(resolved := d.resolved[i := true], remaining := d.remaining - 1)])
  }

  /** Trying one target leaves `next` for the others. */
  ghost predicate Tries(c: Context, f: CombatFacts, st: Rules, m: ArmyId, i: nat, next: Rules)
  {
    && m in c.disperses && m in st.dispersed && m in next.dispersed && i < |c.disperses[m].targets|
    && if CanArriveLate(c, f, st, m, i) then next == WithTarget(st, m, i) else next == st
  }

  lemma AfterTry(c: Context, f: CombatFacts, st: Rules, m: ArmyId, i: nat, next: Rules)
    requires Tries(c, f, st, m, i, next)
    ensures ArriveLate(c, f, st, m, i) == ArriveLate(c, f, next, m, i + 1)
  {
  }

  lemma TryInside(c: Context, s: set<TerritoryId>, f: CombatFacts, st: Rules, m: ArmyId, i: nat) returns (next: Rules)
    requires IsPart(c, s) && Records(c, st) && m in Restricted(c, s).disperses && m in st.dispersed && i < |c.disperses[m].targets|
    ensures Records(c, next) && Tries(c, f, st, m, i, next)
    ensures Tries(Restricted(c, s), f, Cut(st, Inside(c, s)), m, i, Cut(next, Inside(c, s)))
  {
    CanArriveInside(c, s, f, st, m, i);
    if CanArriveLate(c, f, st, m, i) {
      next := WithTarget(st, m, i);
      TargetCut(c, s, st, m, i);
      Tried(c, f, st, m, i);
      Tried(Restricted(c, s), f, Cut(st, Inside(c, s)), m, i);
    } else {
      next := st;
    }
  }

  lemma Tried(c: Context, f: CombatFacts, st: Rules, m: ArmyId, i: nat)
    requires m in c.disperses && m in st.dispersed && i < |c.disperses[m].targets| && CanArriveLate(c, f, st, m, i)
    ensures i < |st.dispersed[m].resolved| && Tries(c, f, st, m, i, WithTarget(st, m, i))
  {
  }

  /** Resolving a target commutes with the cut. */
  lemma TargetCut(c: Context, s: set<TerritoryId>, st: Rules, m: ArmyId, i: nat)
    requires IsPart(c, s) && m in Restricted(c, s).disperses && m in st.dispersed && i < |st.dispersed[m].resolved|
    ensures m in Cut(st, Inside(c, s)).dispersed && i < |Cut(st, Inside(c, s)).dispersed[m].resolved|
    ensures Cut(WithTarget(st, m, i), Inside(c, s)) == WithTarget(Cut(st, Inside(c, s)), m, i)
  {
    MemberInside(c, s, m);
    CutDispersal(st, m, WithTarget(st, m, i).dispersed[m], Inside(c, s));
  }

  /** ArriveLate on both sides, kept apart from what it unfolds to. */
  ghost predicate SameLate(c: Context, sc: Context, f: CombatFacts, st: Rules, part: Rules, inside: set<ArmyId>, m: ArmyId, i: nat)
  {
    Records(c, ArriveLate(c, f, st, m, i)) && Cut(ArriveLate(c, f, st, m, i), inside) == ArriveLate(sc, f, part, m, i)
  }

  lemma SameLateStep(c: Context, sc: Context, f: CombatFacts, st: Rules, part: Rules, inside: set<ArmyId>, m: ArmyId, i: nat,
                     next: Rules, nextPart: Rules)
    requires Tries(c, f, st, m, i, next) && Tries(sc, f, part, m, i, nextPart)
    requires SameLate(c, sc, f, next, nextPart, inside, m, i + 1)
    ensures SameLate(c, sc, f, st, part, inside, m, i)
  {
    AfterTry(c, f, st, m, i, next);
    AfterTry(sc, f, part, m, i, nextPart);
  }

  lemma {:induction false} ArriveLateInside(c: Context, s: set<TerritoryId>, f: CombatFacts, st: Rules, m: ArmyId, i: nat)
    requires IsPart(c, s) && Records(c, st) && m in Restricted(c, s).disperses && m in st.dispersed
    ensures SameLate(c, Restricted(c, s), f, st, Cut(st, Inside(c, s)), Inside(c, s), m, i)
    decreases |c.disperses[m].targets| - i
  {
    if i < |c.disperses[m].targets| {
      var next := TryInside(c, s, f, st, m, i);
      ArriveLateInside(c, s, f, next, m, i + 1);
      SameLateStep(c, Restricted(c, s), f, st, Cut(st, Inside(c, s)), Inside(c, s), m, i, next, Cut(next, Inside(c, s)));
    }
  }

  lemma {:induction false} ArriveLateOutside(c: Context, inside: set<ArmyId>, f: CombatFacts, st: Rules, m: ArmyId, i: nat)
    requires Records(c, st) && m !in inside
    ensures Records(c, ArriveLate(c, f, st, m, i))
    ensures Cut(ArriveLate(c, f, st, m, i), inside) == Cut(st, inside)
    decreases if m in c.disperses then |c.disperses[m].targets| - i else 0
  {
    if m in c.disperses && m in st.dispersed && i < |c.disperses[m].targets| {
      if CanArriveLate(c, f, st, m, i) {
        var d := st.dispersed[m];
        var d' := d.(resolved := d.resolved[i := true], remaining := d.remaining - 1);
        CutDispersal(st, m, d', inside);
        ArriveLateOutside(c, inside, f, st.(dispersed := st.dispersed[m := d']), m, i + 1);
      } else {
        ArriveLateOutside(c, inside, f, st, m, i + 1);
      }
    }
  }

  function LateStep(c: Context, f: CombatFacts, st: Rules, m: ArmyId): Rules
  {
    if m in st.dispersed && !st.dispersed[m].invalid then ArriveLate(c, f, st, m, 0) else st
  }

  lemma LateStepInside(c: Context, s: set<TerritoryId>, f: CombatFacts, st: Rules, m: ArmyId)
    requires IsPart(c, s) && Records(c, st)
    ensures Records(c, LateStep(c, f, st, m))
    ensures Cut(LateStep(c, f, st, m), Inside(c, s))
         == if m in Inside(c, s) then LateStep(Restricted(c, s), f, Cut(st, Inside(c, s)), m) else Cut(st, Inside(c, s))
  {
    MemberInside(c, s, m);
    if m in Restricted(c, s).disperses {
      if m in st.dispersed { ArriveLateInside(c, s, f, st, m, 0); }
    } else if m !in Inside(c, s) {
      ArriveLateOutside(c, Inside(c, s), f, st, m, 0);
    }
  }

  lemma {:induction false} LateSweepInside(c: Context, s: set<TerritoryId>, f: CombatFacts, st: Rules, order: seq<ArmyId>)
    requires IsPart(c, s) && Records(c, st)
    ensures Records(c, LateSweep(c, f, st, order))
    ensures Cut(LateSweep(c, f, st, order), Inside(c, s))
         == LateSweep(Restricted(c, s), f, Cut(st, Inside(c, s)), Filter(order, Inside(c, s)))
    decreases |order|
  {
    if order != [] {
      var m := order[0];
      LateStepInside(c, s, f, st, m);
      LateSweepInside(c, s, f, LateStep(c, f, st, m), order[1..]);
      if m in Inside(c, s) {
        assert Filter(order, Inside(c, s))[1..] == Filter(order[1..], Inside(c, s));
      }
    }
  }

  /** One sweep over every dispersion. */
  function Swept(c: Context, f: CombatFacts, st: Rules): Rules
  {
    LateSweep(c, f, st, Sorted(st.dispersed.Keys))
  }

  lemma SweptInside(c: Context, s: set<TerritoryId>, f: CombatFacts, st: Rules)
    requires IsPart(c, s) && Records(c, st)
    ensures Records(c, Swept(c, f, st))
    ensures Cut(Swept(c, f, st), Inside(c, s)) == Swept(Restricted(c, s), f, Cut(st, Inside(c, s)))
  {
    LateSweepInside(c, s, f, st, Sorted(st.dispersed.Keys));
    CutKeys(st, Inside(c, s));
  }

  lemma CutKeys(st: Rules, inside: set<ArmyId>)
    ensures Sorted(Cut(st, inside).dispersed.Keys) == Filter(Sorted(st.dispersed.Keys), inside)
  {
    SortedOfPart(st.dispersed.Keys, inside);
    assert Cut(st, inside).dispersed.Keys == st.dispersed.Keys * inside;
  }

  lemma VacatedUnfolds(c: Context, f: CombatFacts, st: Rules)
    ensures AfterVacated(c, f, st) == if Swept(c, f, st) == st then st else AfterVacated(c, f, Swept(c, f, st))
    ensures Swept(c, f, st) == st || Unresolved(Swept(c, f, st)) < Unresolved(st)
  {
    LateSweepProgress(c, f, st, Sorted(st.dispersed.Keys));
  }

  lemma {:induction false} VacatedInside(c: Context, s: set<TerritoryId>, f: CombatFacts, st: Rules)
    requires IsPart(c, s) && Records(c, st)
    ensures Records(c, AfterVacated(c, f, st))
    ensures Cut(AfterVacated(c, f, st), Inside(c, s)) == AfterVacated(Restricted(c, s), f, Cut(st, Inside(c, s)))
    decreases Unresolved(st)
  {
    SweptInside(c, s, f, st);
    VacatedUnfolds(c, f, st);
    VacatedUnfolds(Restricted(c, s), f, Cut(st, Inside(c, s)));
    if Swept(c, f, st) != st {
      VacatedInside(c, s, f, Swept(c, f, st));
    }
  }

  lemma FinalInside(c: Context, s: set<TerritoryId>, st: Rules)
    requires IsPart(c, s) && Records(c, st)
    ensures Cut(FinalRules(c, st), Inside(c, s)) == FinalRules(Restricted(c, s), Cut(st, Inside(c, s)))
  {
    var sc, part := Restricted(c, s), Cut(st, Inside(c, s));
    var final, finalPart := FinalRules(c, st), FinalRules(sc, part);
    forall a ensures CutAt(final, Inside(c, s), finalPart, a) {
      MemberInside(c, s, a);
      if a in sc.disperses && a in st.dispersed {
        FinalizedInside(c, s, st, a);
      }
    }
    CutPointwise(final, Inside(c, s), finalPart);
  }

  lemma FinalizedInside(c: Context, s: set<TerritoryId>, st: Rules, m: ArmyId)
    requires m in Restricted(c, s).disperses && m in st.dispersed
    ensures m in Inside(c, s) && m in Cut(st, Inside(c, s)).dispersed
    ensures Finalized(c, st, m) == Finalized(Restricted(c, s), Cut(st, Inside(c, s)), m)
  {
    RefusalInside(c, s, m, st.dispersed[m].resolved);
  }

  /** The rules run on a part of the turn give what the whole run gives there. */
  lemma RunInside(c: Context, s: set<TerritoryId>, f: CombatFacts)
    requires IsPart(c, s)
    ensures RunRules(Restricted(c, s), f) == Cut(RunRules(c, f), Inside(c, s))
  {
    DispersionsInside(c, s, f);
    var s1 := AfterDispersions(c, f);
    JoinsInside(c, s, f, s1);
    var s2 := AfterJoins(c, f, s1);
    VacatedInside(c, s, f, s2);
    FinalInside(c, s, AfterVacated(c, f, s2));
  }
}
