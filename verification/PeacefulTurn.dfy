/**
 The join and dispersion rules as the engine runs them: loops that update the
 outcomes of orders, the join results and the dispersion results in place,
 proved to end in the state RunRules describes. What the rules ask of combat they
 ask through FactQueries, so no decision without a value is ever read.
 */
module PeacefulTurns {
  import opened Wrappers
  import opened SortedIds
  import opened Turn
  import opened Facts
  import opened Peaceful
  import opened Groups
  import opened FactReads
  import opened FactQueries
  import opened Locality
  import opened DispersionRules

  class PeacefulTurn {
    const c: Context
    const f: CombatFacts
    var outcome: map<ArmyId, Outcome>
    var joined: map<ArmyId, JoinResult>
    var dispersed: map<ArmyId, Dispersal>

    /** The records of dislodged armies have failed before the rules run. */
    constructor (c: Context, f: CombatFacts)
      requires Informed(c, f)
      ensures this.c == c && this.f == f && joined == map[] && dispersed == map[]
      ensures outcome == map a | a in c.joins.Keys + c.disperses.Keys :: if IsDislodged(c, f, a) then Failure else Pending
    {
      this.c, this.f := c, f;
      outcome := map a | a in c.joins.Keys + c.disperses.Keys :: if AskDislodged(c, f, a) then Failure else Pending;
      joined, dispersed := map[], map[];
    }

    /** Everything the rules ask has an answer. */
    ghost predicate Ready()
    {
      OneOrderEach(c) && Informed(c, f)
    }

    /** The places of an order are known about. */
    lemma PlacesKnown(a: ArmyId)
      requires Ready()
      ensures a in c.joins ==> KnownAt(c, f, c.joins[a].source) && KnownAt(c, f, c.joins[a].target)
      ensures a in c.disperses ==>
                KnownAt(c, f, c.disperses[a].source) && forall t :: t in c.disperses[a].targets ==> KnownAt(c, f, t)
    {
      if a in c.joins {
        TouchedByOrder(c, a, c.joins[a].source);
        TouchedByOrder(c, a, c.joins[a].target);
      }
      if a in c.disperses {
        TouchedByOrder(c, a, c.disperses[a].source);
        forall t | t in c.disperses[a].targets ensures KnownAt(c, f, t) {
          TouchedByOrder(c, a, t);
        }
      }
    }

    lemma TargetsKnown()
      requires Ready()
      ensures forall t :: t in JoinTargets(c) ==> KnownAt(c, f, t)
    {
      JoinTargetsTouched(c);
    }

    function State(): Rules
      reads this
    {
      Rules(outcome, joined, dispersed)
    }

    // ---------- resolveDispersions

    ghost function Allowed(invalid: set<ArmyId>, m: ArmyId): seq<bool>
      requires m in c.disperses
    {
      var targets := c.disperses[m].targets;
      seq(|targets|, i requires 0 <= i < |targets| => MayResolve(c, f, invalid, m, targets[i]))
    }

    /** What is allotted so far, and what is left to allot. */
    ghost predicate Allotting(allowed: seq<bool>, total: int, i: nat, available: int, resolved: seq<bool>)
    {
      i <= |allowed| && Allot(allowed, total) == resolved + Allot(allowed[i..], available)
    }

    lemma AllotStarts(allowed: seq<bool>, total: int)
      ensures Allotting(allowed, total, 0, total, [])
    {
      assert allowed[0..] == allowed;
    }

    lemma AllotNext(allowed: seq<bool>, total: int, i: nat, available: int, resolved: seq<bool>)
      requires Allotting(allowed, total, i, available, resolved) && i < |allowed|
      ensures var taken := allowed[i] && available >= 1;
              Allotting(allowed, total, i + 1, if taken then available - 1 else available, resolved + [taken])
    {
      assert allowed[i..][1..] == allowed[i + 1..];
    }

    lemma AllotEnds(allowed: seq<bool>, total: int, available: int, resolved: seq<bool>)
      requires Allotting(allowed, total, |allowed|, available, resolved)
      ensures resolved == Allot(allowed, total)
    {
      assert allowed[|allowed|..] == [];
    }

    /** The target is not contested, or by an ally that wins it, and nobody else stays there. */
    method Candidate(m: ArmyId, t: TerritoryId) returns (b: bool)
      requires m in c.disperses && KnownAt(c, f, t)
      ensures b == IsCandidate(c, f, m, t)
    {
      var owner := OwnerOf(c, m);
      if AskAttacked(c, f, t) {
        return AskAlliedArrival(c, f, t, owner);
      }
      if t == c.disperses[m].source || OccupantAt(c, t).None? {
        return true;
      }
      var o := OccupantAt(c, t).value;
      return AskMoves(c, f, o) || (OwnerOf(c, o) == owner && o !in c.joins && o !in c.disperses);
    }

    /** The dispersions that claim a target. */
    method ClaimantsOf(t: TerritoryId, invalid: set<ArmyId>) returns (claimants: set<ArmyId>)
      requires Ready() && KnownAt(c, f, t)
      ensures claimants == Claimants(c, f, invalid, t)
    {
      var order := Sorted(c.disperses.Keys);
      VisitedAll(c.disperses.Keys);
      claimants := {};
      var i := 0;
      while i < |order|
        invariant i <= |order| && claimants == Claimants(c, f, invalid, t) * Visited(order, i)
      {
        VisitNext(order, i);
        var m := order[i];
        if t in c.disperses[m].targets && t != c.disperses[m].source && m !in invalid && !AskDislodged(c, f, m) {
          var candidate := Candidate(m, t);
          if candidate {
            claimants := claimants + {m};
          }
        }
        i := i + 1;
      }
    }

    /** Whether the i-th target of m may get a troop. */
    method TargetAllowed(m: ArmyId, i: nat, invalid: set<ArmyId>) returns (b: bool)
      requires Ready() && m in c.disperses && i < |c.disperses[m].targets|
      ensures b == Allowed(invalid, m)[i]
    {
      var t := c.disperses[m].targets[i];
      PlacesKnown(m);
      b := Candidate(m, t);
      if b && t != c.disperses[m].source {
        var claimants := ClaimantsOf(t, invalid);
        b := ShareOwner(c, claimants);
      }
    }

    /** Gives the dispersion's troops to its free targets, one each, while they last. */
    method Allocate(m: ArmyId, invalid: set<ArmyId>) returns (resolved: seq<bool>)
      requires Ready() && m in c.disperses
      ensures resolved == Resolution(c, f, invalid, m)
    {
      ghost var allowed := Allowed(invalid, m);
      AllotmentIs(m, invalid);
      var total: int := SizeOf(c, m);
      var available := total;
      resolved := [];
      AllotStarts(allowed, total);
      var i := 0;
      while i < |c.disperses[m].targets|
        invariant Allotting(allowed, total, i, available, resolved)
      {
        AllotNext(allowed, total, i, available, resolved);
        var b := TargetAllowed(m, i, invalid);
        var taken := b && available >= 1;
        if taken { available := available - 1; }
        resolved := resolved + [taken];
        i := i + 1;
      }
      AllotEnds(allowed, total, available, resolved);
    }

    lemma AllotmentIs(m: ArmyId, invalid: set<ArmyId>)
      requires m in c.disperses
      ensures |Allowed(invalid, m)| == |c.disperses[m].targets| && Allot(Allowed(invalid, m), SizeOf(c, m)) == Resolution(c, f, invalid, m)
    {
    }

    /** The results of the dispersions seen. */
    ghost function ResultsOf(invalid: set<ArmyId>, seen: set<ArmyId>): map<ArmyId, Dispersal>
    {
      map m | m in Dispersed(c, f, invalid) && m in seen :: Dispersed(c, f, invalid)[m]
    }

    lemma ResultsNext(invalid: set<ArmyId>, seen: set<ArmyId>, m: ArmyId)
      requires m in c.disperses && m !in seen
      ensures ResultsOf(invalid, seen + {m})
           == if IsDislodged(c, f, m) || m in invalid then ResultsOf(invalid, seen)
              else var resolved := Resolution(c, f, invalid, m);
                   ResultsOf(invalid, seen)[m := Dispersal(resolved, Remaining(c, m, resolved), false)]
    {
    }

    lemma AllResults(invalid: set<ArmyId>)
      ensures ResultsOf(invalid, {}) == map[] && ResultsOf(invalid, c.disperses.Keys) == Dispersed(c, f, invalid)
    {
    }

    /** The dispersions still considered, each with its troops allotted. */
    method AllocateAll(invalid: set<ArmyId>) returns (results: map<ArmyId, Dispersal>)
      requires Ready()
      ensures results == Dispersed(c, f, invalid)
    {
      var order := Sorted(c.disperses.Keys);
      VisitedAll(c.disperses.Keys);
      AllResults(invalid);
      results := map[];
      var i := 0;
      while i < |order|
        invariant i <= |order| && results == ResultsOf(invalid, Visited(order, i))
      {
        var m := order[i];
        VisitNext(order, i);
        ResultsNext(invalid, Visited(order, i), m);
        if !AskDislodged(c, f, m) && m !in invalid {
          var resolved := Allocate(m, invalid);
          results := results[m := Dispersal(resolved, Remaining(c, m, resolved), false)];
        }
        i := i + 1;
      }
    }

    /** The dispersions that their allotment makes invalid. */
    method Refusals(results: map<ArmyId, Dispersal>, ghost invalid: set<ArmyId>) returns (refused: set<ArmyId>)
      requires results == Dispersed(c, f, invalid)
      ensures refused == NewlyRefused(c, f, invalid)
    {
      var order := Sorted(results.Keys);
      VisitedAll(results.Keys);
      refused := {};
      var i := 0;
      while i < |order|
        invariant i <= |order| && refused == NewlyRefused(c, f, invalid) * Visited(order, i)
      {
        VisitNext(order, i);
        if IsRefused(c, order[i], results[order[i]].resolved) {
          refused := refused + {order[i]};
        }
        i := i + 1;
      }
    }

    /** Repeats the allotment, releasing the claims of invalid dispersions, until all are valid. */
    method ResolveDispersions()
      requires Ready() && joined == map[] && dispersed == map[]
      requires outcome == map a | a in c.joins.Keys + c.disperses.Keys :: if IsDislodged(c, f, a) then Failure else Pending
      modifies this`outcome, this`dispersed
      ensures State() == AfterDispersions(c, f)
    {
      var invalid: set<ArmyId> := {};
      var results := AllocateAll(invalid);
      var refused := Refusals(results, invalid);
      while refused != {}
        invariant outcome == old(outcome) && joined == map[]
        invariant RefusedFrom(c, f, invalid) == RefusedFrom(c, f, {})
        invariant results == Dispersed(c, f, invalid) && refused == NewlyRefused(c, f, invalid)
        decreases c.disperses.Keys - invalid
      {
        FewerLeft(invalid, refused);
        invalid := invalid + refused;
        results := AllocateAll(invalid);
        refused := Refusals(results, invalid);
      }
      RecordedOutcomes(invalid, results, outcome);
      dispersed := results;
      outcome := map a | a in outcome ::
        if a in results then DispersalOutcome(results[a].resolved)
        else if outcome[a] == Failure then Failure
        else if a in invalid then Invalid else outcome[a];
    }

    lemma RecordedOutcomes(invalid: set<ArmyId>, results: map<ArmyId, Dispersal>, start: map<ArmyId, Outcome>)
      requires start == map a | a in c.joins.Keys + c.disperses.Keys :: if IsDislodged(c, f, a) then Failure else Pending
      ensures DispersionOutcomes(c, f, invalid, results) == map a | a in start ::
                if a in results then DispersalOutcome(results[a].resolved)
                else if start[a] == Failure then Failure
                else if a in invalid then Invalid else start[a]
    {
    }

    lemma FewerLeft(invalid: set<ArmyId>, refused: set<ArmyId>)
      requires refused == NewlyRefused(c, f, invalid) && refused != {}
      ensures c.disperses.Keys - (invalid + refused) < c.disperses.Keys - invalid
    {
      var m :| m in refused;
      assert m in c.disperses.Keys - invalid && m !in c.disperses.Keys - (invalid + refused);
    }

    // ---------- resolveJoins

    method Record(v: Verdict)
      modifies this`outcome, this`joined
      ensures State() == Apply(old(State()), v)
    {
      match v {
        case Wait =>
        case Refuse(members) =>
          outcome := map a | a in outcome.Keys + members :: if a in members then Failure else outcome[a];
        case Accept(members, result) =>
          outcome := map a | a in outcome.Keys + members :: if a in members then Success else outcome[a];
          joined := map a | a in joined.Keys + members :: if a in members then result else joined[a];
      }
    }

    /** The army a join fuses into, if one stays there. */
    method StationaryJoinHost(t: TerritoryId) returns (host: Option<ArmyId>)
      requires KnownAt(c, f, t)
      ensures host == StationaryHost(c, f, State(), t)
    {
      if OccupantAt(c, t).None? { return None; }
      var h := OccupantAt(c, t).value;
      if AskDislodged(c, f, h) { return None; }
      if h in c.joins && OutcomeOf(State(), h) != Failure && OutcomeOf(State(), h) != Invalid { return None; }
      if AskMoves(c, f, h) { return None; }
      return if h in dispersed then None else Some(h);
    }

    method ResolveJoinAtAttackTarget(t: TerritoryId, members: set<ArmyId>) returns (v: Verdict)
      requires KnownAt(c, f, t)
      ensures v == JoinAtAttackTarget(c, f, t, members)
    {
      if |members| == 1 && AskAlliedArrival(c, f, t, OwnerOf(c, Least(members))) {
        return Accept(members, JoinResult(AskWinner(c, f, t), false));
      }
      return Refuse(members);
    }

    method ResolveSingleJoin(t: TerritoryId, a: ArmyId, final: bool) returns (v: Verdict)
      requires KnownAt(c, f, t)
      ensures v == SingleJoin(c, f, State(), t, a, final)
    {
      var owner := OwnerOf(c, a);
      if DisperseActivity(c, State(), t) != {} && !ActivityOwnedBy(c, State(), t, owner) { return Refuse({a}); }
      if !final && HasUnresolvedJoin(c, State(), t) { return Wait; }
      var host := StationaryJoinHost(t);
      if host.Some? && OwnerOf(c, host.value) != owner { return Refuse({a}); }
      return Accept({a}, JoinResult(host, false));
    }

    method ResolveJoinPair(t: TerritoryId, members: set<ArmyId>, final: bool) returns (v: Verdict)
      requires KnownAt(c, f, t) && members != {}
      ensures v == PairedJoin(c, f, State(), t, members, final)
    {
      if DisperseActivity(c, State(), t) != {} && exists a :: a in members && !ActivityOwnedBy(c, State(), t, OwnerOf(c, a)) {
        return Refuse(members);
      }
      var host := StationaryJoinHost(t);
      if host.Some? { return Refuse(members); }
      if !final && HasUnresolvedJoin(c, State(), t) { return Wait; }
      if !ShareOwner(c, members) { return Refuse(members); }
      return Accept(members, JoinResult(Some(Least(members)), true));
    }

    /** What one pass decides at one destination. */
    method Judge(pass: Pass, t: TerritoryId) returns (v: Verdict)
      requires KnownAt(c, f, t)
      ensures v == JoinVerdict(c, f, pass, State(), t)
    {
      var members := PendingMembers(c, State(), t);
      var attacked := AskAttacked(c, f, t);
      match pass {
        case Conflict =>
          if attacked || DisperseActivity(c, State(), t) == {} { return Wait; }
          return Refuse(set a | a in members && !ActivityOwnedBy(c, State(), t, OwnerOf(c, a)));
        case AttackTarget =>
          if members == {} || !attacked { return Wait; }
          v := ResolveJoinAtAttackTarget(t, members);
        case Convergence =>
          if attacked || |members| < 2 { return Wait; }
          return if |members| > 2 || !ShareOwner(c, members) then Refuse(members) else Wait;
        case Settle(final) =>
          if attacked { return Wait; }
          if |members| == 1 {
            v := ResolveSingleJoin(t, Least(members), final);
          } else if |members| == 2 {
            v := ResolveJoinPair(t, members, final);
          } else {
            return Wait;
          }
      }
    }

    /** One pass at one destination. */
    method StepAt(pass: Pass, t: TerritoryId) returns (changed: bool)
      requires KnownAt(c, f, t)
      modifies this`outcome, this`joined
      ensures State() == JoinStep(c, f, pass, old(State()), t) && (changed <==> State() != old(State()))
    {
      var v := Judge(pass, t);
      changed := Apply(State(), v) != State();
      Record(v);
    }

    /** One pass over the destinations of joins. */
    method PassOver(pass: Pass, targets: seq<TerritoryId>) returns (progressed: bool)
      requires forall t :: t in targets ==> KnownAt(c, f, t)
      modifies this`outcome, this`joined
      ensures State() == JoinPass(c, f, pass, old(State()), targets)
      ensures progressed <==> State() != old(State())
    {
      progressed := false;
      var i := 0;
      while i < |targets|
        invariant i <= |targets|
        invariant JoinPass(c, f, pass, State(), targets[i..]) == JoinPass(c, f, pass, old(State()), targets)
        invariant State() == old(State()) || PendingJoins(c, State()) < PendingJoins(c, old(State()))
        invariant progressed <==> State() != old(State())
      {
        JoinStepProgress(c, f, pass, State(), targets[i]);
        assert targets[i..][1..] == targets[i + 1..];
        assert targets[i] in targets;
        var changed := StepAt(pass, targets[i]);
        progressed := progressed || changed;
        i := i + 1;
      }
    }

    /** The filters, then the settling rules until nothing progresses, then a last pass. */
    method ResolveJoins()
      requires Ready()
      modifies this`outcome, this`joined
      ensures State() == AfterJoins(c, f, old(State()))
    {
      var targets := JoinTargets(c);
      TargetsKnown();
      var progressed := PassOver(Conflict, targets);
      progressed := PassOver(AttackTarget, targets);
      progressed := PassOver(Convergence, targets);
      ghost var filtered := State();
      progressed := true;
      while progressed
        invariant SettleJoins(c, f, State()) == SettleJoins(c, f, filtered)
        invariant !progressed ==> State() == SettleJoins(c, f, State())
        decreases PendingJoins(c, State()), progressed
      {
        ghost var before := State();
        JoinPassProgress(c, f, Settle(false), State(), targets);
        progressed := PassOver(Settle(false), targets);
      }
      progressed := PassOver(Settle(true), targets);
    }

    // ---------- resolveVacatedDisperseDestinations

    /** Whether a target left out may be reached after all. */
    method CanResolveVacated(m: ArmyId, i: nat) returns (b: bool)
      requires Ready() && m in c.disperses && m in dispersed && i < |c.disperses[m].targets|
      ensures b == CanArriveLate(c, f, State(), m, i)
    {
      var d, t := dispersed[m], c.disperses[m].targets[i];
      PlacesKnown(m);
      if i >= |d.resolved| || d.resolved[i] || t == c.disperses[m].source || |TargetClaimants(c, State(), t)| != 1 {
        return false;
      }
      if AskAttacked(c, f, t) || OtherOwnerJoins(c, State(), t, OwnerOf(c, m)) || OccupantAt(c, t).None? {
        return false;
      }
      return OccupantAllowsArrival(c, State(), OccupantAt(c, t).value, OwnerOf(c, m)) && d.remaining >= 1
          && !IsRefused(c, m, d.resolved[i := true]);
    }

    /** The targets of one dispersion left free by joins and dispersions. */
    method ArriveOn(m: ArmyId) returns (changed: bool)
      requires Ready() && m in c.disperses && m in dispersed
      modifies this`dispersed
      ensures State() == ArriveLate(c, f, old(State()), m, 0) && (changed <==> State() != old(State()))
    {
      changed := false;
      var i := 0;
      while i < |c.disperses[m].targets|
        invariant i <= |c.disperses[m].targets| && m in dispersed && outcome == old(outcome) && joined == old(joined)
        invariant ArriveLate(c, f, State(), m, i) == ArriveLate(c, f, old(State()), m, 0)
        invariant State() == old(State()) || Unresolved(State()) < Unresolved(old(State()))
        invariant changed <==> State() != old(State())
      {
        var arrives := CanResolveVacated(m, i);
        if arrives {
          OneFewer(State(), m, i);
          AfterTry(c, f, State(), m, i, WithTarget(State(), m, i));
          var d := dispersed[m];
          dispersed := dispersed[m := d.(resolved := d.resolved[i := true], remaining := d.remaining - 1)];
          changed := true;
        } else {
          AfterTry(c, f, State(), m, i, State());
        }
        i := i + 1;
      }
    }

    lemma OneFewer(st: Rules, m: ArmyId, i: nat)
      requires m in c.disperses && m in st.dispersed && i < |c.disperses[m].targets| && CanArriveLate(c, f, st, m, i)
      ensures Unresolved(WithTarget(st, m, i)) < Unresolved(st)
    {
      assert (m, i) in Unresolved(st) && (m, i) !in Unresolved(WithTarget(st, m, i));
    }

    /** One sweep over the dispersions. */
    method Sweep() returns (changed: bool)
      requires Ready() && dispersed.Keys <= c.disperses.Keys
      modifies this`dispersed
      ensures State() == Swept(c, f, old(State())) && (changed <==> State() != old(State()))
      ensures dispersed.Keys == old(dispersed).Keys
    {
      var order := Sorted(dispersed.Keys);
      changed := false;
      var i := 0;
      while i < |order|
        invariant i <= |order| && dispersed.Keys == old(dispersed).Keys && outcome == old(outcome) && joined == old(joined)
        invariant LateSweep(c, f, State(), order[i..]) == LateSweep(c, f, old(State()), order)
        invariant State() == old(State()) || Unresolved(State()) < Unresolved(old(State()))
        invariant changed <==> State() != old(State())
      {
        var m := order[i];
        assert m in order && order[i..][1..] == order[i + 1..];
        ArriveLateProgress(c, f, State(), m, 0);
        if !dispersed[m].invalid {
          var more := ArriveOn(m);
          changed := changed || more;
        }
        i := i + 1;
      }
    }

    /** Sweeps until one resolves nothing. */
    method ResolveVacated()
      requires Ready() && dispersed.Keys <= c.disperses.Keys
      modifies this`dispersed
      ensures State() == AfterVacated(c, f, old(State())) && dispersed.Keys == old(dispersed).Keys
    {
      var changed := true;
      while changed
        invariant dispersed.Keys == old(dispersed).Keys
        invariant AfterVacated(c, f, State()) == AfterVacated(c, f, old(State()))
        invariant !changed ==> State() == AfterVacated(c, f, State())
        decreases Unresolved(State()), changed
      {
        VacatedUnfolds(c, f, State());
        changed := Sweep();
      }
    }

    // ---------- finalizeDispersions

    /** The dispersions seen are finalized. */
    ghost function FinalizedOn(st: Rules, seen: set<ArmyId>): Rules
      requires st.dispersed.Keys <= c.disperses.Keys
    {
      st.(outcome := map a | a in st.outcome :: if a in seen && a in st.dispersed then Finalized(c, st, a).0 else st.outcome[a],
          dispersed := map m | m in st.dispersed :: if m in seen then Finalized(c, st, m).1 else st.dispersed[m])
    }

    lemma FinalizeNext(st: Rules, seen: set<ArmyId>, m: ArmyId)
      requires st.dispersed.Keys <= c.disperses.Keys && m in st.dispersed && m in st.outcome && m !in seen
      ensures var next := FinalizedOn(st, seen);
              next.dispersed[m] == st.dispersed[m] && next.outcome[m] == st.outcome[m]
      ensures var next := FinalizedOn(st, seen);
              FinalizedOn(st, seen + {m})
              == next.(outcome := next.outcome[m := Finalized(c, st, m).0], dispersed := next.dispersed[m := Finalized(c, st, m).1])
    {
    }

    lemma FinalizedEnds(st: Rules)
      requires st.dispersed.Keys <= c.disperses.Keys
      ensures FinalizedOn(st, {}) == st && FinalizedOn(st, st.dispersed.Keys) == FinalRules(c, st)
    {
    }

    method FinalizeOne(m: ArmyId, ghost st: Rules, ghost seen: set<ArmyId>)
      requires st.dispersed.Keys <= c.disperses.Keys && m in st.dispersed && m in st.outcome && m !in seen
      requires State() == FinalizedOn(st, seen)
      modifies this`outcome, this`dispersed
      ensures State() == FinalizedOn(st, seen + {m})
    {
      FinalizeNext(st, seen, m);
      var d := dispersed[m];
      if !d.invalid && outcome[m] != Invalid {
        if IsRefused(c, m, d.resolved) {
          outcome := outcome[m := Invalid];
          dispersed := dispersed[m := d.(invalid := true)];
        } else {
          outcome := outcome[m := DispersalOutcome(d.resolved)];
          dispersed := dispersed[m := d.(remaining := Remaining(c, m, d.resolved))];
        }
      } else {
        assert outcome[m := outcome[m]] == outcome && dispersed[m := d] == dispersed;
      }
    }

    method Finalize()
      requires dispersed.Keys <= c.disperses.Keys && dispersed.Keys <= outcome.Keys
      modifies this`outcome, this`dispersed
      ensures State() == FinalRules(c, old(State()))
    {
      ghost var st := State();
      var order := Sorted(dispersed.Keys);
      VisitedAll(dispersed.Keys);
      FinalizedEnds(st);
      var i := 0;
      while i < |order|
        invariant i <= |order| && State() == FinalizedOn(st, Visited(order, i))
      {
        VisitNext(order, i);
        FinalizeOne(order[i], st, Visited(order, i));
        i := i + 1;
      }
    }

    /** The rules of a turn, in order. */
    method ResolvePeacefulMovements()
      requires Ready() && joined == map[] && dispersed == map[]
      requires outcome == map a | a in c.joins.Keys + c.disperses.Keys :: if IsDislodged(c, f, a) then Failure else Pending
      modifies this
      ensures State() == RunRules(c, f)
    {
      ResolveDispersions();
      ResolveJoins();
      JoinsKeepDispersions(c, f, AfterDispersions(c, f));
      ResolveVacated();
      BeforeFinalRecords();
      Finalize();
    }

    lemma BeforeFinalRecords()
      requires OneOrderEach(c)
      ensures var st := BeforeFinal(c, f); st.dispersed.Keys <= c.disperses.Keys && st.dispersed.Keys <= st.outcome.Keys
    {
      BeforeFinalKept(c, f);
      JoinsKeepDispersions(c, f, AfterDispersions(c, f));
      forall m | m in BeforeFinal(c, f).dispersed ensures m in c.disperses && m in BeforeFinal(c, f).outcome {
        DispersionOutcome(c, f, m);
      }
    }
  }
}
