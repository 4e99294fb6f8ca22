/**
 Recording the combat of a settled turn with the engine's loops: the winner of
 each territory is the last of its attacks that moves, allied attacks are called
 off, and the combats nobody contests any more are dropped.
 */
module ContestRecords {
  import opened Wrappers
  import opened SortedIds
  import opened Turn
  import opened Facts
  import opened Combat
  import opened Components
  import opened SettledTurn
  import opened Contests

  class ContestRecord {
    const c: Context
    const v: View
    var attacks: set<ArmyId>
    var results: map<TerritoryId, ArmyId>
    var retreating: set<ArmyId>
    var dislodged: set<ArmyId>
    var vacated: set<ArmyId>
    var succeeded: set<ArmyId>

    constructor (c: Context, v: View)
      ensures this.c == c && this.v == v && attacks == c.attacks.Keys && results == map[]
      ensures retreating == dislodged == vacated == succeeded == {}
    {
      this.c, this.v := c, v;
      attacks, results := c.attacks.Keys, map[];
      retreating, dislodged, vacated, succeeded := {}, {}, {}, {};
    }

    // ---------- contestResults

    /** The attack that enters t, if one does: the last that moves and is not a ghost. */
    method FindWinner(t: TerritoryId) returns (winner: Option<ArmyId>)
      ensures winner.None? <==> Movers(c, v, t) == {}
      ensures winner.Some? ==> winner.value in Movers(c, v, t) && forall b :: b in Movers(c, v, t) ==> b <= winner.value
    {
      var order := Sorted(Attackers(c, t));
      winner := None;
      var i := 0;
      while i < |order|
        invariant i <= |order|
        invariant winner.None? ==> forall j :: 0 <= j < i ==> order[j] !in Movers(c, v, t)
        invariant winner.Some? ==> winner.value in Movers(c, v, t) && forall j :: 0 <= j < i && order[j] in Movers(c, v, t) ==> order[j] <= winner.value
        invariant winner.Some? ==> exists j :: 0 <= j < i && order[j] == winner.value
      {
        assert order[i] in order;
        if !RetiredGhost(c, v, order[i]) && Moves(c, v, order[i]) {
          forall j | 0 <= j < i ensures order[j] <= order[i] { ListedBefore(order, i, j); }
          winner := Some(order[i]);
        }
        i := i + 1;
      }
      forall b | b in Movers(c, v, t) ensures b in order {
      }
    }

    /** The last mover is the only one. */
    lemma OnlyMover(t: TerritoryId, w: ArmyId)
      requires SettledTurnOf(c, v) && w in Movers(c, v, t)
      ensures w == Least(Movers(c, v, t))
    {
      var first := Least(Movers(c, v, t));
      OneWinner(c, v, t, w, first);
    }

    ghost function Contested(): set<TerritoryId>
    {
      set b | b in c.attacks :: c.attacks[b].target
    }

    /** The combat on t is recorded if it was seen and has a winner. */
    ghost predicate RecordedAt(kept: map<TerritoryId, ArmyId>, seen: set<TerritoryId>, t: TerritoryId)
    {
      && (t in kept <==> t in seen && Movers(c, v, t) != {})
      && (t in kept && Movers(c, v, t) != {} ==> kept[t] == Least(Movers(c, v, t)))
    }

    /** The army is driven out if its territory was seen and an attack entered it. */
    ghost predicate DrivenAt(driven: set<ArmyId>, seen: set<TerritoryId>, d: ArmyId)
    {
      d in driven <==> d in c.armies && c.armies[d].territory in seen && Stays(c, v, d) && Movers(c, v, c.armies[d].territory) != {}
    }

    /** The combats of the territories seen, and the armies they drive out. */
    ghost predicate Recording(seen: set<TerritoryId>)
      reads this
    {
      (forall t :: RecordedAt(results, seen, t)) && forall d :: DrivenAt(retreating, seen, d)
    }

    method RecordResult(t: TerritoryId, ghost seen: set<TerritoryId>)
      requires SettledTurnOf(c, v) && Recording(seen) && t !in seen
      modifies this`results, this`retreating
      ensures Recording(seen + {t})
    {
      ghost var kept, driven := results, retreating;
      var winner := FindWinner(t);
      if winner.Some? {
        OnlyMover(t, winner.value);
        results := results[t := winner.value];
        if t in c.armyAt && Stays(c, v, c.armyAt[t]) {
          retreating := retreating + {c.armyAt[t]};
        }
      }
      forall u ensures RecordedAt(results, seen + {t}, u) {
        assert RecordedAt(kept, seen, u);
      }
      forall d ensures DrivenAt(retreating, seen + {t}, d) {
        DrivenNext(driven, seen, t, d);
      }
    }

    lemma DrivenNext(driven: set<ArmyId>, seen: set<TerritoryId>, t: TerritoryId, d: ArmyId)
      requires WellFormed(c) && DrivenAt(driven, seen, d) && t !in seen
      ensures DrivenAt(if Movers(c, v, t) != {} && t in c.armyAt && Stays(c, v, c.armyAt[t]) then driven + {c.armyAt[t]} else driven, seen + {t}, d)
    {
    }

    method RecordResults()
      requires SettledTurnOf(c, v) && results == map[] && retreating == {}
      modifies this`results, this`retreating
      ensures Recording(Contested())
    {
      var order := Sorted(set b | b in c.attacks :: c.attacks[b].target);
      VisitedAll(Contested());
      var i := 0;
      while i < |order|
        invariant i <= |order| && Recording(Visited(order, i))
      {
        VisitNext(order, i);
        RecordResult(order[i], Visited(order, i));
        i := i + 1;
      }
    }

    // ---------- settledContest

    ghost predicate ReadAt(out: set<ArmyId>, left: set<ArmyId>, seen: set<ArmyId>, a: ArmyId)
    {
      && (a in out <==> a in seen && a in c.armies && Holds(v, Dislodged(a)))
      && (a in left <==> a in seen && ((a in c.attacks && Moves(c, v, a)) || (IsPeaceful(c, a) && Departs(c, v, a))))
    }

    ghost function Ordered(): set<ArmyId>
    {
      c.armies.Keys + c.attacks.Keys + c.joins.Keys + c.disperses.Keys
    }

    /** The decisions, army by army. */
    ghost predicate DecisionsRead()
      reads this
    {
      forall a :: ReadAt(dislodged, vacated, Ordered(), a)
    }

    method ReadDecisions()
      requires dislodged == vacated == {}
      modifies this`dislodged, this`vacated
      ensures DecisionsRead()
    {
      VisitedAll(Ordered());
      ReadEach(Sorted(c.armies.Keys + c.attacks.Keys + c.joins.Keys + c.disperses.Keys));
    }

    method ReadEach(order: seq<ArmyId>)
      requires Ascending(order) && (forall a :: a in order ==> a in Ordered()) && dislodged == vacated == {}
      modifies this`dislodged, this`vacated
      ensures forall a :: ReadAt(dislodged, vacated, Visited(order, |order|), a)
    {
      var i := 0;
      while i < |order|
        invariant i <= |order| && forall a :: ReadAt(dislodged, vacated, Visited(order, i), a)
      {
        VisitNext(order, i);
        ReadDecision(order[i], Visited(order, i));
        i := i + 1;
      }
    }

    method ReadDecision(a: ArmyId, ghost seen: set<ArmyId>)
      requires a in Ordered() && a !in seen && forall x :: ReadAt(dislodged, vacated, seen, x)
      modifies this`dislodged, this`vacated
      ensures forall x :: ReadAt(dislodged, vacated, seen + {a}, x)
    {
      ghost var out, left := dislodged, vacated;
      if a in c.armies && Holds(v, Dislodged(a)) { dislodged := dislodged + {a}; }
      if Moves(c, v, a) || Departs(c, v, a) { vacated := vacated + {a}; }
      forall x ensures ReadAt(dislodged, vacated, seen + {a}, x) {
        assert ReadAt(out, left, seen, x);
      }
    }

    lemma DecisionOf(a: ArmyId)
      requires DecisionsRead() && a in c.armies
      ensures a in dislodged <==> Holds(v, Dislodged(a))
      ensures !(a in c.attacks && IsPeaceful(c, a)) ==> (a in vacated <==> !Stays(c, v, a))
    {
      assert ReadAt(dislodged, vacated, Ordered(), a);
    }

    // ---------- removeAlliedDestinationAttacks

    /** The attack is on an ally that has neither left nor been dislodged. */
    method IsCalledOff(b: ArmyId) returns (off: bool)
      requires WellFormed(c) && DecisionsRead() && b in c.attacks
      ensures off == CalledOff(c, v, b)
    {
      var target := OccupantAt(c, c.attacks[b].target);
      if target.None? { return false; }
      var d := target.value;
      DecisionOf(d);
      DecisionOf(b);
      off := d !in vacated && d !in dislodged && OwnerOf(c, d) == OwnerOf(c, b) && b !in dislodged;
    }

    ghost predicate RemovedAt(kept: set<ArmyId>, removed: set<TerritoryId>, seen: set<ArmyId>, b: ArmyId)
    {
      && (b in kept <==> b in c.attacks && !(b in seen && CalledOff(c, v, b)))
      && (b in c.attacks && b in seen && CalledOff(c, v, b) ==> c.attacks[b].target in removed)
    }

    ghost predicate Removing(seen: set<ArmyId>, removed: set<TerritoryId>)
      reads this
    {
      forall b :: RemovedAt(attacks, removed, seen, b)
    }

    /** Calls off the attacks on allies that stay, then forgets the combats left without an attack. */
    method RemoveAlliedDestinationAttacks()
      requires WellFormed(c) && DecisionsRead() && attacks == c.attacks.Keys && results.Keys <= Contested()
      modifies this`attacks, this`results
      ensures attacks == StandingAttacks(c, v)
      ensures results == map t | t in old(results) && t in (set b | b in StandingAttacks(c, v) :: c.attacks[b].target) :: old(results)[t]
    {
      VisitedAll(c.attacks.Keys);
      var removed := RemoveEach(Sorted(c.attacks.Keys));
      AllRemoved(removed);
      ForgetUncontested(removed);
    }

    method RemoveEach(order: seq<ArmyId>) returns (removed: set<TerritoryId>)
      requires WellFormed(c) && DecisionsRead() && attacks == c.attacks.Keys
      requires Ascending(order) && forall b :: b in order ==> b in c.attacks
      modifies this`attacks
      ensures Removing(Visited(order, |order|), removed)
    {
      removed := {};
      var i := 0;
      while i < |order|
        invariant i <= |order| && Removing(Visited(order, i), removed)
      {
        VisitNext(order, i);
        removed := RemoveIfAllied(order[i], removed, Visited(order, i));
        i := i + 1;
      }
    }

    lemma AllRemoved(removed: set<TerritoryId>)
      requires Removing(c.attacks.Keys, removed)
      ensures attacks == StandingAttacks(c, v)
      ensures forall b :: b in c.attacks && CalledOff(c, v, b) ==> c.attacks[b].target in removed
    {
      forall b ensures b in attacks <==> b in StandingAttacks(c, v) {
        assert RemovedAt(attacks, removed, c.attacks.Keys, b);
      }
      forall b | b in c.attacks && CalledOff(c, v, b) ensures c.attacks[b].target in removed {
        assert RemovedAt(attacks, removed, c.attacks.Keys, b);
      }
    }

    method RemoveIfAllied(b: ArmyId, removed: set<TerritoryId>, ghost seen: set<ArmyId>) returns (more: set<TerritoryId>)
      requires WellFormed(c) && DecisionsRead() && b in c.attacks && b !in seen && Removing(seen, removed)
      modifies this`attacks
      ensures Removing(seen + {b}, more)
    {
      ghost var before := attacks;
      more := removed;
      var off := IsCalledOff(b);
      if off {
        attacks := attacks - {b};
        more := removed + {c.attacks[b].target};
      }
      forall x ensures RemovedAt(attacks, more, seen + {b}, x) {
        assert RemovedAt(before, removed, seen, x);
      }
    }

    method ForgetUncontested(removed: set<TerritoryId>)
      requires attacks == StandingAttacks(c, v) && results.Keys <= Contested()
      requires forall b :: b in c.attacks && CalledOff(c, v, b) ==> c.attacks[b].target in removed
      modifies this`results
      ensures results == map t | t in old(results) && t in (set b | b in StandingAttacks(c, v) :: c.attacks[b].target) :: old(results)[t]
    {
      var targets := set b | b in attacks && b in c.attacks :: c.attacks[b].target;
      forall t | t in results && t !in targets ensures t in removed {
        var b :| b in c.attacks && c.attacks[b].target == t;
        assert b !in attacks;
      }
      results := map t | t in results && !(t in removed && t !in targets) :: results[t];
    }

    // ---------- applyContestOutcomes

    ghost predicate SucceededAt(won: set<ArmyId>, seen: set<ArmyId>, b: ArmyId)
      reads this`attacks, this`dislodged, this`results
    {
      b in won <==> b in seen && b in attacks && b in c.attacks && b !in dislodged
                    && c.attacks[b].target in results && results[c.attacks[b].target] == b
    }

    method ApplyOutcomes()
      requires attacks <= c.attacks.Keys && succeeded == {}
      modifies this`succeeded
      ensures forall b :: SucceededAt(succeeded, attacks, b)
    {
      var order := Sorted(attacks);
      VisitedAll(attacks);
      var i := 0;
      while i < |order|
        invariant i <= |order| && forall b :: SucceededAt(succeeded, Visited(order, i), b)
      {
        VisitNext(order, i);
        ApplyOutcome(order[i], Visited(order, i));
        i := i + 1;
      }
    }

    method ApplyOutcome(b: ArmyId, ghost seen: set<ArmyId>)
      requires b in attacks && b in c.attacks && b !in seen && forall x :: SucceededAt(succeeded, seen, x)
      modifies this`succeeded
      ensures forall x :: SucceededAt(succeeded, seen + {b}, x)
    {
      ghost var before := succeeded;
      var t := c.attacks[b].target;
      if b !in dislodged && t in results && results[t] == b {
        succeeded := succeeded + {b};
      }
      forall x ensures SucceededAt(succeeded, seen + {b}, x) {
        assert SucceededAt(before, seen, x);
      }
    }

    function Result(): Contest
      reads this
    {
      Contest(attacks, succeeded, dislodged, retreating, vacated, results)
    }

    /** The combat of the turn, recorded; a turn without attacks records nothing. */
    method ResolveContests()
      requires SettledTurnOf(c, v) && attacks == c.attacks.Keys && results == map[]
      requires retreating == dislodged == vacated == succeeded == {}
      modifies this
      ensures Result() == ContestOf(c, v)
    {
      if c.attacks == map[] { return; }
      RecordResults();
      ReadDecisions();
      ghost var recorded := results;
      RecordedContested();
      RemoveAlliedDestinationAttacks();
      KeptResults(recorded);
      ApplyOutcomes();
      RecordIs();
    }

    lemma RecordedContested()
      requires Recording(Contested())
      ensures results.Keys <= Contested()
    {
      forall t | t in results ensures t in Contested() {
        assert RecordedAt(results, Contested(), t);
      }
    }

    lemma KeptResults(recorded: map<TerritoryId, ArmyId>)
      requires forall t :: RecordedAt(recorded, Contested(), t)
      requires results == map t | t in recorded && t in (set b | b in StandingAttacks(c, v) :: c.attacks[b].target) :: recorded[t]
      ensures results == RecordedWinners(c, v)
    {
      var winners := RecordedWinners(c, v);
      forall t ensures (t in results <==> t in winners) && (t in results ==> results[t] == winners[t]) {
        assert RecordedAt(recorded, Contested(), t);
        StandingContested(t);
      }
    }

    lemma StandingContested(t: TerritoryId)
      ensures t in (set b | b in StandingAttacks(c, v) :: c.attacks[b].target) ==> t in Contested()
    {
    }

    /** The lists of the record, army by army. */
    lemma SameRetreating(d: ArmyId)
      requires c.attacks != map[] && DrivenAt(retreating, Contested(), d)
      ensures d in retreating <==> d in ContestOf(c, v).retreating
    {
      if d in c.armies && Movers(c, v, c.armies[d].territory) != {} {
        var b :| b in Movers(c, v, c.armies[d].territory);
        assert c.attacks[b].target in Contested();
      }
    }

    lemma SameLists(a: ArmyId)
      requires c.attacks != map[] && DecisionsRead()
      ensures a in dislodged <==> a in ContestOf(c, v).dislodged
      ensures a in vacated <==> a in ContestOf(c, v).vacated
    {
      assert ReadAt(dislodged, vacated, Ordered(), a);
    }

    lemma SameSuccess(b: ArmyId)
      requires c.attacks != map[] && DecisionsRead() && SucceededAt(succeeded, attacks, b)
      requires attacks == StandingAttacks(c, v) && results == RecordedWinners(c, v) && WellFormed(c)
      ensures b in succeeded <==> b in ContestOf(c, v).won
    {
      assert ReadAt(dislodged, vacated, Ordered(), b);
    }

    lemma RecordIs()
      requires WellFormed(c) && c.attacks != map[] && attacks == StandingAttacks(c, v) && results == RecordedWinners(c, v)
      requires DecisionsRead() && (forall d :: DrivenAt(retreating, Contested(), d)) && forall b :: SucceededAt(succeeded, attacks, b)
      ensures Result() == ContestOf(c, v)
    {
      forall a
        ensures a in retreating <==> a in ContestOf(c, v).retreating
        ensures a in dislodged <==> a in ContestOf(c, v).dislodged
        ensures a in vacated <==> a in ContestOf(c, v).vacated
        ensures a in succeeded <==> a in ContestOf(c, v).won
      {
        SameRetreating(a);
        SameLists(a);
        SameSuccess(a);
      }
    }
  }
}
