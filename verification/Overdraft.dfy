/**
 A departure is meant to be an origin emptied. It is, whatever the turn, unless
 the order of a dispersion is overdrawn: it names more targets than the army has
 troops, and its troops may all leave before one is kept for the origin. This
 module says which orders are, reading nothing but the order and the army's size.
 */
module Overdrafts {
  import opened Wrappers
  import opened SortedIds
  import opened Turn
  import opened Facts
  import opened Peaceful
  import opened Combat
  import opened Greatest
  import opened Contests
  import opened Locality
  import opened FactReads
  import opened JoinRules
  import opened DispersionRules
  import opened Presences
  import opened SettledCombat
  import opened SettledTurn
  import opened Execution

  /** The execution empties the army's origin exactly when its departure was settled. */
  ghost predicate EmptiedIffDeparted(c: Context, v: View, a: ArmyId)
    requires a in c.armies
  {
    LeavesNobody(c, Recorded(c, v), RunRules(c, Recorded(c, v)), a) <==> Holds(v, Departure(a))
  }

  // ---------- overdrawn orders

  /** The first place of a territory in a list; the length of the list if it is not there. */
  function IndexOf(q: seq<TerritoryId>, t: TerritoryId): (k: nat)
    ensures k <= |q| && (k < |q| ==> q[k] == t) && forall j :: 0 <= j < k ==> q[j] != t
  {
    if q == [] then 0 else if q[0] == t then 0 else 1 + IndexOf(q[1..], t)
  }

  /** The targets some noble goes to. */
  function Escorted(d: Disperse): set<TerritoryId>
  {
    set t | t in d.assignments && d.assignments[t] != {}
  }

  predicate AllAssigned(d: Disperse)
  {
    forall n :: n in d.nobles ==> exists t :: t in d.assignments && n in d.assignments[t]
  }

  /**
   The order keeps no troop by right: it does not loop, names more targets than there
   are troops, its origin not among the first of them; and no noble would be left
   behind if all its troops went to targets named before the origin.
   */
  predicate Overdrawn(d: Disperse, size: nat)
  {
    var before := IndexOf(d.targets, d.source);
    && !d.loop && size < |d.targets| && size <= before
    && AllAssigned(d) && |Escorted(d)| <= size && forall t :: t in Escorted(d) ==> t in d.targets[..before]
  }

  /** Without nobles, only the targets matter. */
  lemma OverdrawnWithoutNobles(d: Disperse, size: nat)
    requires d.nobles == {} && Escorted(d) == {}
    ensures Overdrawn(d, size) <==> !d.loop && size < |d.targets| && d.source !in d.targets[..size]
  {
    var before := IndexOf(d.targets, d.source);
    if size < |d.targets| {
      if before < size { assert d.targets[..size][before] == d.source; }
      if d.source in d.targets[..size] {
        var k :| 0 <= k < size && d.targets[..size][k] == d.source;
        assert d.targets[k] == d.source;
      }
    }
  }

  // ---------- other orders never run out

  lemma {:induction false} AllotAll(allowed: seq<bool>, available: int)
    requires CountTrue(Allot(allowed, available)) < available
    ensures CountTrue(allowed) < available
    decreases |allowed|
  {
    if allowed != [] {
      var rest := if allowed[0] && available >= 1 then available - 1 else available;
      assert Allot(allowed, available)[1..] == Allot(allowed[1..], rest);
      AllotAll(allowed[1..], rest);
    }
  }

  lemma {:induction false} PrefixCount(bits: seq<bool>, i: nat, j: nat)
    requires i <= j <= |bits|
    ensures CountTrue(bits[..i]) <= CountTrue(bits[..j])
    decreases j
  {
    if i > 0 {
      assert bits[..i][1..] == bits[1..][..i - 1] && bits[..j][1..] == bits[1..][..j - 1];
      PrefixCount(bits[1..], i - 1, j - 1);
    }
  }

  /** The territories reached are at most as many as the troops sent. */
  lemma {:induction false} FewReached(targets: seq<TerritoryId>, bits: seq<bool>, s: set<TerritoryId>)
    requires |targets| == |bits| && forall t :: t in s ==> exists i :: 0 <= i < |targets| && targets[i] == t && bits[i]
    ensures |s| <= CountTrue(bits)
    decreases |targets|
  {
    if targets == [] {
      assert s == {};
    } else {
      var rest := if bits[0] then s - {targets[0]} else s;
      forall t | t in rest ensures exists i :: 0 <= i < |targets[1..]| && targets[1..][i] == t && bits[1..][i] {
        var i :| 0 <= i < |targets| && targets[i] == t && bits[i];
        assert i > 0 && targets[1..][i - 1] == t && bits[1..][i - 1];
      }
      FewReached(targets[1..], bits[1..], rest);
      if bits[0] && targets[0] in s {
        assert s == rest + {targets[0]};
      } else if bits[0] {
        assert s == rest;
      }
    }
  }

  /** What late arrivals keep of the first allotment of m: all of it, once its troops are spent. */
  ghost predicate Follows(first: Dispersal, m: ArmyId, st: Rules)
  {
    && m in st.dispersed && |st.dispersed[m].resolved| == |first.resolved|
    && (forall i :: 0 <= i < |first.resolved| && first.resolved[i] ==> st.dispersed[m].resolved[i])
    && (first.remaining == 0 ==> st.dispersed[m] == first)
  }

  lemma ArrivalFollows(c: Context, f: CombatFacts, first: Dispersal, m: ArmyId, st: Rules, k: ArmyId, i: nat)
    requires Follows(first, m, st) && Arrival(c, f, st, k, i)
    ensures Follows(first, m, WithTarget(st, k, i))
  {
  }

  /** In the end a dispersion has at least its first allotment, and just that if it spent all troops. */
  lemma EndFollows(c: Context, f: CombatFacts, m: ArmyId)
    requires OneOrderEach(c) && m in RunRules(c, f).dispersed
    ensures m in AfterDispersions(c, f).dispersed && Follows(AfterDispersions(c, f).dispersed[m], m, RunRules(c, f))
  {
    FinalKeepsDispersions(c, f);
    BeforeFinalKept(c, f);
    JoinsKeepDispersions(c, f, AfterDispersions(c, f));
    var first := AfterDispersions(c, f).dispersed[m];
    forall st, k, i | Follows(first, m, st) && Arrival(c, f, st, k, i) ensures Follows(first, m, WithTarget(st, k, i)) {
      ArrivalFollows(c, f, first, m, st, k, i);
    }
    var inv := (st: Rules) => Follows(first, m, st);
    assert Preserved(c, f, inv);
    assert inv(AfterAllJoins(c, f));
    VacatedPreserves(c, f, inv, AfterAllJoins(c, f));
    assert inv(BeforeFinal(c, f));
  }

  /** The targets the first allotment may resolve. */
  function Allowed(c: Context, f: CombatFacts, invalid: set<ArmyId>, m: ArmyId): (q: seq<bool>)
    requires m in c.disperses
    ensures |q| == |c.disperses[m].targets| && Resolution(c, f, invalid, m) == Allot(q, SizeOf(c, m))
    ensures forall i :: 0 <= i < |q| ==> q[i] == MayResolve(c, f, invalid, m, c.disperses[m].targets[i])
  {
    var targets := c.disperses[m].targets;
    seq(|targets|, i requires 0 <= i < |targets| => MayResolve(c, f, invalid, m, targets[i]))
  }

  /** An origin nobody attacks is allowed, so it gets a troop unless the targets before it take them all. */
  lemma OriginServed(c: Context, f: CombatFacts, invalid: set<ArmyId>, m: ArmyId)
    requires m in c.disperses && !Attacked(c, f, c.disperses[m].source)
    ensures var d := c.disperses[m]; var before, bits := IndexOf(d.targets, d.source), Resolution(c, f, invalid, m);
            before < |d.targets| && !bits[before] ==>
              && CountTrue(bits) >= SizeOf(c, m) && SizeOf(c, m) <= before
              && forall i :: before <= i < |bits| ==> !bits[i]
  {
    var d, size := c.disperses[m], SizeOf(c, m);
    var before, allowed := IndexOf(d.targets, d.source), Allowed(c, f, invalid, m);
    assert allowed[..|allowed|] == allowed;
    if before < |d.targets| && !Resolution(c, f, invalid, m)[before] {
      AllotGreedy(allowed, size, before);
      AllTrue(allowed[..before]);
      PrefixCount(allowed, before, |allowed|);
      forall i | before <= i < |allowed| ensures !Allot(allowed, size)[i] {
        PrefixCount(allowed, before, i);
        AllotGreedy(allowed, size, i);
      }
      if CountTrue(Allot(allowed, size)) < size {
        AllotAll(allowed, size);
      }
    }
  }

  /** The origin got no troop only if the targets before it took them all. */
  ghost predicate ServedInOrder(d: Disperse, size: nat, first: Dispersal)
  {
    var before := IndexOf(d.targets, d.source);
    && |first.resolved| == |d.targets| && first.remaining == size - CountTrue(first.resolved)
    && (before < |d.targets| && !first.resolved[before] ==>
          first.remaining <= 0 && size <= before && forall i :: before <= i < |d.targets| ==> !first.resolved[i])
  }

  lemma FirstServed(c: Context, f: CombatFacts, m: ArmyId)
    requires m in AfterDispersions(c, f).dispersed && m in c.disperses && !Attacked(c, f, c.disperses[m].source)
    ensures ServedInOrder(c.disperses[m], SizeOf(c, m), AfterDispersions(c, f).dispersed[m])
    ensures AfterDispersions(c, f).dispersed[m].remaining >= 0
  {
    var invalid := RefusedFrom(c, f, {});
    AllotBounded(Allowed(c, f, invalid, m), SizeOf(c, m));
    OriginServed(c, f, invalid, m);
  }

  /** Where the targets reached are, when the origin is not. */
  lemma ReachedBefore(d: Disperse, size: nat, first: Dispersal, m: ArmyId, end: Rules)
    requires ServedInOrder(d, size, first) && first.remaining >= 0 && Follows(first, m, end) && !Reaches(d, end.dispersed[m].resolved, d.source)
    ensures var before := IndexOf(d.targets, d.source);
            && |end.dispersed[m].resolved| == |d.targets| && (before < |d.targets| ==> size <= before)
            && forall i :: before <= i < |d.targets| ==> !end.dispersed[m].resolved[i]
  {
    var before := IndexOf(d.targets, d.source);
    if before < |d.targets| {
      assert !end.dispersed[m].resolved[before];
    }
  }

  lemma RanOutBefore(c: Context, f: CombatFacts, m: ArmyId)
    requires OneOrderEach(c) && m in c.disperses && !Attacked(c, f, c.disperses[m].source) && RanOut(c, RunRules(c, f), m)
    ensures var d := c.disperses[m]; var before, bits := IndexOf(d.targets, d.source), RunRules(c, f).dispersed[m].resolved;
            (before < |d.targets| ==> SizeOf(c, m) <= before)
            && |bits| == |d.targets| && forall i :: before <= i < |bits| ==> !bits[i]
  {
    EndFollows(c, f, m);
    FirstServed(c, f, m);
    ReachedBefore(c.disperses[m], SizeOf(c, m), AfterDispersions(c, f).dispersed[m], m, RunRules(c, f));
  }

  lemma RanOutIsOverdrawn(c: Context, f: CombatFacts, m: ArmyId)
    requires OneOrderEach(c) && m in c.disperses && !Attacked(c, f, c.disperses[m].source) && RanOut(c, RunRules(c, f), m)
    ensures Overdrawn(c.disperses[m], SizeOf(c, m))
  {
    NeverOverspent(c, f, m);
    RanOutBefore(c, f, m);
    BeforeFinalKept(c, f);
    FinalKeepsDispersions(c, f);
    var d, end := c.disperses[m], RunRules(c, f).dispersed[m];
    var before := IndexOf(d.targets, d.source);
    assert IsSound(c, m, end);
    AllTrue(end.resolved);
    forall t | t in Escorted(d)
      ensures t in d.targets[..before] && exists i :: 0 <= i < |d.targets| && d.targets[i] == t && end.resolved[i]
    {
      assert Reaches(d, end.resolved, t);
      var i :| 0 <= i < |d.targets| && i < |end.resolved| && d.targets[i] == t && end.resolved[i];
      assert i < before && d.targets[..before][i] == t;
    }
    FewReached(d.targets, end.resolved, Escorted(d));
  }

  /** Nobody attacks the origin of a peaceful order. */
  lemma OriginQuiet(c: Context, f: CombatFacts, m: ArmyId)
    requires Prepared(c) && m in c.disperses
    ensures !Attacked(c, f, c.disperses[m].source)
  {
  }

  /** Unless its order is overdrawn, an army empties its origin exactly when its departure was settled. */
  lemma DeparturesEmptyOrigins(c: Context, v: View, a: ArmyId)
    requires Prepared(c) && v.Keys == Decisions(c) && Consistent(c, v) && IsPeaceful(c, a)
    requires a in c.disperses ==> !Overdrawn(c.disperses[a], SizeOf(c, a))
    ensures a in c.armies && EmptiedIffDeparted(c, v, a)
  {
    OriginEmptied(c, v, a);
    var f := Recorded(c, v);
    if a in c.disperses && RanOut(c, RunRules(c, f), a) {
      OriginQuiet(c, f, a);
      RanOutIsOverdrawn(c, f, a);
    }
  }

  // ---------- overdrawn orders fail in some turn

  function Standing(closed: set<TerritoryId>): set<ArmyId>
  {
    {0} + set t | t in closed :: t + 1
  }

  /** The order given alone, while armies of another player stand on some territories. */
  function Blocked(d: Disperse, size: nat, owner: PlayerId, closed: set<TerritoryId>): Context
  {
    Context(map a | a in Standing(closed) :: if a == 0 then Army(owner, d.source, size, 0) else Army(owner + 1, a - 1, 1, 0),
            map t | t in closed + {d.source} :: if t == d.source then 0 else t + 1,
            map[], map[], map[0 := d], map[], {}, {}, map[], map[], map[])
  }

  lemma BlockedPrepared(d: Disperse, size: nat, owner: PlayerId, closed: set<TerritoryId>)
    requires size >= 1 && d.source !in closed
    ensures Prepared(Blocked(d, size, owner, closed)) && OneOrderEach(Blocked(d, size, owner, closed))
  {
    var c := Blocked(d, size, owner, closed);
    forall a | a in c.armies
      ensures c.armies[a].size >= 1 && c.armies[a].territory in c.armyAt && c.armyAt[c.armies[a].territory] == a
    {
      assert a != 0 ==> a - 1 in closed;
    }
    forall t | t in c.armyAt ensures c.armyAt[t] in c.armies && c.armies[c.armyAt[t]].territory == t {
      assert t != d.source ==> t + 1 in Standing(closed);
    }
    assert WellFormed(c);
  }

  /** The targets left open. */
  function OpenTargets(d: Disperse, closed: set<TerritoryId>): (q: seq<bool>)
    ensures |q| == |d.targets| && forall i :: 0 <= i < |q| ==> q[i] == (d.targets[i] !in closed)
  {
    seq(|d.targets|, i requires 0 <= i < |d.targets| => d.targets[i] !in closed)
  }

  /** The recorded contest of a turn without attacks. */
  ghost predicate NoCombat(f: CombatFacts)
  {
    f.SettledFacts? && f.contest == Contest({}, {}, {}, {}, {}, map[])
  }

  lemma OpenResolves(d: Disperse, size: nat, owner: PlayerId, closed: set<TerritoryId>, f: CombatFacts, t: TerritoryId)
    requires NoCombat(f) && d.source !in closed && t in d.targets
    ensures MayResolve(Blocked(d, size, owner, closed), f, {}, 0, t) <==> t !in closed
  {
    var c := Blocked(d, size, owner, closed);
    assert !Attacked(c, f, t);
    assert OwnerOf(c, 0) == owner;
    if t != d.source {
      assert OccupantAt(c, t) == if t in closed then Some(t + 1) else None;
      assert IsCandidate(c, f, 0, t) <==> t !in closed;
      assert t !in closed ==> Claimants(c, f, {}, t) == {0};
    }
  }

  lemma OpenResolution(d: Disperse, size: nat, owner: PlayerId, closed: set<TerritoryId>, f: CombatFacts)
    requires NoCombat(f) && d.source !in closed
    ensures Resolution(Blocked(d, size, owner, closed), f, {}, 0) == Allot(OpenTargets(d, closed), size)
  {
    var c := Blocked(d, size, owner, closed);
    forall i | 0 <= i < |d.targets| ensures Allowed(c, f, {}, 0)[i] == OpenTargets(d, closed)[i] {
      OpenResolves(d, size, owner, closed, f, d.targets[i]);
    }
    assert Allowed(c, f, {}, 0) == OpenTargets(d, closed);
  }

  /** With these territories closed, the order spends every troop, leaving targets out and no noble behind. */
  ghost predicate SpendsAll(d: Disperse, size: nat, closed: set<TerritoryId>)
  {
    var bits := Allot(OpenTargets(d, closed), size);
    && d.source !in closed && !d.loop && CountTrue(bits) == size < |d.targets|
    && !Reaches(d, bits, d.source) && !OrphansNobles(d, bits)
  }

  /** The allotment stands, and its troops are spent. */
  ghost predicate Spent(d: Disperse, size: nat, closed: set<TerritoryId>, st: Rules)
  {
    0 in st.dispersed && st.dispersed[0] == Dispersal(Allot(OpenTargets(d, closed), size), 0, false)
  }

  lemma SpentFirst(d: Disperse, size: nat, owner: PlayerId, closed: set<TerritoryId>, f: CombatFacts)
    requires NoCombat(f) && SpendsAll(d, size, closed) && size >= 1
    ensures Spent(d, size, closed, AfterDispersions(Blocked(d, size, owner, closed), f))
  {
    var c := Blocked(d, size, owner, closed);
    OpenResolution(d, size, owner, closed, f);
    assert SizeOf(c, 0) == size;
    assert !IsRefused(c, 0, Resolution(c, f, {}, 0));
    assert NewlyRefused(c, f, {}) == {};
    assert RefusedFrom(c, f, {}) == {};
  }

  /** With no troop left nothing arrives late. */
  lemma SpentLast(d: Disperse, size: nat, owner: PlayerId, closed: set<TerritoryId>, f: CombatFacts)
    requires NoCombat(f) && SpendsAll(d, size, closed) && size >= 1
    ensures Spent(d, size, closed, RunRules(Blocked(d, size, owner, closed), f))
  {
    var c := Blocked(d, size, owner, closed);
    BlockedPrepared(d, size, owner, closed);
    SpentFirst(d, size, owner, closed, f);
    JoinsKeepDispersions(c, f, AfterDispersions(c, f));
    var inv := (st: Rules) => Spent(d, size, closed, st);
    forall st, m, i ensures !(inv(st) && Arrival(c, f, st, m, i)) {
      assert m in c.disperses ==> m == 0;
    }
    assert Preserved(c, f, inv);
    assert inv(AfterAllJoins(c, f));
    VacatedPreserves(c, f, inv, AfterAllJoins(c, f));
    FinalKeepsDispersions(c, f);
  }

  lemma SpentRanOut(d: Disperse, size: nat, owner: PlayerId, closed: set<TerritoryId>, end: Rules)
    requires SpendsAll(d, size, closed) && Spent(d, size, closed, end)
    ensures RanOut(Blocked(d, size, owner, closed), end, 0) && !VacatesSource(Blocked(d, size, owner, closed), end, 0)
  {
    var bits := Allot(OpenTargets(d, closed), size);
    AllTrue(bits);
    var i :| 0 <= i < |bits| && !bits[i];
    assert !AllSentAway(d, bits);
  }

  /** The army is gone, and was not to depart. */
  lemma EmptiedWithoutDeparting(d: Disperse, size: nat, owner: PlayerId, closed: set<TerritoryId>, v: View)
    requires SpendsAll(d, size, closed) && size >= 1
    requires v.Keys == Decisions(Blocked(d, size, owner, closed)) && Consistent(Blocked(d, size, owner, closed), v)
    ensures var c := Blocked(d, size, owner, closed); LeavesNobody(c, Recorded(c, v), RunRules(c, Recorded(c, v)), 0)
    ensures !Holds(v, Departure(0))
  {
    var c := Blocked(d, size, owner, closed);
    var f := Recorded(c, v);
    BlockedPrepared(d, size, owner, closed);
    SpentLast(d, size, owner, closed, f);
    SpentRanOut(d, size, owner, closed, RunRules(c, f));
    OriginEmptied(c, v, 0);
    ExecutionMatchesDepartures(c, v, 0);
    FinalOutcomeOf(c, f, 0);
    DispersalRead(c, f, RunRules(c, f), 0);
  }

  // ---------- which territories to close

  /** Nobles go to targets served first, or nowhere. */
  ghost predicate EscortsFirst(d: Disperse, size: nat)
    requires size <= |d.targets|
  {
    forall t :: t in Escorted(d) ==> t in d.targets[..size]
  }

  ghost predicate NoRepeats(q: seq<TerritoryId>)
  {
    forall i, j :: 0 <= i < j < |q| ==> q[i] != q[j]
  }

  /** With everything open, the first targets are served. */
  lemma FirstTargets(d: Disperse, size: nat)
    requires Overdrawn(d, size) && EscortsFirst(d, size)
    ensures SpendsAll(d, size, {})
  {
    var open := OpenTargets(d, {});
    var bits := Allot(open, size);
    forall i | 0 <= i < |bits| ensures bits[i] <==> i < size {
      AllotGreedy(open, size, i);
      AllTrue(open[..i]);
    }
    CountPrefix(bits, size);
    forall t | t in Escorted(d) ensures Reaches(d, bits, t) {
      var i :| 0 <= i < size && d.targets[..size][i] == t;
      assert d.targets[i] == t;
    }
  }

  lemma {:induction false} CountPrefix(bits: seq<bool>, size: nat)
    requires size <= |bits| && forall i :: 0 <= i < |bits| ==> (bits[i] <==> i < size)
    ensures CountTrue(bits) == size
  {
    if bits != [] {
      CountPrefix(bits[1..], if size > 0 then size - 1 else 0);
    }
  }

  lemma {:induction false} GrownTo(inner: set<TerritoryId>, outer: set<TerritoryId>, size: nat) returns (s: set<TerritoryId>)
    requires inner <= outer && |inner| <= size <= |outer|
    ensures inner <= s <= outer && |s| == size
    decreases size - |inner|
  {
    if |inner| == size {
      s := inner;
    } else {
      assert inner != outer;
      var t :| t in outer && t !in inner;
      s := GrownTo(inner + {t}, outer, size);
    }
  }

  function Named(q: seq<TerritoryId>): set<TerritoryId>
  {
    set t | t in q
  }

  lemma {:induction false} DistinctCount(q: seq<TerritoryId>)
    requires NoRepeats(q)
    ensures |Named(q)| == |q|
  {
    if q != [] {
      var rest := Named(q[1..]);
      DistinctCount(q[1..]);
      assert forall j :: 0 <= j < |q[1..]| ==> q[1..][j] == q[j + 1];
      assert q[0] !in rest;
      assert Named(q) == rest + {q[0]};
    }
  }

  /** The places of a list that hold one of its territories are as many as those. */
  lemma {:induction false} OpenCount(q: seq<TerritoryId>, bits: seq<bool>, s: set<TerritoryId>)
    requires NoRepeats(q) && |bits| == |q| && (forall t :: t in s ==> t in q) && forall i :: 0 <= i < |q| ==> bits[i] == (q[i] in s)
    ensures CountTrue(bits) == |s|
  {
    if q == [] {
      assert s == {};
    } else {
      var rest := s - {q[0]};
      assert forall t :: t in rest ==> t in q[1..];
      assert q[0] !in q[1..];
      OpenCount(q[1..], bits[1..], rest);
      if q[0] in s { assert s == rest + {q[0]}; } else { assert s == rest; }
    }
  }

  /** Closing the targets before the origin that neither nobles nor troops need. */
  lemma ClosedTargets(d: Disperse, size: nat) returns (closed: set<TerritoryId>)
    requires Overdrawn(d, size) && NoRepeats(d.targets)
    ensures SpendsAll(d, size, closed)
  {
    var before := IndexOf(d.targets, d.source);
    var early := d.targets[..before];
    var reachable := Named(early);
    DistinctCount(early);
    var served := GrownTo(Escorted(d), reachable, size);
    closed := reachable - served;
    assert d.source !in closed;
    ServedExactly(d, size, before, served, closed);
  }

  lemma ServedExactly(d: Disperse, size: nat, before: nat, served: set<TerritoryId>, closed: set<TerritoryId>)
    requires Overdrawn(d, size) && NoRepeats(d.targets) && before == IndexOf(d.targets, d.source)
    requires (forall t :: t in served ==> t in d.targets[..before]) && |served| == size && Escorted(d) <= served
    requires closed == Named(d.targets[..before]) - served && d.source !in closed
    ensures SpendsAll(d, size, closed)
  {
    var open := OpenTargets(d, closed);
    var bits := Allot(open, size);
    var early := d.targets[..before];
    forall i | 0 <= i < before ensures open[..before][i] == (early[i] in served) {
      assert early[i] in early;
    }
    OpenCount(early, open[..before], served);
    forall i | 0 <= i < |bits| ensures bits[i] <==> i < before && d.targets[i] in served {
      AllotGreedy(open, size, i);
      if i >= before {
        PrefixCount(open, before, i);
      } else {
        assert early[i] == d.targets[i];
        if d.targets[i] in served { BelowCount(open, i, before); }
      }
    }
    forall t | t in served ensures Reaches(d, bits, t) {
      var i :| 0 <= i < before && early[i] == t;
      assert d.targets[i] == t;
    }
    AllotBounded(open, size);
    FewReached(d.targets, bits, served);
  }

  /** A place that holds adds to the count after it. */
  lemma BelowCount(bits: seq<bool>, i: nat, j: nat)
    requires i < j <= |bits| && bits[i]
    ensures CountTrue(bits[..i]) < CountTrue(bits[..j])
  {
    assert bits[..i + 1] == bits[..i] + [true];
    CountAppend(bits[..i]);
    PrefixCount(bits, i + 1, j);
  }

  lemma {:induction false} CountAppend(bits: seq<bool>)
    ensures CountTrue(bits + [true]) == CountTrue(bits) + 1
  {
    if bits == [] {
      assert (bits + [true])[1..] == [];
    } else {
      CountAppend(bits[1..]);
      assert (bits + [true])[1..] == bits[1..] + [true];
    }
  }

  // ---------- exactly when the claim holds

  /** A settled turn in which an army of that size gives that order. */
  ghost predicate IsTurnWith(c: Context, v: View, a: ArmyId, d: Disperse, size: nat)
  {
    && Prepared(c) && v.Keys == Decisions(c) && Consistent(c, v)
    && a in c.armies && c.armies[a].size == size && a in c.disperses && c.disperses[a] == d
  }

  /** In every turn in which an army of that size gives the order, it empties its origin exactly when it departs. */
  ghost predicate AlwaysKept(d: Disperse, size: nat)
  {
    forall c, v, a :: IsTurnWith(c, v, a, d, size) ==> EmptiedIffDeparted(c, v, a)
  }

  lemma FailsSomewhere(d: Disperse, size: nat, closed: set<TerritoryId>)
    requires size >= 1 && SpendsAll(d, size, closed)
    ensures !AlwaysKept(d, size)
  {
    var c := Blocked(d, size, 0, closed);
    BlockedPrepared(d, size, 0, closed);
    GreatestConsistent(c);
    var v := GreatestResolution(c);
    EmptiedWithoutDeparting(d, size, 0, closed, v);
    assert IsTurnWith(c, v, 0, d, size) && !EmptiedIffDeparted(c, v, 0);
  }

  /** An order keeps the claim in every turn if and only if it is not overdrawn. */
  lemma KeptUnlessOverdrawn(d: Disperse, size: nat)
    requires size >= 1
    requires NoRepeats(d.targets) || (size <= |d.targets| ==> EscortsFirst(d, size))
    ensures AlwaysKept(d, size) <==> !Overdrawn(d, size)
  {
    if Overdrawn(d, size) {
      if NoRepeats(d.targets) {
        var closed := ClosedTargets(d, size);
        FailsSomewhere(d, size, closed);
      } else {
        FirstTargets(d, size);
        FailsSomewhere(d, size, {});
      }
    } else {
      forall c, v, a | IsTurnWith(c, v, a, d, size) ensures EmptiedIffDeparted(c, v, a) {
        DeparturesEmptyOrigins(c, v, a);
      }
    }
  }

  // ---------- one input

  /** One troop, sent to two free territories. */
  const OVERSTRETCHED := Disperse(0, [1, 2], false, map[], {})

  lemma OverstretchedFails(v: View)
    requires v.Keys == Decisions(Blocked(OVERSTRETCHED, 1, 1, {})) && Consistent(Blocked(OVERSTRETCHED, 1, 1, {}), v)
    ensures Overdrawn(OVERSTRETCHED, 1)
    ensures LeavesNobody(Blocked(OVERSTRETCHED, 1, 1, {}), Recorded(Blocked(OVERSTRETCHED, 1, 1, {}), v),
                         RunRules(Blocked(OVERSTRETCHED, 1, 1, {}), Recorded(Blocked(OVERSTRETCHED, 1, 1, {}), v)), 0)
    ensures !Holds(v, Departure(0))
  {
    OverdrawnWithoutNobles(OVERSTRETCHED, 1);
    assert OVERSTRETCHED.targets[..1] == [1];
    FirstTargets(OVERSTRETCHED, 1);
    EmptiedWithoutDeparting(OVERSTRETCHED, 1, 1, {}, v);
  }
}
