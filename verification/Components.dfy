/**
 The decisions of a turn in their fixed order, and what solving a component
 means for the whole turn.
 */
module Components {
  import opened Wrappers
  import opened SortedIds
  import opened Turn
  import opened Combat
  import opened Dependencies
  import opened Greatest
  import opened CycleSearch
  import T = Tarjan

  ghost function TurnSystem(c: Context): System
  {
    System(d => Reads(c, d), (v, d) => Adjudicate(c, v, d))
  }

  /** Decisions depend on their dependencies only, and dislodgements on no dislodgement. */
  lemma TurnDetermined(c: Context)
    requires WellFormed(c)
    ensures Determined(TurnSystem(c), Decisions(c)) && Derivable(TurnSystem(c))
  {
    var sys := TurnSystem(c);
    forall v, w, d | d in Decisions(c) && forall r :: r in sys.needs(d) ==> Holds(v, r) == Holds(w, r)
      ensures sys.adjudicate(v, d) == sys.adjudicate(w, d)
    {
      ReadsSuffice(c, v, w, d);
    }
  }

  // ---------- the order of decisions

  /** The decisions of a list that are chosen rather than derived. */
  function ChoicesOf(q: seq<Decision>): seq<Decision>
  {
    if q == [] then [] else ChoicesOf(q[..|q| - 1]) + (if q[|q| - 1].Dislodged? then [] else [q[|q| - 1]])
  }

  lemma ChoicesAppend(q: seq<Decision>, d: Decision)
    ensures ChoicesOf(q + [d]) == ChoicesOf(q) + (if d.Dislodged? then [] else [d])
  {
    assert (q + [d])[..|q|] == q;
  }

  lemma {:induction false} ChoicesChosen(q: seq<Decision>)
    requires T.Distinct(q)
    ensures T.Distinct(ChoicesOf(q)) && forall d :: d in ChoicesOf(q) <==> d in q && !d.Dislodged?
  {
    if q != [] {
      var n := |q| - 1;
      ChoicesChosen(q[..n]);
      assert q == q[..n] + [q[n]];
      assert q[n] !in q[..n];
    }
  }

  /** Attacks, then departures, then dislodgements. */
  function Kind(d: Decision): nat
  {
    match d case Move(_) => 0 case Departure(_) => 1 case Dislodged(_) => 2
  }

  ghost predicate ByKind(q: seq<Decision>)
  {
    forall i, j :: 0 <= i < j < |q| ==> Kind(q[i]) <= Kind(q[j])
  }

  lemma {:induction false} ChoicesByKind(q: seq<Decision>)
    requires ByKind(q)
    ensures ByKind(ChoicesOf(q)) && forall d :: d in ChoicesOf(q) ==> d in q
  {
    if q != [] {
      var n := |q| - 1;
      ChoicesByKind(q[..n]);
      assert q == q[..n] + [q[n]];
      forall d | d in q[..n] ensures Kind(d) <= Kind(q[n]) {
        var i :| 0 <= i < n && q[..n][i] == d;
      }
      var rest := ChoicesOf(q[..n]);
      forall i | 0 <= i < |rest| ensures Kind(rest[i]) <= Kind(q[n]) {
        assert rest[i] in rest;
      }
    }
  }

  // ---------- solving a component

  /** x is how a component is solved, given what is settled. */
  ghost predicate Solved(sys: System, p: Part, component: seq<Decision>, x: View)
  {
    if exists y :: IsResolution(sys, p, y)
    then IsResolution(sys, p, x) && forall y :: IsResolution(sys, p, y) ==> SucceedsFirst(x, y, ChoicesOf(component))
    else x.Keys == p.m && forall d :: d in p.m ==> if d.Dislodged? then Right(sys, p, x, d) else !x[d]
  }

  /** The greatest resolution, on the component. */
  ghost function GreatestOn(c: Context, m: set<Decision>): View
    requires m <= Decisions(c)
  {
    map d | d in m :: Holds(GreatestResolution(c), d)
  }

  ghost predicate AgreesWithGreatest(c: Context, v: View)
  {
    forall d :: d in v ==> d in Decisions(c) && v[d] == Holds(GreatestResolution(c), d)
  }

  lemma GreatestEverywhere(c: Context, v: View, s: set<Decision>)
    requires Prepared(c) && s <= v.Keys && AgreesWithGreatest(c, v) && ReadsClosed(c, v.Keys) && s <= Decisions(c)
    ensures ConsistentOn(c, v, s)
  {
    GreatestConsistent(c);
    forall d | d in s ensures v[d] == Adjudicate(c, v, d) {
      forall r | r in Reads(c, d) ensures Holds(v, r) == Holds(GreatestResolution(c), r) {
        assert Reads(c, d) <= v.Keys;
      }
      ReadsSuffice(c, v, GreatestResolution(c), d);
    }
  }

  /** The greatest resolution resolves every component, so a search cannot fail. */
  lemma GreatestResolves(c: Context, p: Part)
    requires Prepared(c) && AgreesWithGreatest(c, p.settled) && p.m <= Decisions(c)
    requires ReadsClosed(c, p.settled.Keys + p.m) && p.m !! p.settled.Keys
    ensures IsResolution(TurnSystem(c), p, GreatestOn(c, p.m))
  {
    var v := GreatestOn(c, p.m) + p.settled;
    assert v.Keys == p.settled.Keys + p.m;
    GreatestEverywhere(c, v, p.m);
  }

  lemma ResolutionConsistent(c: Context, p: Part, x: View)
    requires Prepared(c) && AgreesWithGreatest(c, p.settled) && ReadsClosed(c, p.settled.Keys)
    requires p.m !! p.settled.Keys && IsResolution(TurnSystem(c), p, x)
    ensures ConsistentOn(c, x + p.settled, p.settled.Keys + p.m)
  {
    var v := x + p.settled;
    GreatestEverywhere(c, p.settled, p.settled.Keys);
    forall d | d in p.settled.Keys ensures v[d] == Adjudicate(c, v, d) {
      assert Reads(c, d) <= p.settled.Keys;
      ReadsSuffice(c, v, p.settled, d);
    }
    forall d | d in p.m ensures v[d] == Adjudicate(c, v, d) {
      assert x[d] == TurnSystem(c).adjudicate(v, d);
    }
  }

  /** Succeeding first means succeeding most: the search returns the greatest resolution. */
  lemma {:induction false} FirstAgrees(c: Context, x: View, g: View, q: seq<Decision>, i: nat)
    requires i <= |q| && ByKind(q) && SucceedsFirst(x, g, q)
    requires forall d :: d in q ==> d in x && d in g
    requires forall a :: Move(a) in x && Move(a) in g && x[Move(a)] ==> g[Move(a)]
    requires forall j :: 0 <= j < i ==> q[j].Move?
    ensures AgreeOn(x, g, q[..i])
  {
    if i > 0 {
      FirstAgrees(c, x, g, q, i - 1);
      var d := q[i - 1];
      assert q[..i] == q[..i - 1] + [d];
      assert d in q;
    }
  }

  lemma MovesAgree(c: Context, x: View, g: View, q: seq<Decision>, a: ArmyId)
    requires ByKind(q) && SucceedsFirst(x, g, q) && Move(a) in q
    requires forall d :: d in q ==> d in x && d in g
    requires forall b :: Move(b) in x && Move(b) in g && x[Move(b)] ==> g[Move(b)]
    ensures x[Move(a)] == g[Move(a)]
  {
    var i :| 0 <= i < |q| && q[i] == Move(a);
    forall j | 0 <= j < i + 1 ensures q[j].Move? {
      assert Kind(q[j]) <= Kind(q[i]);
    }
    FirstAgrees(c, x, g, q, i + 1);
    assert q[..i + 1][i] == q[i];
  }

  /** A solved component has its greatest resolution. */
  lemma SolvedIsGreatest(c: Context, p: Part, component: seq<Decision>, x: View)
    requires Prepared(c) && AgreesWithGreatest(c, p.settled) && p.m <= Decisions(c) && p.m !! p.settled.Keys
    requires ReadsClosed(c, p.settled.Keys) && ReadsClosed(c, p.settled.Keys + p.m)
    requires T.Distinct(component) && T.Members(component) == p.m && ByKind(component)
    requires Solved(TurnSystem(c), p, component, x)
    ensures AgreesWithGreatest(c, x) && exists y :: IsResolution(TurnSystem(c), p, y)
  {
    var g := GreatestOn(c, p.m);
    var s := p.settled.Keys + p.m;
    GreatestResolves(c, p);
    ResolutionConsistent(c, p, x);
    ConsistentBelowGreatest(c, x + p.settled, s);
    ChoicesChosen(component);
    ChoicesByKind(component);
    forall a | Move(a) in s ensures Holds(x + p.settled, Move(a)) == Holds(GreatestResolution(c), Move(a)) {
      if Move(a) in p.m {
        assert Move(a) in T.Members(component);
        SolvedMovesAgree(c, p, component, x, a);
      }
    }
    GreatestConsistent(c);
    SameMovesSameResolution(c, x + p.settled, GreatestResolution(c), s);
    forall d | d in x ensures x[d] == Holds(GreatestResolution(c), d) {
      assert Holds(x + p.settled, d) == x[d];
    }
  }

  lemma SolvedMovesAgree(c: Context, p: Part, component: seq<Decision>, x: View, a: ArmyId)
    requires Prepared(c) && p.m <= Decisions(c) && p.m !! p.settled.Keys && x.Keys == p.m
    requires T.Members(component) == p.m && ByKind(ChoicesOf(component)) && Move(a) in component
    requires forall d :: d in ChoicesOf(component) <==> d in component && !d.Dislodged?
    requires SucceedsFirst(x, GreatestOn(c, p.m), ChoicesOf(component))
    requires forall b :: Move(b) in p.m && Holds(x + p.settled, Move(b)) ==> Holds(GreatestResolution(c), Move(b))
    ensures x[Move(a)] == Holds(GreatestResolution(c), Move(a))
  {
    var g := GreatestOn(c, p.m);
    forall d | d in ChoicesOf(component) ensures d in x && d in g {
      assert d in T.Members(component);
    }
    forall b | Move(b) in x && Move(b) in g && x[Move(b)] ensures g[Move(b)] {
      assert Holds(x + p.settled, Move(b));
    }
    MovesAgree(c, x, g, ChoicesOf(component), a);
  }

  // ---------- what settling keeps

  /** Every success is justified by the move equation or the rules, and every dislodgement is as it must be. */
  ghost predicate Justified(c: Context, v: View)
  {
    && ReadsClosed(c, v.Keys)
    && forall d :: d in v ==> (v[d] ==> Adjudicate(c, v, d)) && (d.Dislodged? ==> v[d] == Adjudicate(c, v, d))
  }

  /** Settling a component changes no adjudication already settled. */
  lemma SettledStays(c: Context, v: View, x: View, d: Decision)
    requires WellFormed(c) && ReadsClosed(c, v.Keys) && d in v && x.Keys !! v.Keys
    ensures Adjudicate(c, x + v, d) == Adjudicate(c, v, d)
  {
    assert Reads(c, d) <= v.Keys;
    ReadsSuffice(c, x + v, v, d);
  }

  lemma SettleKeeps(c: Context, p: Part, component: seq<Decision>, x: View)
    requires WellFormed(c) && Justified(c, p.settled) && p.m !! p.settled.Keys && ReadsClosed(c, p.settled.Keys + p.m)
    requires x.Keys == p.m && Solved(TurnSystem(c), p, component, x)
    ensures Justified(c, x + p.settled)
    ensures ConsistentOn(c, p.settled, p.settled.Keys) && (exists y :: IsResolution(TurnSystem(c), p, y)) ==>
              ConsistentOn(c, x + p.settled, p.settled.Keys + p.m)
  {
    var v := x + p.settled;
    forall d | d in p.settled ensures Adjudicate(c, v, d) == Adjudicate(c, p.settled, d) {
      SettledStays(c, p.settled, x, d);
    }
    forall d | d in p.m ensures (v[d] ==> Adjudicate(c, v, d)) && (d.Dislodged? ==> v[d] == Adjudicate(c, v, d)) {
      assert v[d] == x[d];
      assert TurnSystem(c).adjudicate(v, d) == Adjudicate(c, v, d);
      if !(exists y :: IsResolution(TurnSystem(c), p, y)) && d.Dislodged? {
        assert Right(TurnSystem(c), p, x, d);
      }
    }
  }

  // ---------- listing decisions

  function MovesOf(q: seq<ArmyId>): seq<Decision>
  {
    seq(|q|, i requires 0 <= i < |q| => Move(q[i]))
  }

  function DeparturesOf(q: seq<ArmyId>): seq<Decision>
  {
    seq(|q|, i requires 0 <= i < |q| => Departure(q[i]))
  }

  function DislodgementsOf(q: seq<ArmyId>): seq<Decision>
  {
    seq(|q|, i requires 0 <= i < |q| => Dislodged(q[i]))
  }

  /** Every decision of the turn: attacks, departures, then dislodgements, by army. */
  function DecisionList(c: Context): seq<Decision>
  {
    MovesOf(Sorted(c.attacks.Keys)) + DeparturesOf(Sorted(c.joins.Keys + c.disperses.Keys)) + DislodgementsOf(Sorted(c.armies.Keys))
  }

  lemma ListMembers(c: Context)
    ensures T.Members(DecisionList(c)) == Decisions(c)
  {
    var m, p, l := MovesOf(Sorted(c.attacks.Keys)), DeparturesOf(Sorted(c.joins.Keys + c.disperses.Keys)), DislodgementsOf(Sorted(c.armies.Keys));
    T.MembersConcat(m, p);
    T.MembersConcat(m + p, l);
    forall d ensures d in T.Members(m + p + l) <==> d in Decisions(c) {
      Listed(c, d);
    }
  }

  lemma Listed(c: Context, d: Decision)
    ensures d in T.Members(MovesOf(Sorted(c.attacks.Keys))) <==> d.Move? && d in Decisions(c)
    ensures d in T.Members(DeparturesOf(Sorted(c.joins.Keys + c.disperses.Keys))) <==> d.Departure? && d in Decisions(c)
    ensures d in T.Members(DislodgementsOf(Sorted(c.armies.Keys))) <==> d.Dislodged? && d in Decisions(c)
  {
    DecisionOf(c, d);
    MovesListed(Sorted(c.attacks.Keys));
    DeparturesListed(Sorted(c.joins.Keys + c.disperses.Keys));
    DislodgedListed(Sorted(c.armies.Keys));
  }

  lemma DecisionOf(c: Context, d: Decision)
    ensures d in Decisions(c) <==>
              match d
              case Move(a) => a in c.attacks
              case Departure(a) => a in c.joins.Keys + c.disperses.Keys
              case Dislodged(a) => a in c.armies
  {
  }

  lemma MovesListed(q: seq<ArmyId>)
    ensures forall d :: d in T.Members(MovesOf(q)) <==> d.Move? && d.army in q
  {
    forall a | a in q ensures Move(a) in MovesOf(q) {
      var i :| 0 <= i < |q| && q[i] == a;
      assert MovesOf(q)[i] == Move(a);
    }
  }

  lemma DeparturesListed(q: seq<ArmyId>)
    ensures forall d :: d in T.Members(DeparturesOf(q)) <==> d.Departure? && d.army in q
  {
    forall a | a in q ensures Departure(a) in DeparturesOf(q) {
      var i :| 0 <= i < |q| && q[i] == a;
      assert DeparturesOf(q)[i] == Departure(a);
    }
  }

  lemma DislodgedListed(q: seq<ArmyId>)
    ensures forall d :: d in T.Members(DislodgementsOf(q)) <==> d.Dislodged? && d.army in q
  {
    forall a | a in q ensures Dislodged(a) in DislodgementsOf(q) {
      var i :| 0 <= i < |q| && q[i] == a;
      assert DislodgementsOf(q)[i] == Dislodged(a);
    }
  }

  lemma JoinLists(a: seq<Decision>, b: seq<Decision>)
    requires T.Distinct(a) && ByKind(a) && T.Distinct(b) && ByKind(b)
    requires forall i, j :: 0 <= i < |a| && 0 <= j < |b| ==> Kind(a[i]) < Kind(b[j])
    ensures T.Distinct(a + b) && ByKind(a + b)
  {
    forall i, j | 0 <= i < j < |a + b| ensures (a + b)[i] != (a + b)[j] && Kind((a + b)[i]) <= Kind((a + b)[j]) {
      if i < |a| && j >= |a| {
        assert Kind(a[i]) < Kind(b[j - |a|]);
      }
    }
  }

  lemma OneKindOrder(q: seq<ArmyId>)
    requires Ascending(q)
    ensures T.Distinct(MovesOf(q)) && T.Distinct(DeparturesOf(q)) && T.Distinct(DislodgementsOf(q))
  {
    forall i, j | 0 <= i < j < |q| ensures q[i] != q[j] {
      ListedBefore(q, j, i);
    }
  }

  lemma ThreeKinds(q: seq<ArmyId>, r: seq<ArmyId>, t: seq<ArmyId>)
    requires T.Distinct(MovesOf(q)) && T.Distinct(DeparturesOf(r)) && T.Distinct(DislodgementsOf(t))
    ensures T.Distinct(MovesOf(q) + DeparturesOf(r) + DislodgementsOf(t))
    ensures ByKind(MovesOf(q) + DeparturesOf(r) + DislodgementsOf(t))
  {
    JoinLists(MovesOf(q), DeparturesOf(r));
    JoinLists(MovesOf(q) + DeparturesOf(r), DislodgementsOf(t));
  }

  lemma ListOrder(c: Context)
    ensures T.Distinct(DecisionList(c)) && ByKind(DecisionList(c))
  {
    OneKindOrder(Sorted(c.attacks.Keys));
    OneKindOrder(Sorted(c.joins.Keys + c.disperses.Keys));
    OneKindOrder(Sorted(c.armies.Keys));
    ThreeKinds(Sorted(c.attacks.Keys), Sorted(c.joins.Keys + c.disperses.Keys), Sorted(c.armies.Keys));
  }

  /** The members of a component, in the order of all decisions. */
  function Keep(q: seq<Decision>, m: set<Decision>): seq<Decision>
  {
    if q == [] then [] else Keep(q[..|q| - 1], m) + (if q[|q| - 1] in m then [q[|q| - 1]] else [])
  }

  lemma {:induction false} KeepOrder(q: seq<Decision>, m: set<Decision>)
    requires T.Distinct(q) && ByKind(q)
    ensures T.Distinct(Keep(q, m)) && ByKind(Keep(q, m))
    ensures T.Members(Keep(q, m)) == T.Members(q) * m
  {
    if q != [] {
      var n := |q| - 1;
      KeepOrder(q[..n], m);
      assert q == q[..n] + [q[n]];
      T.MembersConcat(q[..n], [q[n]]);
      var rest := Keep(q[..n], m);
      T.MembersConcat(rest, [q[n]]);
      assert T.Members([q[n]]) == {q[n]};
      KeptBeforeLast(q, rest, m);
      if q[n] in m { LastKept(rest, q[n]); }
      MembersKept(T.Members(q[..n]), q[n], m);
    }
  }

  lemma MembersKept(s: set<Decision>, d: Decision, m: set<Decision>)
    ensures (s + {d}) * m == s * m + if d in m then {d} else {}
  {
  }

  lemma KeptBeforeLast(q: seq<Decision>, rest: seq<Decision>, m: set<Decision>)
    requires q != [] && T.Distinct(q) && ByKind(q) && T.Members(rest) <= T.Members(q[..|q| - 1])
    ensures forall i :: 0 <= i < |rest| ==> Kind(rest[i]) <= Kind(q[|q| - 1]) && rest[i] != q[|q| - 1]
  {
    forall i | 0 <= i < |rest| ensures Kind(rest[i]) <= Kind(q[|q| - 1]) && rest[i] != q[|q| - 1] {
      assert rest[i] in T.Members(rest);
      var j :| 0 <= j < |q| - 1 && q[..|q| - 1][j] == rest[i];
      assert q[j] == rest[i];
    }
  }

  lemma LastKept(rest: seq<Decision>, d: Decision)
    requires T.Distinct(rest) && ByKind(rest) && forall i :: 0 <= i < |rest| ==> Kind(rest[i]) <= Kind(d) && rest[i] != d
    ensures T.Distinct(rest + [d]) && ByKind(rest + [d])
  {
  }

  lemma AllAgree(c: Context, v: View)
    requires Prepared(c) && v.Keys == Decisions(c) && AgreesWithGreatest(c, v)
    ensures v == GreatestResolution(c)
  {
    GreatestConsistent(c);
  }

  // ---------- the components of the dependency graph

  ghost predicate IsDependencyGraph(c: Context, graph: map<Decision, seq<Decision>>)
  {
    graph.Keys == Decisions(c) && forall d :: d in graph ==> T.Members(graph[d]) == Reads(c, d)
  }

  lemma GraphOfTurn(c: Context, graph: map<Decision, seq<Decision>>)
    requires WellFormed(c) && IsDependencyGraph(c, graph)
    ensures T.IsGraph(graph)
  {
    forall x, y | x in graph && y in graph[x] ensures y in graph {
      ReadsAreDecisions(c, x);
      assert y in T.Members(graph[x]);
    }
  }

  lemma SealedIsClosed(c: Context, graph: map<Decision, seq<Decision>>, s: set<Decision>)
    requires IsDependencyGraph(c, graph) && T.Sealed(graph, s)
    ensures ReadsClosed(c, s)
  {
    forall d | d in s ensures Reads(c, d) <= s {
      forall r | r in Reads(c, d) ensures r in s {
        assert r in T.Members(graph[d]);
      }
    }
  }

  /** The next component is new, and all its dependencies are in it or already settled. */
  lemma ComponentNext(c: Context, graph: map<Decision, seq<Decision>>, components: seq<seq<Decision>>, i: nat)
    requires IsDependencyGraph(c, graph) && T.InOrder(graph, components) && i < |components|
    ensures T.Members(components[i]) !! T.Listed(components[..i]) && components[i] != []
    ensures T.Members(components[i]) <= Decisions(c)
    ensures ReadsClosed(c, T.Listed(components[..i]) + T.Members(components[i]))
  {
    assert components[..i + 1] == components[..i] + [components[i]];
    T.ListedAppend(components[..i], components[i]);
    assert T.Sealed(graph, T.Listed(components[..i + 1]));
    SealedIsClosed(c, graph, T.Listed(components[..i + 1]));
    forall x | x in T.Listed(components[..i]) ensures x !in components[i] {
      var j :| 0 <= j < i && x in components[..i][j];
      assert x in components[j];
    }
  }

  lemma PartResolvable(c: Context, p: Part)
    requires WellFormed(c) && p.m !! p.settled.Keys && ReadsClosed(c, p.settled.Keys + p.m)
    ensures Resolvable(TurnSystem(c), p) && p.m <= Decisions(c)
  {
    TurnDetermined(c);
  }
}
