/**
 The prepared turn read off the orders: which intent each order gives, in both
 directions, in terms of where its army stands, what it names and the weather.
 */
module OrdersRead {
  import opened Wrappers
  import opened SortedIds
  import opened Turn
  import opened Escorts
  import opened Intentions

  /** The army is ordered from where it stands, and not in bad weather. */
  ghost predicate Starts(b: Start, orders: map<ArmyId, Command>, a: ArmyId)
  {
    && a in b.armies && a in orders && orders[a].position == b.armies[a].territory
    && b.armies[a].territory !in b.badWeather
  }

  /** No attack at all is directed at the territory. */
  ghost predicate Quiet(attacks: map<ArmyId, Attack>, t: TerritoryId)
  {
    forall x :: x in attacks ==> attacks[x].target != t
  }

  lemma StoppedIs(b: Start, at: TerritoryId, order: Order)
    requires !order.DisperseOrder?
    ensures IsStopped(b, at, order) <==>
              || at in b.badWeather || (order.AttackOrder? && order.target in b.badWeather) || (order.JoinOrder? && order.target in b.badWeather)
              || (order.SupportOrder? && order.supported in b.badWeather)
              || (order.SupportOrder? && order.destination.Some? && order.destination.value in b.badWeather)
  {
    assert forall t :: t in PlacesOf(order) * b.badWeather <==> t in PlacesOf(order) && t in b.badWeather;
    match order
    case AttackOrder(t) => assert t in PlacesOf(order);
    case JoinOrder(t) => assert t in PlacesOf(order);
    case SupportOrder(s, Some(d)) => assert s in PlacesOf(order) && d in PlacesOf(order);
    case SupportOrder(s, None) => assert s in PlacesOf(order);
    case HoldOrder =>
  }

  /** An army attacks exactly when it is fed and ordered to, in good weather at both ends. */
  lemma AttackIff(i: Intents, a: ArmyId)
    requires i.Given() && i.Complete()
    ensures a in i.attacks <==>
              && Starts(i.b, i.orders, a) && i.orders[a].order.AttackOrder? && i.orders[a].order.target !in i.b.badWeather
              && a !in i.b.famished
    ensures a in i.attacks ==>
              i.attacks[a] == Attack(i.b.armies[a].territory, i.orders[a].order.target, i.b.armies[a].size)
  {
    if a in i.orders && i.orders[a].order.AttackOrder? && a in i.b.armies {
      StoppedIs(i.b, i.b.armies[a].territory, i.orders[a].order);
    }
  }

  /** An army joins exactly when it is ordered to, in good weather at both ends, and no attack is directed at its place. */
  lemma JoinIff(i: Intents, a: ArmyId)
    requires i.Given() && i.Complete() && Prepared(i.Result())
    ensures a in i.joins <==>
              && Starts(i.b, i.orders, a) && i.orders[a].order.JoinOrder? && i.orders[a].order.target !in i.b.badWeather
              && Quiet(i.attacks, i.b.armies[a].territory)
    ensures a in i.joins ==> i.joins[a] == Join(i.b.armies[a].territory, i.orders[a].order.target)
  {
    if a in i.orders && i.orders[a].order.JoinOrder? && a in i.b.armies {
      StoppedIs(i.b, i.b.armies[a].territory, i.orders[a].order);
    }
  }

  /** The army on the place a support names, if any, attacks where the support says, or attacks nowhere. */
  ghost predicate IsHelpful(i: Intents, order: Order)
    reads i
    requires order.SupportOrder?
  {
    && order.supported in i.b.armyAt
    && var helped := i.b.armyAt[order.supported];
    if order.destination.Some? then helped in i.attacks && i.attacks[helped].target == order.destination.value
    else helped !in i.attacks
  }

  /** An army supports exactly when it is ordered to, in good weather at every place named. */
  lemma SupportIff(i: Intents, a: ArmyId)
    requires i.Given() && i.Complete()
    ensures a in i.supports <==>
              && Starts(i.b, i.orders, a) && i.orders[a].order.SupportOrder? && i.orders[a].order.supported !in i.b.badWeather
              && (i.orders[a].order.destination.Some? ==> i.orders[a].order.destination.value !in i.b.badWeather)
    ensures a in i.supports ==>
              var order := i.orders[a].order;
              && i.supports[a].source == i.b.armies[a].territory && i.supports[a].supported == order.supported
              && i.supports[a].destination == order.destination
              && (i.supports[a].targetArmy == if order.supported in i.b.armyAt then Some(i.b.armyAt[order.supported]) else None)
              && (i.supports[a].applies <==> IsHelpful(i, order))
  {
    if a in i.orders && i.orders[a].order.SupportOrder? && a in i.b.armies {
      StoppedIs(i.b, i.b.armies[a].territory, i.orders[a].order);
    }
  }

  // ---------- dispersions

  /** The places in a list of targets that are in good weather, before the n-th. */
  ghost function ClearBefore(targets: seq<TerritoryId>, bad: set<TerritoryId>, n: nat): set<nat>
    requires n <= |targets|
  {
    set j: nat | j < n && targets[j] !in bad
  }

  /** A list holds the targets in good weather, in the order named. */
  ghost predicate IsClearOf(left: seq<TerritoryId>, targets: seq<TerritoryId>, bad: set<TerritoryId>)
  {
    && |left| == |ClearBefore(targets, bad, |targets|)|
    && forall n: nat :: n < |targets| && targets[n] !in bad ==>
         |ClearBefore(targets, bad, n)| < |left| && left[|ClearBefore(targets, bad, n)|] == targets[n]
  }

  lemma {:induction false} ClearIs(targets: seq<TerritoryId>, bad: set<TerritoryId>)
    ensures IsClearOf(ClearTargets(targets, bad), targets, bad)
    decreases |targets|
  {
    if targets != [] {
      var n := |targets| - 1;
      ClearIs(targets[..n], bad);
      ClearGrows(ClearTargets(targets[..n], bad), ClearTargets(targets, bad), targets, targets[..n], bad);
    }
  }

  lemma ClearGrows(prev: seq<TerritoryId>, left: seq<TerritoryId>, targets: seq<TerritoryId>, early: seq<TerritoryId>, bad: set<TerritoryId>)
    requires IsClearOf(prev, early, bad) && early <= targets && |targets| == |early| + 1
    requires left == prev + if targets[|early|] in bad then [] else [targets[|early|]]
    ensures IsClearOf(left, targets, bad)
  {
    ClearNext(targets, early, bad, |early|);
    forall k: nat | k < |targets| && targets[k] !in bad
      ensures |ClearBefore(targets, bad, k)| < |left| && left[|ClearBefore(targets, bad, k)|] == targets[k]
    {
      ClearEarlier(targets, early, bad, k);
      if k < |early| { assert early[k] == targets[k]; }
    }
  }

  lemma ClearEarlier(targets: seq<TerritoryId>, early: seq<TerritoryId>, bad: set<TerritoryId>, k: nat)
    requires early <= targets && k <= |early|
    ensures ClearBefore(targets, bad, k) == ClearBefore(early, bad, k)
  {
  }

  lemma ClearNext(targets: seq<TerritoryId>, early: seq<TerritoryId>, bad: set<TerritoryId>, n: nat)
    requires early <= targets && |early| == n && |targets| == n + 1
    ensures ClearBefore(targets, bad, n) == ClearBefore(early, bad, n)
    ensures |ClearBefore(targets, bad, n + 1)| == |ClearBefore(early, bad, n)| + if targets[n] in bad then 0 else 1
  {
    ClearEarlier(targets, early, bad, n);
    assert ClearBefore(targets, bad, n + 1)
        == if targets[n] in bad then ClearBefore(targets, bad, n) else ClearBefore(targets, bad, n) + {n};
  }

  /** A noble is named for one of the targets in good weather. */
  ghost predicate NamedFor(q: Assignments, targets: seq<TerritoryId>, bad: set<TerritoryId>, t: TerritoryId, n: NobleId)
  {
    t in q && t in targets && t !in bad && Named(n) in q[t]
  }

  ghost predicate OthersFor(q: Assignments, targets: seq<TerritoryId>, bad: set<TerritoryId>, t: TerritoryId)
  {
    t in q && t in targets && t !in bad && AllOthers in q[t]
  }

  /** Everyone named for a target in good weather is there, and named once among those targets. */
  ghost predicate EscortsFit(q: Assignments, targets: seq<TerritoryId>, bad: set<TerritoryId>, here: set<NobleId>)
  {
    && (forall t, n :: NamedFor(q, targets, bad, t, n) ==> n in here)
    && (forall t, u, n :: NamedFor(q, targets, bad, t, n) && NamedFor(q, targets, bad, u, n) ==> t == u)
    && forall t, j, k :: t in q && t in targets && t !in bad && 0 <= j < k < |q[t]| && q[t][j].Named? ==> q[t][j] != q[t][k]
  }

  lemma FitIs(q: Assignments, targets: seq<TerritoryId>, bad: set<TerritoryId>, here: set<NobleId>)
    ensures IsValid(ClearEscorts(q, ClearTargets(targets, bad)), here) <==> EscortsFit(q, targets, bad, here)
  {
    var left := ClearEscorts(q, ClearTargets(targets, bad));
    forall t, n ensures NamedFor(q, targets, bad, t, n) <==> t in left && n in NamesIn(left[t]) {
      if t in left && n in NamesIn(left[t]) { assert Named(n) in left[t]; }
    }
    assert forall t :: t in left ==> left[t] == q[t];
    if IsValid(left, here) {
      forall t, u, n | NamedFor(q, targets, bad, t, n) && NamedFor(q, targets, bad, u, n) ensures t == u {
        assert n in NamesIn(left[t]) && n in NamesIn(left[u]);
      }
      forall t, n | NamedFor(q, targets, bad, t, n) ensures n in here {
        assert n in NamesIn(left[t]);
      }
      forall t, j, k | t in q && t in targets && t !in bad && 0 <= j < k < |q[t]| && q[t][j].Named? ensures q[t][j] != q[t][k] {
        assert t in left && NamedOnceIn(left[t]);
      }
    }
    if EscortsFit(q, targets, bad, here) {
      forall t | t in left ensures NamesIn(left[t]) <= here && NamedOnceIn(left[t]) {
        forall n | n in NamesIn(left[t]) ensures n in here { assert NamedFor(q, targets, bad, t, n); }
      }
      forall t, u | t in left && u in left && t != u ensures NamesIn(left[t]) !! NamesIn(left[u]) {
        forall n: NobleId | n in NamesIn(left[t]) ensures n !in NamesIn(left[u]) {
          assert NamedFor(q, targets, bad, t, n);
          assert !NamedFor(q, targets, bad, u, n);
        }
      }
    }
  }

  /** A noble goes to the target it is named for; the others go to the last that asks for them. */
  ghost predicate GoesTo(q: Assignments, targets: seq<TerritoryId>, bad: set<TerritoryId>, here: set<NobleId>, n: NobleId, t: TerritoryId)
  {
    || NamedFor(q, targets, bad, t, n)
    || (n in here && (forall u :: !NamedFor(q, targets, bad, u, n)) && OthersFor(q, targets, bad, t)
        && forall u: TerritoryId :: OthersFor(q, targets, bad, u) ==> u <= t)
  }

  lemma GoesIs(q: Assignments, targets: seq<TerritoryId>, bad: set<TerritoryId>, here: set<NobleId>, n: NobleId, t: TerritoryId)
    ensures var sent := Sent(ClearEscorts(q, ClearTargets(targets, bad)), here);
            t in sent && n in sent[t] <==> GoesTo(q, targets, bad, here, n, t)
  {
    var left := ClearEscorts(q, ClearTargets(targets, bad));
    assert forall u :: u in left ==> left[u] == q[u];
    forall u ensures NamedFor(q, targets, bad, u, n) <==> u in left && n in NamesIn(left[u]) {
      if u in left && n in NamesIn(left[u]) { assert Named(n) in left[u]; }
    }
    NamesAtIs(left, n);
    assert forall u: TerritoryId :: OthersFor(q, targets, bad, u) <==> u in left && AllOthers in left[u];
    if t in left {
      assert IsForOthers(left, left.Keys, t) <==>
               OthersFor(q, targets, bad, t) && forall u: TerritoryId :: OthersFor(q, targets, bad, u) ==> u <= t;
      assert n in SentTo(left, here, t) <==> GoesTo(q, targets, bad, here, n, t);
    }
  }

  lemma NamesAtIs(left: Assignments, n: NobleId)
    ensures n in NamesAt(left, left.Keys) <==> exists u :: u in left && n in NamesIn(left[u])
  {
    if n in NamesAt(left, left.Keys) {
      var u, e :| u in left.Keys && u in left && e in left[u] && e.Named? && e.noble == n;
      assert n in NamesIn(left[u]);
    }
    if u :| u in left && n in NamesIn(left[u]) {
      var e :| e in left[u] && e.Named? && e.noble == n;
      assert u in left.Keys;
    }
  }

  ghost function NoblesHere(b: Start, t: TerritoryId): set<NobleId>
  {
    if t in b.nobles then b.nobles[t] else {}
  }

  /** A dispersion is given by its order: the targets in good weather as named, and who goes where. */
  ghost predicate IsGivenBy(b: Start, t: TerritoryId, order: Order, d: Disperse)
    requires order.DisperseOrder?
  {
    && d.source == t && d.loop == order.loop && d.nobles == NoblesHere(b, t)
    && IsClearOf(d.targets, order.targets, b.badWeather)
    && (forall u :: u in d.assignments ==> d.assignments[u] != {})
    && forall u, n :: u in d.assignments && n in d.assignments[u] <==>
         GoesTo(order.assignments, order.targets, b.badWeather, NoblesHere(b, t), n, u)
  }

  /**
   An army disperses exactly when it is ordered to, in good weather where it stands and at one
   target at least, no attack is directed at its place, and the nobles it names fit.
   */
  lemma DisperseIff(i: Intents, a: ArmyId)
    requires i.Given() && i.Complete() && Prepared(i.Result())
    ensures a in i.disperses <==>
              && Starts(i.b, i.orders, a) && i.orders[a].order.DisperseOrder? && Quiet(i.attacks, i.b.armies[a].territory)
              && (exists t :: t in i.orders[a].order.targets && t !in i.b.badWeather)
              && EscortsFit(i.orders[a].order.assignments, i.orders[a].order.targets, i.b.badWeather, NoblesHere(i.b, i.b.armies[a].territory))
    ensures a in i.disperses ==> IsGivenBy(i.b, i.b.armies[a].territory, i.orders[a].order, i.disperses[a])
  {
    if a in i.orders && i.orders[a].order.DisperseOrder? && a in i.b.armies {
      DisperseOfIs(i.b, i.orders, a);
    }
  }

  lemma DisperseOfIs(b: Start, orders: map<ArmyId, Command>, a: ArmyId)
    requires a in b.armies && a in orders && orders[a].order.DisperseOrder?
    ensures DisperseOf(b, orders, a).Some? <==>
              && Starts(b, orders, a) && (exists t :: t in orders[a].order.targets && t !in b.badWeather)
              && EscortsFit(orders[a].order.assignments, orders[a].order.targets, b.badWeather, NoblesHere(b, b.armies[a].territory))
    ensures DisperseOf(b, orders, a).Some? ==> IsGivenBy(b, b.armies[a].territory, orders[a].order, DisperseOf(b, orders, a).value)
  {
    var order, t := orders[a].order, b.armies[a].territory;
    FitIs(order.assignments, order.targets, b.badWeather, NoblesAt(b, t));
    ClearIs(order.targets, b.badWeather);
    var left := ClearTargets(order.targets, b.badWeather);
    assert left != [] <==> exists u :: u in order.targets && u !in b.badWeather by {
      if left != [] { assert left[0] in left; }
    }
    forall u, n
      ensures var sent := Sent(ClearEscorts(order.assignments, left), NoblesAt(b, t));
              u in sent && n in sent[u] <==> GoesTo(order.assignments, order.targets, b.badWeather, NoblesAt(b, t), n, u)
    {
      GoesIs(order.assignments, order.targets, b.badWeather, NoblesAt(b, t), n, u);
    }
  }
}
