/**
 From the orders of a turn to the intents the adjudicator receives: the orders
 are enumerated, joins and dispersions from attacked origins are cancelled, and
 the supports that apply are found.
 */
module Intentions {
  import opened Wrappers
  import opened SortedIds
  import opened Turn
  import opened Escorts

  datatype Order =
    | AttackOrder(target: TerritoryId)
    | JoinOrder(target: TerritoryId)
    | DisperseOrder(targets: seq<TerritoryId>, loop: bool, assignments: Assignments)
    | SupportOrder(supported: TerritoryId, destination: Option<TerritoryId>)
    | HoldOrder

  /** The current order of an army's chain, and where it was given to be carried out. */
  datatype Command = Command(position: TerritoryId, order: Order)

  /** The start of the turn. */
  datatype Start = Start(
    armies: map<ArmyId, Army>,
    armyAt: map<TerritoryId, ArmyId>,
    nobles: map<TerritoryId, set<NobleId>>,
    famished: set<ArmyId>,
    tunneled: set<ArmyId>,
    fortification: map<TerritoryId, nat>,
    command: map<ArmyId, nat>,
    controller: map<TerritoryId, PlayerId>,
    badWeather: set<TerritoryId>)   // the territories of the regions it strikes

  /** One army per territory, each of at least one troop. */
  ghost predicate IsStart(b: Start)
  {
    && (forall a :: a in b.armies ==>
          b.armies[a].size >= 1 && b.armies[a].territory in b.armyAt && b.armyAt[b.armies[a].territory] == a)
    && (forall t :: t in b.armyAt ==> b.armyAt[t] in b.armies && b.armies[b.armyAt[t]].territory == t)
  }

  /** Static validation has rejected attacks and joins toward the army's own place. */
  ghost predicate Validated(orders: map<ArmyId, Command>)
  {
    forall a :: a in orders ==>
      match orders[a].order
      case AttackOrder(t) => t != orders[a].position
      case JoinOrder(t) => t != orders[a].position
      case _ => true
  }

  /** The army's order is carried out from where it stands. */
  predicate IsPlaced(b: Start, orders: map<ArmyId, Command>, a: ArmyId)
  {
    a in b.armies && a in orders && orders[a].position == b.armies[a].territory
  }

  /** The places an order names. */
  function PlacesOf(order: Order): set<TerritoryId>
  {
    match order
    case AttackOrder(t) => {t}
    case JoinOrder(t) => {t}
    case DisperseOrder(targets, _, _) => set t | t in targets
    case SupportOrder(supported, Some(d)) => {supported, d}
    case SupportOrder(supported, None) => {supported}
    case HoldOrder => {}
  }

  /** Bad weather where the army stands or where its order leads. */
  predicate IsStopped(b: Start, at: TerritoryId, order: Order)
  {
    at in b.badWeather || PlacesOf(order) * b.badWeather != {}
  }

  /** The army's order is carried out from where it stands, in good weather throughout. */
  predicate IsCarriedOut(b: Start, orders: map<ArmyId, Command>, a: ArmyId)
  {
    IsPlaced(b, orders, a) && !IsStopped(b, b.armies[a].territory, orders[a].order)
  }

  function AttackOf(b: Start, orders: map<ArmyId, Command>, a: ArmyId): Option<Attack>
  {
    if IsCarriedOut(b, orders, a) && orders[a].order.AttackOrder? && a !in b.famished
    then Some(Attack(b.armies[a].territory, orders[a].order.target, b.armies[a].size)) else None
  }

  function JoinOf(b: Start, orders: map<ArmyId, Command>, a: ArmyId): Option<Join>
  {
    if IsCarriedOut(b, orders, a) && orders[a].order.JoinOrder?
    then Some(Join(b.armies[a].territory, orders[a].order.target)) else None
  }

  /** The targets in good weather, in the order given. */
  function ClearTargets(targets: seq<TerritoryId>, bad: set<TerritoryId>): (q: seq<TerritoryId>)
    ensures forall t :: t in q <==> t in targets && t !in bad
  {
    if targets == [] then []
    else ClearTargets(targets[..|targets| - 1], bad) + if targets[|targets| - 1] in bad then [] else [targets[|targets| - 1]]
  }

  /** The nobles sent to the targets left. */
  function ClearEscorts(q: Assignments, targets: seq<TerritoryId>): Assignments
  {
    map t | t in q && t in targets :: q[t]
  }

  function NoblesAt(b: Start, t: TerritoryId): set<NobleId>
  {
    if t in b.nobles then b.nobles[t] else {}
  }

  /** A dispersion loses the targets in bad weather, with the nobles it sends there; the nobles left must be there, each named once. */
  ghost function DisperseOf(b: Start, orders: map<ArmyId, Command>, a: ArmyId): Option<Disperse>
  {
    if IsPlaced(b, orders, a) && orders[a].order.DisperseOrder? then
      var order := orders[a].order;
      var t := b.armies[a].territory;
      var targets := ClearTargets(order.targets, b.badWeather);
      var escorts := ClearEscorts(order.assignments, targets);
      if t in b.badWeather || targets == [] || !IsValid(escorts, NoblesAt(b, t)) then None
      else Some(Disperse(t, targets, order.loop, Sent(escorts, NoblesAt(b, t)), NoblesAt(b, t)))
    else None
  }

  ghost predicate Holding<T(!new)>(m: map<ArmyId, T>, of: ArmyId -> Option<T>, seen: set<ArmyId>)
  {
    forall a :: (a in m <==> a in seen && of(a).Some?) && (a in m ==> of(a) == Some(m[a]))
  }

  lemma HoldingNext<T(!new)>(m: map<ArmyId, T>, of: ArmyId -> Option<T>, seen: set<ArmyId>, a: ArmyId)
    requires Holding(m, of, seen) && a !in seen
    ensures Holding(if of(a).Some? then m[a := of(a).value] else m, of, seen + {a})
  {
  }

  /** The intents seen that leave an attacked origin are gone, the others are as they were. */
  ghost predicate Cancelling<T(!new)>(start: map<ArmyId, T>, origin: T -> TerritoryId, attacked: set<TerritoryId>, seen: set<ArmyId>,
                                now: map<ArmyId, T>, gone: set<ArmyId>)
  {
    forall a ::
      && (a in gone <==> a in start && a in seen && origin(start[a]) in attacked)
      && (a in now <==> a in start && a !in gone)
      && (a in now ==> now[a] == start[a])
  }

  lemma CancellingEnds<T(!new)>(start: map<ArmyId, T>, origin: T -> TerritoryId, attacked: set<TerritoryId>, now: map<ArmyId, T>, gone: set<ArmyId>)
    requires Cancelling(start, origin, attacked, start.Keys, now, gone)
    ensures now == map a | a in start && origin(start[a]) !in attacked :: start[a]
    ensures gone == set a | a in start && origin(start[a]) in attacked
  {
  }

  /** Withdraws the intents whose origin is attacked. */
  method Cancel<T(!new)>(start: map<ArmyId, T>, origin: T -> TerritoryId, attacked: set<TerritoryId>)
    returns (now: map<ArmyId, T>, gone: set<ArmyId>)
    ensures now == map a | a in start && origin(start[a]) !in attacked :: start[a]
    ensures gone == set a | a in start && origin(start[a]) in attacked
  {
    var order := Sorted(start.Keys);
    VisitedAll(start.Keys);
    now, gone := start, {};
    var i := 0;
    while i < |order|
      invariant i <= |order| && Cancelling(start, origin, attacked, Visited(order, i), now, gone)
    {
      var a := order[i];
      VisitNext(order, i);
      if origin(start[a]) in attacked {
        gone := gone + {a};
        now := now - {a};
      }
      i := i + 1;
    }
    CancellingEnds(start, origin, attacked, now, gone);
  }

  class Intents {
    const b: Start
    const orders: map<ArmyId, Command>
    var attacks: map<ArmyId, Attack>
    var joins: map<ArmyId, Join>
    var disperses: map<ArmyId, Disperse>
    var supports: map<ArmyId, Support>
    var cancelled: set<ArmyId>

    constructor (b: Start, orders: map<ArmyId, Command>)
      ensures this.b == b && this.orders == orders && attacks == map[] && joins == map[] && disperses == map[]
      ensures supports == map[] && cancelled == {}
    {
      this.b, this.orders := b, orders;
      attacks, joins, disperses, supports, cancelled := map[], map[], map[], map[], {};
    }

    /** The turn as the adjudicator sees it. */
    function Result(): Context
      reads this
    {
      Context(b.armies, b.armyAt, attacks, joins, disperses, supports, b.famished, b.tunneled, b.fortification, b.command, b.controller)
    }

    /** The intents of the armies seen. */
    ghost predicate Enumerated(seen: set<ArmyId>)
      reads this
    {
      && Holding(attacks, a => AttackOf(b, orders, a), seen)
      && Holding(joins, a => JoinOf(b, orders, a), seen)
      && Holding(disperses, a => DisperseOf(b, orders, a), seen)
    }

    /** Turns every order carried out from the right place into an intent. */
    method EnumerateIntentions()
      requires attacks == map[] && joins == map[] && disperses == map[]
      modifies this`attacks, this`joins, this`disperses
      ensures Enumerated(b.armies.Keys)
    {
      var order := Sorted(b.armies.Keys);
      VisitedAll(b.armies.Keys);
      var i := 0;
      while i < |order|
        invariant i <= |order| && Enumerated(Visited(order, i))
      {
        VisitNext(order, i);
        EnumerateOrder(order[i], Visited(order, i));
        i := i + 1;
      }
    }

    method EnumerateOrder(a: ArmyId, ghost seen: set<ArmyId>)
      requires a in b.armies && a !in seen && Enumerated(seen)
      modifies this`attacks, this`joins, this`disperses
      ensures Enumerated(seen + {a})
    {
      HoldingNext(attacks, x => AttackOf(b, orders, x), seen, a);
      HoldingNext(joins, x => JoinOf(b, orders, x), seen, a);
      HoldingNext(disperses, x => DisperseOf(b, orders, x), seen, a);
      if a !in orders { return; }
      var army, command := b.armies[a], orders[a];
      if command.position != army.territory { return; }
      if !command.order.DisperseOrder? && IsStopped(b, army.territory, command.order) { return; }
      match command.order {
        case AttackOrder(t) =>
          if a in b.famished { return; }
          attacks := attacks[a := Attack(army.territory, t, army.size)];
        case JoinOrder(t) =>
          joins := joins[a := Join(army.territory, t)];
        case DisperseOrder(targets, loop, assignments) =>
          EnumerateDisperse(a, army.territory, targets, loop, assignments);
        case SupportOrder(_, _) =>
        case HoldOrder =>
      }
    }

    method FilterTargets(targets: seq<TerritoryId>) returns (left: seq<TerritoryId>)
      ensures left == ClearTargets(targets, b.badWeather)
    {
      left := [];
      var i := 0;
      while i < |targets|
        invariant i <= |targets| && left == ClearTargets(targets[..i], b.badWeather)
      {
        assert targets[..i + 1][..i] == targets[..i];
        if targets[i] !in b.badWeather { left := left + [targets[i]]; }
        i := i + 1;
      }
      assert targets[..i] == targets;
    }

    /** The intent of a dispersion given from t, if it is valid. */
    method EnumerateDisperse(a: ArmyId, t: TerritoryId, targets: seq<TerritoryId>, loop: bool, assignments: Assignments)
      requires IsPlaced(b, orders, a) && t == b.armies[a].territory && orders[a].order == DisperseOrder(targets, loop, assignments)
      modifies this`disperses
      ensures disperses == if DisperseOf(b, orders, a).Some? then old(disperses)[a := DisperseOf(b, orders, a).value] else old(disperses)
    {
      var left := FilterTargets(targets);
      if t in b.badWeather || left == [] { return; }
      var sent := ValidateDisperse(ClearEscorts(assignments, left), NoblesAt(b, t));
      if sent.Some? {
        disperses := disperses[a := Disperse(t, left, loop, sent.value, NoblesAt(b, t))];
      }
    }

    // ---------- cancelAttackedOriginPeaceful

    /** The territories some attack is directed at, whoever gave it and whatever becomes of it. */
    ghost function AttackTargets(): set<TerritoryId>
      reads this`attacks
    {
      set a | a in attacks :: attacks[a].target
    }

    method AttackedOrigins() returns (attacked: set<TerritoryId>)
      ensures attacked == AttackTargets()
    {
      var order := Sorted(attacks.Keys);
      VisitedAll(attacks.Keys);
      attacked := {};
      var i := 0;
      while i < |order|
        invariant i <= |order| && attacked == set a | a in Visited(order, i) && a in attacks :: attacks[a].target
      {
        VisitNext(order, i);
        attacked := attacked + {attacks[order[i]].target};
        i := i + 1;
      }
    }

    /** Every join or dispersion whose origin is attacked is withdrawn, and no other. */
    method CancelAttackedOriginPeaceful()
      requires cancelled == {}
      modifies this`joins, this`disperses, this`cancelled
      ensures joins == map a | a in old(joins) && old(joins)[a].source !in AttackTargets() :: old(joins)[a]
      ensures disperses == map a | a in old(disperses) && old(disperses)[a].source !in AttackTargets() :: old(disperses)[a]
      ensures forall a :: a in cancelled <==>
                (a in old(joins) && old(joins)[a].source in AttackTargets())
                || (a in old(disperses) && old(disperses)[a].source in AttackTargets())
    {
      var attacked := AttackedOrigins();
      var goneJoins, goneDisperses;
      joins, goneJoins := Cancel(joins, (j: Join) => j.source, attacked);
      disperses, goneDisperses := Cancel(disperses, (d: Disperse) => d.source, attacked);
      cancelled := goneJoins + goneDisperses;
    }

    // ---------- calculateSupports

    function TargetArmy(t: TerritoryId): Option<ArmyId>
    {
      if t in b.armyAt then Some(b.armyAt[t]) else None
    }

    /** The support an army gives, and whether the army it names attacks where it says, or holds. */
    function SupportOf(a: ArmyId): Option<Support>
      reads this`attacks
    {
      if IsCarriedOut(b, orders, a) && orders[a].order.SupportOrder? then
        var supported, destination := orders[a].order.supported, orders[a].order.destination;
        var target := TargetArmy(supported);
        var applies :=
          match destination
          case Some(d) => target.Some? && target.value in attacks && attacks[target.value].target == d
          case None => target.Some? && target.value !in attacks;
        Some(Support(orders[a].position, supported, target, destination, applies))
      else None
    }

    /** The supports of the armies seen. */
    ghost predicate Calculated(seen: set<ArmyId>)
      reads this
    {
      forall a :: (a in supports <==> a in seen && SupportOf(a).Some?) && (a in supports ==> SupportOf(a) == Some(supports[a]))
    }

    method CalculateSupports()
      requires supports == map[]
      modifies this`supports
      ensures Calculated(b.armies.Keys)
    {
      var order := Sorted(b.armies.Keys);
      VisitedAll(b.armies.Keys);
      var i := 0;
      while i < |order|
        invariant i <= |order| && Calculated(Visited(order, i))
      {
        VisitNext(order, i);
        CalculateSupport(order[i], Visited(order, i));
        i := i + 1;
      }
    }

    method CalculateSupport(a: ArmyId, ghost seen: set<ArmyId>)
      requires a in b.armies && a !in seen && Calculated(seen)
      modifies this`supports
      ensures Calculated(seen + {a})
    {
      if !IsCarriedOut(b, orders, a) || !orders[a].order.SupportOrder? { return; }
      var given := orders[a].order;
      var target := TargetArmy(given.supported);
      var applies := false;
      if given.destination.Some? {
        applies := target.Some? && target.value in attacks && attacks[target.value].target == given.destination.value;
      } else {
        applies := target.Some? && target.value !in attacks;
      }
      supports := supports[a := Support(orders[a].position, given.supported, target, given.destination, applies)];
    }

    // ---------- the turn the adjudicator receives

    /** Every intent is the one its army's order calls for. */
    ghost predicate Given()
      reads this
    {
      && IsStart(b) && Validated(orders)
      && (forall a :: a in attacks ==> a in b.armies && AttackOf(b, orders, a) == Some(attacks[a]))
      && (forall a :: a in joins ==> JoinOf(b, orders, a) == Some(joins[a]))
      && (forall a :: a in disperses ==> DisperseOf(b, orders, a) == Some(disperses[a]))
      && (forall a :: a in supports ==> SupportOf(a) == Some(supports[a]))
    }

    lemma AttackGiven(a: ArmyId)
      requires Given() && a in attacks
      ensures a in b.armies && attacks[a].source == b.armies[a].territory && attacks[a].target != attacks[a].source
      ensures attacks[a].size == b.armies[a].size && a !in b.famished && a !in joins && a !in disperses && a !in supports
    {
    }

    lemma JoinGiven(a: ArmyId)
      requires Given() && a in joins
      ensures a in b.armies && joins[a].source == b.armies[a].territory && joins[a].target != joins[a].source
      ensures a !in disperses && a !in supports
    {
    }

    lemma DisperseGiven(a: ArmyId)
      requires Given() && a in disperses
      ensures a in b.armies && disperses[a].source == b.armies[a].territory && a !in supports
    {
    }

    lemma SupportGiven(a: ArmyId)
      requires Given() && a in supports
      ensures a in b.armies && supports[a].source == b.armies[a].territory && supports[a].targetArmy == TargetArmy(supports[a].supported)
      ensures supports[a].applies <==>
                supports[a].targetArmy.Some? &&
                match supports[a].destination
                case Some(d) => supports[a].targetArmy.value in attacks && attacks[supports[a].targetArmy.value].target == d
                case None => supports[a].targetArmy.value !in attacks
    {
    }

    /** No intent leaves from bad weather or leads into it. */
    lemma FairWeather(a: ArmyId)
      requires Given() && (a in attacks || a in joins || a in disperses || a in supports)
      ensures a in attacks ==> attacks[a].source !in b.badWeather && attacks[a].target !in b.badWeather
      ensures a in joins ==> joins[a].source !in b.badWeather && joins[a].target !in b.badWeather
      ensures a in disperses ==>
                disperses[a].source !in b.badWeather && disperses[a].targets != [] && forall t :: t in disperses[a].targets ==> t !in b.badWeather
      ensures a in supports ==>
                supports[a].source !in b.badWeather && supports[a].supported !in b.badWeather
                && (supports[a].destination.Some? ==> supports[a].destination.value !in b.badWeather)
    {
      var shared := PlacesOf(orders[a].order) * b.badWeather;
      if a in attacks { assert attacks[a].target !in shared; }
      if a in joins { assert joins[a].target !in shared; }
      if a in supports {
        assert supports[a].supported !in shared;
        assert supports[a].destination.Some? ==> supports[a].destination.value !in shared;
      }
    }

    /** A dispersion takes along only nobles who are there, each to one of its targets. */
    lemma EscortsThere(a: ArmyId, t: TerritoryId, u: TerritoryId)
      requires Given() && a in disperses && t in disperses[a].assignments && u in disperses[a].assignments
      ensures t in disperses[a].targets && disperses[a].assignments[t] != {} && disperses[a].assignments[t] <= disperses[a].nobles
      ensures t != u ==> disperses[a].assignments[t] !! disperses[a].assignments[u]
    {
      var targets := ClearTargets(orders[a].order.targets, b.badWeather);
      SentOnce(ClearEscorts(orders[a].order.assignments, targets), NoblesAt(b, b.armies[a].territory), t, u);
    }

    lemma ResultWellFormed()
      requires Given()
      ensures WellFormed(Result()) && SupportsCalculated(Result())
    {
      var c := Result();
      assert IsStart(b);
      forall a | a in c.attacks
        ensures a in c.armies && c.attacks[a].source == c.armies[a].territory && c.attacks[a].target != c.attacks[a].source
        ensures c.attacks[a].size == c.armies[a].size && a !in c.famished && !IsPeaceful(c, a) && a !in c.supports
      {
        AttackGiven(a);
      }
      forall a | a in c.joins
        ensures a in c.armies && c.joins[a].source == c.armies[a].territory && c.joins[a].target != c.joins[a].source
        ensures a !in c.disperses && a !in c.supports
      {
        JoinGiven(a);
      }
      forall a | a in c.disperses ensures a in c.armies && c.disperses[a].source == c.armies[a].territory && a !in c.supports {
        DisperseGiven(a);
      }
      SupportsGiven();
    }

    lemma SupportsGiven()
      requires Given()
      ensures SupportsCalculated(Result())
      ensures forall a :: a in supports ==> a in b.armies && supports[a].source == b.armies[a].territory
    {
      forall a | a in supports
        ensures a in b.armies && supports[a].source == b.armies[a].territory
        ensures supports[a].targetArmy == OccupantAt(Result(), supports[a].supported)
        ensures supports[a].applies <==>
                  supports[a].targetArmy.Some? &&
                  match supports[a].destination
                  case Some(d) => supports[a].targetArmy.value in attacks && attacks[supports[a].targetArmy.value].target == d
                  case None => supports[a].targetArmy.value !in attacks
      {
        SupportGiven(a);
      }
    }

    lemma ResultUncontested()
      requires forall a :: a in joins ==> joins[a].source !in AttackTargets()
      requires forall a :: a in disperses ==> disperses[a].source !in AttackTargets()
      ensures NoAttackedOrigin(Result())
    {
    }

    /** No order is lost, but joins and dispersions from attacked origins. */
    ghost predicate Complete()
      reads this
    {
      forall a :: a in b.armies ==>
        && (AttackOf(b, orders, a).Some? ==> a in attacks)
        && (JoinOf(b, orders, a).Some? && b.armies[a].territory !in AttackTargets() ==> a in joins)
        && (DisperseOf(b, orders, a).Some? && b.armies[a].territory !in AttackTargets() ==> a in disperses)
        && (SupportOf(a).Some? ==> a in supports)
    }

    /** What the two first steps leave. */
    ghost predicate Withdrawn(allJoins: map<ArmyId, Join>, allDisperses: map<ArmyId, Disperse>)
      reads this
    {
      && Holding(attacks, a => AttackOf(b, orders, a), b.armies.Keys)
      && Holding(allJoins, a => JoinOf(b, orders, a), b.armies.Keys)
      && Holding(allDisperses, a => DisperseOf(b, orders, a), b.armies.Keys)
      && joins == (map a | a in allJoins && allJoins[a].source !in AttackTargets() :: allJoins[a])
      && disperses == map a | a in allDisperses && allDisperses[a].source !in AttackTargets() :: allDisperses[a]
    }

    lemma WithdrawnGiven(allJoins: map<ArmyId, Join>, allDisperses: map<ArmyId, Disperse>)
      requires Withdrawn(allJoins, allDisperses) && IsStart(b) && Validated(orders) && Calculated(b.armies.Keys)
      ensures Given()
    {
    }

    lemma WithdrawnComplete(allJoins: map<ArmyId, Join>, allDisperses: map<ArmyId, Disperse>)
      requires Withdrawn(allJoins, allDisperses) && Calculated(b.armies.Keys)
      ensures Complete()
    {
    }

    /** Whatever the orders, the adjudicator receives a prepared turn. */
    method Prepare()
      requires IsStart(b) && Validated(orders)
      requires attacks == map[] && joins == map[] && disperses == map[] && supports == map[] && cancelled == {}
      modifies this
      ensures Prepared(Result()) && Given() && Complete()
    {
      EnumerateIntentions();
      ghost var allJoins, allDisperses := joins, disperses;
      CancelAttackedOriginPeaceful();
      CalculateSupports();
      assert Withdrawn(allJoins, allDisperses);
      WithdrawnGiven(allJoins, allDisperses);
      WithdrawnComplete(allJoins, allDisperses);
      ResultWellFormed();
      ResultUncontested();
    }
  }
}
