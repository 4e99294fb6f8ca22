/**
 Retreats of dislodged armies: each takes the best empty place around it that no
 earlier one claimed, else an allied army, else a place already claimed; every
 place claimed twice destroys all who claimed it.
 */
module Retreats {
  import opened Wrappers
  import opened SortedIds
  import opened Turn

  /** An army driven out of its origin by an attack. */
  datatype Displaced = Displaced(army: ArmyId, owner: PlayerId, origin: TerritoryId, attackerOrigin: TerritoryId)

  /** The map after normal movement; `distance` is to the nearest settlement a player controls. */
  datatype Ground = Ground(
    neighbors: map<TerritoryId, set<TerritoryId>>,
    places: map<ArmyId, TerritoryId>,
    owners: map<ArmyId, PlayerId>,
    sizes: map<ArmyId, nat>,
    famished: set<ArmyId>,
    anchor: map<TerritoryId, PlayerId>,
    castleBlocks: set<TerritoryId>,
    attacked: set<TerritoryId>,
    distance: (PlayerId, TerritoryId) -> nat)

  function Occupied(g: Ground): set<TerritoryId>
  {
    set a | a in g.places :: g.places[a]
  }

  /** Neighbours of the origin, the attacker's own origin excepted. */
  function Around(g: Ground, e: Displaced): set<TerritoryId>
  {
    set t | e.origin in g.neighbors && t in g.neighbors[e.origin] && t != e.attackerOrigin
  }

  predicate IsAnchored(g: Ground, t: TerritoryId, owner: PlayerId)
  {
    t in g.anchor && g.anchor[t] == owner
  }

  /** Empty places anchored to the army's player. */
  function ControlledEmpty(g: Ground, e: Displaced): set<TerritoryId>
  {
    set t | t in Around(g, e) && t !in Occupied(g) && IsAnchored(g, t, e.owner)
  }

  /** The other empty places, not attacked this turn and without a castle in the way. */
  function EmptyOther(g: Ground, e: Displaced): set<TerritoryId>
  {
    set t | t in Around(g, e) && t !in Occupied(g) && !IsAnchored(g, t, e.owner) && t !in g.castleBlocks && t !in g.attacked
  }

  /** Armies of the same player next to the origin. */
  function FriendlyArmies(g: Ground, e: Displaced): set<ArmyId>
  {
    set a | a in g.places && g.places[a] in Around(g, e) && a in g.owners && g.owners[a] == e.owner
  }

  // ---------- the order of preference

  /** Nearer to a settlement of the player, then first by name. */
  predicate Before(g: Ground, owner: PlayerId, t: TerritoryId, u: TerritoryId)
  {
    g.distance(owner, t) < g.distance(owner, u) || (g.distance(owner, t) == g.distance(owner, u) && t <= u)
  }

  predicate IsBest(g: Ground, owner: PlayerId, s: set<TerritoryId>, t: TerritoryId)
  {
    t in s && forall u :: u in s ==> Before(g, owner, t, u)
  }

  lemma {:induction false} BestExists(g: Ground, owner: PlayerId, s: set<TerritoryId>) returns (t: TerritoryId)
    requires s != {}
    ensures IsBest(g, owner, s, t)
    decreases |s|
  {
    var first :| first in s;
    var rest := s - {first};
    if rest == {} {
      t := first;
      assert s == {first};
    } else {
      var u := BestExists(g, owner, rest);
      t := if Before(g, owner, first, u) then first else u;
      forall x | x in s ensures Before(g, owner, t, x) {
        if x != first { assert x in rest; }
      }
    }
  }

  lemma BestUnique(g: Ground, owner: PlayerId, s: set<TerritoryId>, t: TerritoryId, u: TerritoryId)
    requires IsBest(g, owner, s, t) && IsBest(g, owner, s, u)
    ensures t == u
  {
  }

  function Best(g: Ground, owner: PlayerId, s: set<TerritoryId>): (t: TerritoryId)
    requires s != {}
    ensures IsBest(g, owner, s, t)
  {
    assert exists t :: IsBest(g, owner, s, t) by { var t := BestExists(g, owner, s); }
    assert forall t, u :: IsBest(g, owner, s, t) && IsBest(g, owner, s, u) ==> t == u by {
      forall t, u | IsBest(g, owner, s, t) && IsBest(g, owner, s, u) ensures t == u { BestUnique(g, owner, s, t, u); }
    }
    var t :| t in s && IsBest(g, owner, s, t);
    t
  }

  /** A bucket in order of preference. */
  function Ranked(g: Ground, owner: PlayerId, s: set<TerritoryId>): (q: seq<TerritoryId>)
    ensures forall t :: t in q <==> t in s
    decreases |s|
  {
    if s == {} then [] else [Best(g, owner, s)] + Ranked(g, owner, s - {Best(g, owner, s)})
  }

  /** The first place of a ranked bucket that is not claimed is the best of those not claimed. */
  lemma {:induction false} FirstUnclaimed(g: Ground, owner: PlayerId, s: set<TerritoryId>, claimed: set<TerritoryId>, i: nat)
    requires i < |Ranked(g, owner, s)| && Ranked(g, owner, s)[i] !in claimed
    requires forall j :: 0 <= j < i ==> Ranked(g, owner, s)[j] in claimed
    ensures s - claimed != {} && Ranked(g, owner, s)[i] == Best(g, owner, s - claimed)
    decreases |s|
  {
    var q := Ranked(g, owner, s);
    var best := Best(g, owner, s);
    assert q[i] in q && q[i] in s - claimed;
    if i == 0 {
      assert IsBest(g, owner, s - claimed, best);
      BestUnique(g, owner, s - claimed, best, Best(g, owner, s - claimed));
    } else {
      assert q[0] in claimed;
      assert q[1..] == Ranked(g, owner, s - {best});
      FirstUnclaimed(g, owner, s - {best}, claimed, i - 1);
      assert s - {best} - claimed == s - claimed;
    }
  }

  /** Not starving first, then the smallest, then the nearest to a settlement, then by place. */
  predicate HostBefore(g: Ground, owner: PlayerId, a: ArmyId, b: ArmyId)
    requires a in g.places && b in g.places
  {
    var x, y := if a in g.sizes then g.sizes[a] else 0, if b in g.sizes then g.sizes[b] else 0;
    if (a in g.famished) != (b in g.famished) then a !in g.famished
    else if x != y then x < y
    else Before(g, owner, g.places[a], g.places[b])
  }

  predicate IsHost(g: Ground, owner: PlayerId, s: set<ArmyId>, a: ArmyId)
    requires s <= g.places.Keys
  {
    a in s && forall b :: b in s ==> HostBefore(g, owner, a, b)
  }

  /** Two armies never hold one place. */
  ghost predicate IsGround(g: Ground)
  {
    forall a, b :: a in g.places && b in g.places && g.places[a] == g.places[b] ==> a == b
  }

  lemma {:induction false} HostExists(g: Ground, owner: PlayerId, s: set<ArmyId>) returns (a: ArmyId)
    requires s != {} && s <= g.places.Keys
    ensures IsHost(g, owner, s, a)
    decreases |s|
  {
    var first :| first in s;
    var rest := s - {first};
    if rest == {} {
      a := first;
      assert s == {first};
    } else {
      var b := HostExists(g, owner, rest);
      a := if HostBefore(g, owner, first, b) then first else b;
      forall x | x in s ensures HostBefore(g, owner, a, x) {
        if x != first { assert x in rest; }
      }
    }
  }

  function BestHost(g: Ground, owner: PlayerId, s: set<ArmyId>): (a: ArmyId)
    requires IsGround(g) && s != {} && s <= g.places.Keys
    ensures IsHost(g, owner, s, a)
  {
    assert exists a :: IsHost(g, owner, s, a) by { var a := HostExists(g, owner, s); }
    var a :| a in s && IsHost(g, owner, s, a);
    a
  }

  // ---------- what each army chooses

  datatype Choice =
    | Settle(place: TerritoryId)    // an empty place nobody claimed before
    | Merge(host: ArmyId)           // an army of its player
    | Fallback(place: TerritoryId)  // the best place, although claimed
    | Nowhere

  function Choose(g: Ground, e: Displaced, claimed: set<TerritoryId>): Choice
    requires IsGround(g)
  {
    if ControlledEmpty(g, e) - claimed != {} then Settle(Best(g, e.owner, ControlledEmpty(g, e) - claimed))
    else if EmptyOther(g, e) - claimed != {} then Settle(Best(g, e.owner, EmptyOther(g, e) - claimed))
    else if FriendlyArmies(g, e) != {} then Merge(BestHost(g, e.owner, FriendlyArmies(g, e)))
    else if ControlledEmpty(g, e) != {} then Fallback(Best(g, e.owner, ControlledEmpty(g, e)))
    else if EmptyOther(g, e) != {} then Fallback(Best(g, e.owner, EmptyOther(g, e)))
    else Nowhere
  }

  predicate Claims(c: Choice, t: TerritoryId)
  {
    (c.Settle? || c.Fallback?) && c.place == t
  }

  function ClaimsOf(c: Choice): set<TerritoryId>
  {
    if c.Settle? || c.Fallback? then {c.place} else {}
  }

  /** The places claimed by some choices. */
  function Claimed(choices: seq<Choice>): set<TerritoryId>
  {
    if choices == [] then {} else Claimed(choices[..|choices| - 1]) + ClaimsOf(choices[|choices| - 1])
  }

  lemma {:induction false} ClaimedBy(choices: seq<Choice>, t: TerritoryId)
    ensures t in Claimed(choices) <==> exists i :: 0 <= i < |choices| && Claims(choices[i], t)
  {
    if choices != [] {
      var last := |choices| - 1;
      ClaimedBy(choices[..last], t);
      if t in Claimed(choices[..last]) {
        var i :| 0 <= i < last && Claims(choices[..last][i], t);
        assert Claims(choices[i], t);
      }
      if i :| 0 <= i < |choices| && Claims(choices[i], t) {
        if i < last { assert Claims(choices[..last][i], t); }
      }
    }
  }

  /** Every army chose after those before it. */
  ghost predicate AreChoices(g: Ground, entries: seq<Displaced>, choices: seq<Choice>)
    requires IsGround(g)
  {
    |choices| <= |entries| && forall i :: 0 <= i < |choices| ==> ChoseAt(g, entries, choices, i)
  }

  ghost predicate ChoseAt(g: Ground, entries: seq<Displaced>, choices: seq<Choice>, i: nat)
    requires IsGround(g) && i < |choices| <= |entries|
  {
    choices[i] == Choose(g, entries[i], Claimed(choices[..i]))
  }

  // ---------- what becomes of it

  datatype Fate = Relocated(place: TerritoryId) | Absorbed(host: ArmyId) | Destroyed(collision: bool)

  ghost predicate Collides(choices: seq<Choice>, i: nat)
    requires i < |choices|
  {
    exists j, t :: 0 <= j < |choices| && j != i && Claims(choices[i], t) && Claims(choices[j], t)
  }

  ghost function FateOf(choices: seq<Choice>, i: nat): Fate
    requires i < |choices|
  {
    match choices[i]
    case Nowhere => Destroyed(false)
    case Merge(host) => Absorbed(host)
    case Settle(t) => if Collides(choices, i) then Destroyed(true) else Relocated(t)
    case Fallback(t) => if Collides(choices, i) then Destroyed(true) else Relocated(t)
  }

  /** A settled place was empty and next to the origin, not the attacker's origin, and claimed by nobody before. */
  lemma SettleFacts(g: Ground, entries: seq<Displaced>, choices: seq<Choice>, i: nat)
    requires IsGround(g) && AreChoices(g, entries, choices) && i < |choices| && choices[i].Settle?
    ensures choices[i].place in Around(g, entries[i]) && choices[i].place !in Occupied(g)
    ensures forall j :: 0 <= j < i ==> !Claims(choices[j], choices[i].place)
  {
    assert ChoseAt(g, entries, choices, i);
    forall j | 0 <= j < i ensures !Claims(choices[j], choices[i].place) {
      ClaimedBy(choices[..i], choices[i].place);
      assert choices[..i][j] == choices[j];
    }
  }

  lemma SettledAlone(g: Ground, entries: seq<Displaced>, choices: seq<Choice>, i: nat, j: nat, t: TerritoryId)
    requires IsGround(g) && AreChoices(g, entries, choices) && i < j < |choices| && Claims(choices[i], t) && Claims(choices[j], t)
    ensures choices[j] == Fallback(t)
  {
    if choices[j].Settle? { SettleFacts(g, entries, choices, j); }
  }

  /** A fallback was claimed before, so it destroys its claimants. */
  lemma FallbackCollides(g: Ground, entries: seq<Displaced>, choices: seq<Choice>, i: nat)
    requires IsGround(g) && AreChoices(g, entries, choices) && i < |choices| && choices[i].Fallback?
    ensures exists j :: 0 <= j < i && Claims(choices[j], choices[i].place) && Collides(choices, i) && Collides(choices, j)
  {
    assert ChoseAt(g, entries, choices, i);
    var t := choices[i].place;
    assert t in Claimed(choices[..i]);
    ClaimedBy(choices[..i], t);
    var j :| 0 <= j < |choices[..i]| && Claims(choices[..i][j], t);
    assert choices[j] == choices[..i][j];
    assert Claims(choices[i], t) && Claims(choices[j], t);
  }

  /** An army that relocates found an empty place next to its origin, not its attacker's, that nobody else claimed. */
  lemma RelocationFacts(g: Ground, entries: seq<Displaced>, choices: seq<Choice>, i: nat)
    requires IsGround(g) && AreChoices(g, entries, choices) && i < |choices| && FateOf(choices, i).Relocated?
    ensures var t := FateOf(choices, i).place;
            && t in Around(g, entries[i]) && t !in Occupied(g)
            && (forall j :: 0 <= j < |choices| && j != i ==> !Claims(choices[j], t))
  {
    if choices[i].Fallback? {
      FallbackCollides(g, entries, choices, i);
    } else {
      SettleFacts(g, entries, choices, i);
      var t := choices[i].place;
      forall j | 0 <= j < |choices| && j != i ensures !Claims(choices[j], t) {
        assert Claims(choices[i], t);
      }
    }
  }

  /** An army merges only when every empty place open to it was claimed, into the first of its player's armies around. */
  lemma AbsorbedFacts(g: Ground, entries: seq<Displaced>, choices: seq<Choice>, i: nat)
    requires IsGround(g) && AreChoices(g, entries, choices) && i < |choices| && FateOf(choices, i).Absorbed?
    ensures var h := FateOf(choices, i).host;
            && h in g.places && h in g.owners && g.owners[h] == entries[i].owner && g.places[h] in Around(g, entries[i])
            && IsHost(g, entries[i].owner, FriendlyArmies(g, entries[i]), h)
    ensures forall t :: t in ControlledEmpty(g, entries[i]) + EmptyOther(g, entries[i]) ==>
              exists j :: 0 <= j < i && Claims(choices[j], t)
  {
    assert ChoseAt(g, entries, choices, i);
    forall t | t in ControlledEmpty(g, entries[i]) + EmptyOther(g, entries[i])
      ensures exists j :: 0 <= j < i && Claims(choices[j], t)
    {
      ClaimedBy(choices[..i], t);
      assert ControlledEmpty(g, entries[i]) - Claimed(choices[..i]) == {} && EmptyOther(g, entries[i]) - Claimed(choices[..i]) == {};
      assert t in Claimed(choices[..i]);
      var j :| 0 <= j < |choices[..i]| && Claims(choices[..i][j], t);
      assert choices[j] == choices[..i][j];
    }
  }

  /** Two armies that relocate go to different places. */
  lemma RelocationsApart(g: Ground, entries: seq<Displaced>, choices: seq<Choice>, i: nat, j: nat)
    requires IsGround(g) && AreChoices(g, entries, choices) && i < j < |choices|
    requires FateOf(choices, i).Relocated? && FateOf(choices, j).Relocated?
    ensures FateOf(choices, i).place != FateOf(choices, j).place
  {
    RelocationFacts(g, entries, choices, i);
    assert Claims(choices[j], FateOf(choices, j).place);
  }

  /** Exactly when an army is destroyed: it had nowhere to go, fell back, or settled where a later one fell back. */
  lemma DestroyedIff(g: Ground, entries: seq<Displaced>, choices: seq<Choice>, i: nat)
    requires IsGround(g) && AreChoices(g, entries, choices) && i < |choices|
    ensures FateOf(choices, i).Destroyed? <==>
              || choices[i].Nowhere? || choices[i].Fallback?
              || (choices[i].Settle? && exists j :: i < j < |choices| && choices[j] == Fallback(choices[i].place))
  {
    if choices[i].Fallback? { FallbackCollides(g, entries, choices, i); }
    if choices[i].Settle? {
      var t := choices[i].place;
      SettleFacts(g, entries, choices, i);
      if j :| i < j < |choices| && choices[j] == Fallback(t) {
        assert Claims(choices[i], t) && Claims(choices[j], t);
      }
      if Collides(choices, i) {
        var j, u :| 0 <= j < |choices| && j != i && Claims(choices[i], u) && Claims(choices[j], u);
        assert u == t && j > i;
        SettledAlone(g, entries, choices, i, j, t);
      }
    }
  }

  // ---------- executeRetreats

  /** The first place of a bucket nobody claimed, looked for in order of preference. */
  method FirstFree(g: Ground, owner: PlayerId, bucket: set<TerritoryId>, claims: map<TerritoryId, nat>, ghost claimed: set<TerritoryId>)
    returns (place: Option<TerritoryId>)
    requires claims.Keys == claimed
    ensures place == if bucket - claimed != {} then Some(Best(g, owner, bucket - claimed)) else None
  {
    var q := Ranked(g, owner, bucket);
    var i := 0;
    while i < |q|
      invariant i <= |q| && forall j :: 0 <= j < i ==> q[j] in claimed
    {
      if q[i] !in claims {
        FirstUnclaimed(g, owner, bucket, claimed, i);
        return Some(q[i]);
      }
      i := i + 1;
    }
    forall t | t in bucket ensures t in claimed {
      assert t in q;
    }
    assert bucket - claimed == {};
    return None;
  }

  method ChooseRetreat(g: Ground, e: Displaced, claims: map<TerritoryId, nat>, ghost claimed: set<TerritoryId>) returns (c: Choice)
    requires IsGround(g) && claims.Keys == claimed
    ensures c == Choose(g, e, claimed)
  {
    var controlled, others := ControlledEmpty(g, e), EmptyOther(g, e);
    var place := FirstFree(g, e.owner, controlled, claims, claimed);
    if place.Some? { return Settle(place.value); }
    place := FirstFree(g, e.owner, others, claims, claimed);
    if place.Some? { return Settle(place.value); }
    var friends := FriendlyArmies(g, e);
    if friends != {} { return Merge(BestHost(g, e.owner, friends)); }
    if controlled != {} { return Fallback(Best(g, e.owner, controlled)); }
    if others != {} { return Fallback(Best(g, e.owner, others)); }
    return Nowhere;
  }

  /** How many choices claim a place. */
  function CountClaims(choices: seq<Choice>, t: TerritoryId): nat
  {
    if choices == [] then 0
    else CountClaims(choices[..|choices| - 1], t) + if Claims(choices[|choices| - 1], t) then 1 else 0
  }

  lemma {:induction false} CountPositive(choices: seq<Choice>, t: TerritoryId)
    ensures CountClaims(choices, t) > 0 <==> t in Claimed(choices)
  {
    if choices != [] { CountPositive(choices[..|choices| - 1], t); }
  }

  /** A place counted at least twice is claimed by another choice too. */
  lemma {:induction false} CountOthers(choices: seq<Choice>, i: nat, t: TerritoryId)
    requires i < |choices| && Claims(choices[i], t)
    ensures CountClaims(choices, t) >= 2 <==> exists j :: 0 <= j < |choices| && j != i && Claims(choices[j], t)
  {
    var last := |choices| - 1;
    var rest := choices[..last];
    if i == last {
      CountPositive(rest, t);
      ClaimedBy(rest, t);
      if j :| 0 <= j < last && Claims(rest[j], t) { assert Claims(choices[j], t); }
      if j :| 0 <= j < |choices| && j != i && Claims(choices[j], t) { assert Claims(rest[j], t); }
    } else {
      CountOthers(rest, i, t);
      CountPositive(rest, t);
      ClaimedBy(rest, t);
      assert Claims(rest[i], t);
      if j :| 0 <= j < last && j != i && Claims(rest[j], t) { assert Claims(choices[j], t); }
      if j :| 0 <= j < |choices| && j != i && Claims(choices[j], t) {
        if j < last { assert Claims(rest[j], t); }
      }
    }
  }

  /** Plans the retreat of every army, in order, counting who claims what. */
  method PlanRetreats(g: Ground, entries: seq<Displaced>) returns (choices: seq<Choice>, claims: map<TerritoryId, nat>)
    requires IsGround(g)
    ensures |choices| == |entries| && AreChoices(g, entries, choices)
    ensures claims.Keys == Claimed(choices) && forall t :: t in claims ==> claims[t] == CountClaims(choices, t)
  {
    choices, claims := [], map[];
    while |choices| < |entries|
      invariant AreChoices(g, entries, choices)
      invariant claims.Keys == Claimed(choices) && forall t :: t in claims ==> claims[t] == CountClaims(choices, t)
    {
      var c := ChooseRetreat(g, entries[|choices|], claims, Claimed(choices));
      ghost var before := choices;
      choices := choices + [c];
      assert choices[..|before|] == before;
      forall i | 0 <= i < |choices| ensures ChoseAt(g, entries, choices, i) {
        if i < |before| { assert ChoseAt(g, entries, before, i) && choices[..i] == before[..i]; }
      }
      if c.Settle? || c.Fallback? {
        CountPositive(before, c.place);
        claims := claims[c.place := (if c.place in claims then claims[c.place] else 0) + 1];
      }
    }
  }

  /**
   Carries out the retreats. The armies that relocate and those already on the map
   hold pairwise different places, so the occupancy stays unique.
   */
  method ExecuteRetreats(g: Ground, entries: seq<Displaced>) returns (places: map<ArmyId, TerritoryId>, ghost choices: seq<Choice>)
    requires IsGround(g) && (forall i :: 0 <= i < |entries| ==> entries[i].army !in g.places)
    requires forall i, j :: 0 <= i < j < |entries| ==> entries[i].army != entries[j].army
    ensures |choices| == |entries| && AreChoices(g, entries, choices)
    ensures forall a :: a in g.places ==> a in places && places[a] == g.places[a]
    ensures forall i :: 0 <= i < |entries| ==>
              && (entries[i].army in places <==> FateOf(choices, i).Relocated?)
              && (entries[i].army in places ==> places[entries[i].army] == FateOf(choices, i).place)
    ensures forall a :: a in places && a !in g.places ==> exists i :: 0 <= i < |entries| && entries[i].army == a
    ensures forall a, b :: a in places && b in places && places[a] == places[b] ==> a == b
  {
    var plans, claims := PlanRetreats(g, entries);
    choices := plans;
    places := g.places;
    var i := 0;
    while i < |entries|
      invariant i <= |entries|
      invariant forall a :: a in g.places ==> a in places && places[a] == g.places[a]
      invariant forall j :: 0 <= j < |entries| ==>
                  && (entries[j].army in places <==> j < i && FateOf(choices, j).Relocated?)
                  && (entries[j].army in places ==> places[entries[j].army] == FateOf(choices, j).place)
      invariant forall a :: a in places && a !in g.places ==> exists j :: 0 <= j < i && entries[j].army == a
    {
      CollisionCounted(g, entries, plans, claims, i);
      if (plans[i].Settle? || plans[i].Fallback?) && claims[plans[i].place] < 2 {
        places := places[entries[i].army := plans[i].place];
      }
      i := i + 1;
    }
    forall a, b | a in places && b in places && places[a] == places[b] ensures a == b {
      PlacesApart(g, entries, choices, places, a, b);
    }
  }

  lemma CollisionCounted(g: Ground, entries: seq<Displaced>, choices: seq<Choice>, claims: map<TerritoryId, nat>, i: nat)
    requires i < |choices| && claims.Keys == Claimed(choices) && forall t :: t in claims ==> claims[t] == CountClaims(choices, t)
    ensures choices[i].Settle? || choices[i].Fallback? ==>
              choices[i].place in claims && (claims[choices[i].place] >= 2 <==> Collides(choices, i))
  {
    if choices[i].Settle? || choices[i].Fallback? {
      var t := choices[i].place;
      assert Claims(choices[i], t);
      ClaimedBy(choices, t);
      CountOthers(choices, i, t);
    }
  }

  lemma PlacesApart(g: Ground, entries: seq<Displaced>, choices: seq<Choice>, places: map<ArmyId, TerritoryId>, a: ArmyId, b: ArmyId)
    requires IsGround(g) && |choices| == |entries| && AreChoices(g, entries, choices)
    requires forall x :: x in g.places ==> x in places && places[x] == g.places[x]
    requires forall j :: 0 <= j < |entries| ==>
               && (entries[j].army in places <==> FateOf(choices, j).Relocated?)
               && (entries[j].army in places ==> places[entries[j].army] == FateOf(choices, j).place)
    requires forall x :: x in places && x !in g.places ==> exists j :: 0 <= j < |entries| && entries[j].army == x
    requires a in places && b in places && places[a] == places[b]
    ensures a == b
  {
    if a !in g.places && b !in g.places {
      var i :| 0 <= i < |entries| && entries[i].army == a;
      var j :| 0 <= j < |entries| && entries[j].army == b;
      if i < j { RelocationsApart(g, entries, choices, i, j); }
      if j < i { RelocationsApart(g, entries, choices, j, i); }
    } else if a !in g.places {
      var i :| 0 <= i < |entries| && entries[i].army == a;
      RelocationFacts(g, entries, choices, i);
    } else if b !in g.places {
      var j :| 0 <= j < |entries| && entries[j].army == b;
      RelocationFacts(g, entries, choices, j);
    }
  }
}
