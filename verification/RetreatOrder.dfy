/**
 Where each dislodged army turns, read off the map: its own land first, then other
 open land, then an army of its player, then land already claimed; and in each case the
 best of its kind.
 */
module RetreatOrder {
  import opened Turn
  import opened Retreats

  /** A place next to the army's origin, other than where its attacker came from, with nobody on it. */
  ghost predicate IsVacant(g: Ground, e: Displaced, t: TerritoryId)
  {
    && e.origin in g.neighbors && t in g.neighbors[e.origin] && t != e.attackerOrigin
    && forall a :: a in g.places ==> g.places[a] != t
  }

  /** Such a place anchored to the army's player. */
  ghost predicate OwnLand(g: Ground, e: Displaced, t: TerritoryId)
  {
    IsVacant(g, e, t) && t in g.anchor && g.anchor[t] == e.owner
  }

  /** Such a place that is not, which no attack was directed at and no castle blocks. */
  ghost predicate OpenLand(g: Ground, e: Displaced, t: TerritoryId)
  {
    IsVacant(g, e, t) && (t in g.anchor ==> g.anchor[t] != e.owner) && t !in g.attacked && t !in g.castleBlocks
  }

  /** An army of the same player next to the origin. */
  ghost predicate Friend(g: Ground, e: Displaced, h: ArmyId)
  {
    && h in g.places && h in g.owners && g.owners[h] == e.owner
    && e.origin in g.neighbors && g.places[h] in g.neighbors[e.origin] && g.places[h] != e.attackerOrigin
  }

  /** An army before the i-th made for the place. */
  ghost predicate Taken(choices: seq<Choice>, i: nat, t: TerritoryId)
    requires i <= |choices|
  {
    exists j :: 0 <= j < i && (choices[j] == Settle(t) || choices[j] == Fallback(t))
  }

  /** Nearer to a settlement of the player, or as near and first by name. */
  ghost predicate Nearer(g: Ground, p: PlayerId, t: TerritoryId, u: TerritoryId)
  {
    g.distance(p, t) < g.distance(p, u) || (g.distance(p, t) == g.distance(p, u) && t <= u)
  }

  ghost function Troops(g: Ground, a: ArmyId): nat
  {
    if a in g.sizes then g.sizes[a] else 0
  }

  /** Fed rather than starving, then smaller, then nearer. */
  ghost predicate Preferred(g: Ground, p: PlayerId, a: ArmyId, b: ArmyId)
    requires a in g.places && b in g.places
  {
    || (a !in g.famished && b in g.famished)
    || ((a in g.famished <==> b in g.famished) && Troops(g, a) < Troops(g, b))
    || ((a in g.famished <==> b in g.famished) && Troops(g, a) == Troops(g, b) && Nearer(g, p, g.places[a], g.places[b]))
  }

  lemma LandIs(g: Ground, e: Displaced, t: TerritoryId)
    ensures t in ControlledEmpty(g, e) <==> OwnLand(g, e, t)
    ensures t in EmptyOther(g, e) <==> OpenLand(g, e, t)
  {
    assert t in Occupied(g) <==> exists a :: a in g.places && g.places[a] == t;
  }

  lemma FriendIs(g: Ground, e: Displaced, h: ArmyId)
    ensures h in FriendlyArmies(g, e) <==> Friend(g, e, h)
  {
  }

  lemma TakenIs(choices: seq<Choice>, i: nat, t: TerritoryId)
    requires i <= |choices|
    ensures t in Claimed(choices[..i]) <==> Taken(choices, i, t)
  {
    ClaimedBy(choices[..i], t);
    if j :| 0 <= j < |choices[..i]| && Claims(choices[..i][j], t) { assert choices[j] == choices[..i][j]; }
    if j :| 0 <= j < i && (choices[j] == Settle(t) || choices[j] == Fallback(t)) { assert Claims(choices[..i][j], t); }
  }

  /** What the i-th army chooses, among what is left to it and what is not. */
  ghost predicate ChosenRight(g: Ground, e: Displaced, choices: seq<Choice>, i: nat)
    requires i < |choices|
  {
    match choices[i]
    case Settle(t) =>
      && !Taken(choices, i, t)
      && if OwnLand(g, e, t) then forall u :: OwnLand(g, e, u) && !Taken(choices, i, u) ==> Nearer(g, e.owner, t, u)
         else
           && OpenLand(g, e, t) && (forall u :: OwnLand(g, e, u) ==> Taken(choices, i, u))
           && forall u :: OpenLand(g, e, u) && !Taken(choices, i, u) ==> Nearer(g, e.owner, t, u)
    case Merge(h) =>
      && (forall u :: OwnLand(g, e, u) || OpenLand(g, e, u) ==> Taken(choices, i, u))
      && Friend(g, e, h) && forall b :: Friend(g, e, b) ==> Preferred(g, e.owner, h, b)
    case Fallback(t) =>
      && (forall u :: OwnLand(g, e, u) || OpenLand(g, e, u) ==> Taken(choices, i, u)) && (forall b :: !Friend(g, e, b))
      && if OwnLand(g, e, t) then forall u :: OwnLand(g, e, u) ==> Nearer(g, e.owner, t, u)
         else
           && OpenLand(g, e, t) && (forall u :: !OwnLand(g, e, u))
           && forall u :: OpenLand(g, e, u) ==> Nearer(g, e.owner, t, u)
    case Nowhere =>
      (forall u :: !OwnLand(g, e, u) && !OpenLand(g, e, u)) && forall b :: !Friend(g, e, b)
  }

  /** Every army chooses so. */
  lemma ChoiceRight(g: Ground, entries: seq<Displaced>, choices: seq<Choice>, i: nat)
    requires IsGround(g) && AreChoices(g, entries, choices) && i < |choices|
    ensures ChosenRight(g, entries[i], choices, i)
  {
    assert ChoseAt(g, entries, choices, i);
    var e := entries[i];
    forall t: TerritoryId
      ensures t in ControlledEmpty(g, e) <==> OwnLand(g, e, t)
      ensures t in EmptyOther(g, e) <==> OpenLand(g, e, t)
      ensures t in Claimed(choices[..i]) <==> Taken(choices, i, t)
    {
      LandIs(g, e, t);
      TakenIs(choices, i, t);
    }
    forall h: ArmyId ensures h in FriendlyArmies(g, e) <==> Friend(g, e, h) {
      FriendIs(g, e, h);
    }
    ChooseRight(g, e, choices, i, Claimed(choices[..i]));
  }

  lemma ChooseRight(g: Ground, e: Displaced, choices: seq<Choice>, i: nat, claimed: set<TerritoryId>)
    requires IsGround(g) && i < |choices| && choices[i] == Choose(g, e, claimed)
    requires forall t :: t in ControlledEmpty(g, e) <==> OwnLand(g, e, t)
    requires forall t :: t in EmptyOther(g, e) <==> OpenLand(g, e, t)
    requires forall t :: t in claimed <==> Taken(choices, i, t)
    requires forall h :: h in FriendlyArmies(g, e) <==> Friend(g, e, h)
    ensures ChosenRight(g, e, choices, i)
  {
    forall u: TerritoryId
      ensures OwnLand(g, e, u) && !Taken(choices, i, u) <==> u in ControlledEmpty(g, e) - claimed
      ensures OpenLand(g, e, u) && !Taken(choices, i, u) <==> u in EmptyOther(g, e) - claimed
      ensures OwnLand(g, e, u) ==> u in ControlledEmpty(g, e)
      ensures OpenLand(g, e, u) ==> u in EmptyOther(g, e)
    {
    }
    forall u: TerritoryId | OwnLand(g, e, u) ensures !OpenLand(g, e, u) {
    }
  }

  /**
   An army relocates to land of its player if it can, to the nearest not taken; to other
   land only when all its own was taken, and then to the nearest not taken that is neither
   attacked nor blocked by a castle.
   */
  lemma RelocatesInOrder(g: Ground, entries: seq<Displaced>, choices: seq<Choice>, i: nat)
    requires IsGround(g) && AreChoices(g, entries, choices) && i < |choices| && FateOf(choices, i).Relocated?
    ensures var e, t := entries[i], FateOf(choices, i).place;
            && !Taken(choices, i, t)
            && if OwnLand(g, e, t) then forall u :: OwnLand(g, e, u) && !Taken(choices, i, u) ==> Nearer(g, e.owner, t, u)
               else
                 && t !in g.attacked && t !in g.castleBlocks
                 && (forall u :: OwnLand(g, e, u) ==> Taken(choices, i, u))
                 && forall u :: OpenLand(g, e, u) && !Taken(choices, i, u) ==> Nearer(g, e.owner, t, u)
  {
    ChoiceRight(g, entries, choices, i);
    if choices[i].Fallback? { FallbackCollides(g, entries, choices, i); }
  }

  /** An army with open land around it that nobody took before settles. */
  lemma SettlesIff(g: Ground, entries: seq<Displaced>, choices: seq<Choice>, i: nat)
    requires IsGround(g) && AreChoices(g, entries, choices) && i < |choices|
    ensures choices[i].Settle? <==> exists t :: (OwnLand(g, entries[i], t) || OpenLand(g, entries[i], t)) && !Taken(choices, i, t)
    ensures choices[i].Merge? <==>
              && (forall t :: OwnLand(g, entries[i], t) || OpenLand(g, entries[i], t) ==> Taken(choices, i, t))
              && exists h :: Friend(g, entries[i], h)
  {
    ChoiceRight(g, entries, choices, i);
  }
}
