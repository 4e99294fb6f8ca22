/**
 The move equation read off a turn: who helps whom, what an army that stays defends
 with, and exactly when an attack moves, in terms of the armies, the orders and the
 decisions alone.
 */
module MoveEquation {
  import opened Wrappers
  import opened SortedIds
  import opened Turn
  import opened Ledger
  import opened Combat
  import opened Greatest

  // ---------- what each army is worth

  /** The troops of an army, and the bonus of the nobles commanding it if it is fed. */
  ghost function Might(c: Context): ArmyId -> int
  {
    (a: ArmyId) => (if a in c.armies then c.armies[a].size else 0) + (if a in c.command && a !in c.famished then c.command[a] else 0)
  }

  /** The same in defense: a famished army fights with the troops it can feed. */
  ghost function Resistance(c: Context, d: ArmyId): int
    requires d in c.armies
  {
    if d in c.famished then (if c.armies[d].starvingStrength < c.armies[d].size then c.armies[d].starvingStrength else c.armies[d].size)
    else c.armies[d].size + if d in c.command then c.command[d] else 0
  }

  ghost function Walls(c: Context, t: TerritoryId): nat
  {
    if t in c.fortification then c.fortification[t] else 0
  }

  /** No enemy attacks the supporter, but from the place its support is directed at. */
  ghost predicate Uncut(c: Context, s: ArmyId, exempt: TerritoryId)
    requires WellFormed(c) && s in c.armies
  {
    forall b :: b in c.attacks && c.attacks[b].target == c.armies[s].territory && c.attacks[b].source != exempt ==>
      c.armies[b].owner == c.armies[s].owner
  }

  /** The supporter is fed, uncut and not driven out. */
  ghost predicate Helps(c: Context, v: View, s: ArmyId, exempt: TerritoryId)
    requires WellFormed(c) && s in c.armies
  {
    s !in c.famished && !(Dislodged(s) in v && v[Dislodged(s)]) && Uncut(c, s, exempt)
  }

  /** The armies ordered to support the attack a makes, as it makes it, that help. */
  ghost function AttackBackers(c: Context, v: View, a: ArmyId): set<ArmyId>
    requires WellFormed(c) && a in c.attacks
  {
    set s | s in c.supports && c.supports[s].supported == c.armies[a].territory
            && c.supports[s].destination == Some(c.attacks[a].target) && Helps(c, v, s, c.attacks[a].target)
  }

  /** The armies ordered to support a where it stands that help; none if it attacks. */
  ghost function HoldBackers(c: Context, v: View, d: ArmyId): set<ArmyId>
    requires WellFormed(c) && d in c.armies
  {
    set s | s in c.supports && d !in c.attacks && c.supports[s].supported == c.armies[d].territory
            && c.supports[s].destination == None && Helps(c, v, s, c.armies[d].territory)
  }

  ghost function NotOf(c: Context, s: set<ArmyId>, p: PlayerId): set<ArmyId>
  {
    set a | a in s && a in c.armies && c.armies[a].owner != p
  }

  /** What an attack brings, in all. */
  ghost function FullForce(c: Context, v: View, a: ArmyId): int
    requires WellFormed(c) && a in c.attacks
  {
    Might(c)(a) + Sum(AttackBackers(c, v, a), Might(c))
  }

  /** What it brings against a player: that player's own armies give nothing. */
  ghost function ForceAgainst(c: Context, v: View, a: ArmyId, p: PlayerId): int
    requires WellFormed(c) && a in c.attacks
  {
    Might(c)(a) + Sum(NotOf(c, AttackBackers(c, v, a), p), Might(c))
  }

  /** The walls, the army and its supporters, as the attack a faces them. */
  ghost function DefenseAgainst(c: Context, v: View, d: ArmyId, a: ArmyId): int
    requires WellFormed(c) && d in c.armies
  {
    (if a in c.tunneled then 0 else Walls(c, c.armies[d].territory)) + Resistance(c, d) + Sum(HoldBackers(c, v, d), Might(c))
  }

  ghost predicate Said(v: View, d: Decision)
  {
    d in v && v[d]
  }

  /** The army is still on its origin: its attack, join or dispersion, if any, did not take it away. */
  ghost predicate Remains(c: Context, v: View, d: ArmyId)
  {
    if d in c.attacks then !Said(v, Move(d))
    else if d in c.joins || d in c.disperses then !Said(v, Departure(d))
    else true
  }

  /** The army on the destination of b attacks the place b comes from. */
  ghost predicate Opposes(c: Context, d: ArmyId, b: ArmyId)
    requires b in c.attacks
  {
    c.attacks[b].target in c.armyAt && c.armyAt[c.attacks[b].target] == d
    && d in c.attacks && c.attacks[d].target == c.attacks[b].source
  }

  /** Every attacker is of the player that controls the place. */
  ghost predicate FamiliarWalls(c: Context, t: TerritoryId)
    requires WellFormed(c)
  {
    t in c.controller && forall b :: b in c.attacks && c.attacks[b].target == t ==> c.armies[b].owner == c.controller[t]
  }

  /** Another attack on the destination was driven off by the army it met head-on, or is weaker. */
  ghost predicate Weaker(c: Context, v: View, b: ArmyId, strength: int)
    requires WellFormed(c) && b in c.attacks
  {
    || (exists d :: Opposes(c, d, b) && Said(v, Move(d)))
    || strength > FullForce(c, v, b)
  }

  /** The attack overcomes an army that stays. */
  ghost predicate Overcomes(c: Context, v: View, a: ArmyId, d: ArmyId)
    requires WellFormed(c) && a in c.attacks && d in c.armies
  {
    c.armies[d].owner != c.armies[a].owner && ForceAgainst(c, v, a, c.armies[d].owner) > DefenseAgainst(c, v, d, a)
  }

  /** Met head-on, the attack comes out ahead, neither side counting what the other's player gives. */
  ghost predicate WinsHeadOn(c: Context, v: View, a: ArmyId)
    requires WellFormed(c) && a in c.attacks
  {
    forall d: ArmyId :: Opposes(c, d, a) ==>
      c.armies[d].owner != c.armies[a].owner && ForceAgainst(c, v, a, c.armies[d].owner) > ForceAgainst(c, v, d, c.armies[a].owner)
  }

  /** Every other attack on the destination was driven off or is weaker. */
  ghost predicate Unrivalled(c: Context, v: View, a: ArmyId, strength: int)
    requires WellFormed(c) && a in c.attacks
  {
    forall b :: b in c.attacks && c.attacks[b].target == c.attacks[a].target && b != a ==> Weaker(c, v, b, strength)
  }

  /** Nobody stays on the destination: only walls that are not the attackers' own, nor tunneled, resist. */
  ghost predicate PassesWalls(c: Context, v: View, a: ArmyId)
    requires WellFormed(c) && a in c.attacks
  {
    var t := c.attacks[a].target;
    a in c.tunneled || FamiliarWalls(c, t) || Walls(c, t) == 0 || FullForce(c, v, a) > Walls(c, t)
  }

  /** The move equation. */
  ghost predicate MayMove(c: Context, v: View, a: ArmyId)
    requires WellFormed(c) && a in c.attacks
  {
    var t := c.attacks[a].target;
    && WinsHeadOn(c, v, a)
    && if t in c.armyAt && Remains(c, v, c.armyAt[t]) then
         Overcomes(c, v, a, c.armyAt[t]) && Unrivalled(c, v, a, ForceAgainst(c, v, a, c.armies[c.armyAt[t]].owner))
       else
         PassesWalls(c, v, a) && Unrivalled(c, v, a, FullForce(c, v, a))
  }

  // ---------- the adjudicated strengths are these

  lemma {:induction false} TotalIs(c: Context, order: seq<ArmyId>, counted: set<ArmyId>)
    requires Ascending(order) && forall s :: s in counted ==> s in order
    ensures Total(c, order, counted) == Sum(counted, Might(c))
    decreases |order|
  {
    if order == [] {
      assert counted == {};
    } else {
      var s := order[0];
      AscendingTail(order);
      assert forall x :: x in counted - {s} ==> x in order[1..];
      TotalIs(c, order[1..], counted - {s});
      SameTotal(c, order[1..], counted, s);
      if s in counted {
        SumWithout(counted, s, Might(c));
      } else {
        assert counted - {s} == counted;
      }
    }
  }

  lemma {:induction false} SameTotal(c: Context, order: seq<ArmyId>, counted: set<ArmyId>, s: ArmyId)
    requires s !in order
    ensures Total(c, order, counted) == Total(c, order, counted - {s})
  {
    if order != [] { SameTotal(c, order[1..], counted, s); }
  }

  lemma SupportTotalIs(c: Context, counted: set<ArmyId>)
    requires counted <= c.supports.Keys
    ensures SupportTotal(c, counted) == Sum(counted, Might(c))
  {
    TotalIs(c, Sorted(c.supports.Keys), counted);
  }

  /** The supports counted for an attack are those of the armies ordered to support it that help. */
  lemma AttackSupports(c: Context, v: View, a: ArmyId)
    requires Prepared(c) && a in c.attacks
    ensures CountedSupports(c, v, a, true) == AttackBackers(c, v, a)
  {
    forall s | s in c.supports
      ensures s in CountedSupports(c, v, a, true) <==> s in AttackBackers(c, v, a)
    {
      SupporterPlaced(c, s, a);
      if c.supports[s].destination == Some(c.attacks[a].target) { CutIs(c, s, c.attacks[a].target); }
    }
  }

  lemma HoldSupports(c: Context, v: View, d: ArmyId)
    requires Prepared(c) && d in c.armies
    ensures CountedSupports(c, v, d, false) == HoldBackers(c, v, d)
  {
    forall s | s in c.supports
      ensures s in CountedSupports(c, v, d, false) <==> s in HoldBackers(c, v, d)
    {
      SupporterPlaced(c, s, d);
      if c.supports[s].destination == None { CutIs(c, s, c.supports[s].supported); }
    }
  }

  lemma SupporterPlaced(c: Context, s: ArmyId, a: ArmyId)
    requires Prepared(c) && s in c.supports && a in c.armies
    ensures c.supports[s].targetArmy == Some(a) <==> c.supports[s].supported == c.armies[a].territory
  {
    if OccupantAt(c, c.supports[s].supported) == Some(a) { assert c.armyAt[c.supports[s].supported] == a; }
  }

  lemma CutIs(c: Context, s: ArmyId, exempt: TerritoryId)
    requires WellFormed(c) && s in c.supports && exempt == ExemptOrigin(c.supports[s])
    ensures StaticallyCut(c, s) <==> !Uncut(c, s, exempt)
  {
  }

  lemma FullForceIs(c: Context, v: View, a: ArmyId)
    requires Prepared(c) && a in c.attacks
    ensures AttackForce(c, v, a) == FullForce(c, v, a)
  {
    AttackSupports(c, v, a);
    BackersPlaced(c, v, a);
    SupportTotalIs(c, CountedSupports(c, v, a, true));
    assert c.attacks[a].size == c.armies[a].size;
  }

  lemma {:induction false} SumApart(s: set<ArmyId>, t: set<ArmyId>, w: ArmyId -> int)
    requires s !! t
    ensures Sum(s + t, w) == Sum(s, w) + Sum(t, w)
    decreases s
  {
    if s == {} {
      assert s + t == t;
    } else {
      var k := Least(s);
      SumWithout(s + t, k, w);
      assert s + t - {k} == (s - {k}) + t;
      SumApart(s - {k}, t, w);
    }
  }

  /** Leaving out a player's supports leaves those of the others. */
  lemma OthersTotal(c: Context, counted: set<ArmyId>, p: PlayerId)
    requires counted <= c.supports.Keys && counted <= c.armies.Keys
    ensures SupportTotal(c, counted) - SupportTotal(c, OwnedBy(c, counted, p)) == Sum(NotOf(c, counted, p), Might(c))
  {
    SideBySide(c, counted, p);
    SupportTotalIs(c, counted);
    SupportTotalIs(c, OwnedBy(c, counted, p));
    SumApart(OwnedBy(c, counted, p), NotOf(c, counted, p), Might(c));
  }

  lemma SideBySide(c: Context, counted: set<ArmyId>, p: PlayerId)
    requires counted <= c.armies.Keys
    ensures counted == OwnedBy(c, counted, p) + NotOf(c, counted, p) && OwnedBy(c, counted, p) !! NotOf(c, counted, p)
    ensures OwnedBy(c, counted, p) <= counted
  {
    forall a | a in counted ensures a in OwnedBy(c, counted, p) <==> a !in NotOf(c, counted, p) {
    }
  }

  lemma BackersPlaced(c: Context, v: View, a: ArmyId)
    requires WellFormed(c) && a in c.attacks
    ensures AttackBackers(c, v, a) <= c.supports.Keys && AttackBackers(c, v, a) <= c.armies.Keys
  {
  }

  lemma ForceAgainstIs(c: Context, v: View, a: ArmyId, p: PlayerId)
    requires Prepared(c) && a in c.attacks
    ensures OwnForce(c, v, a, p) == ForceAgainst(c, v, a, p)
  {
    FullForceIs(c, v, a);
    AttackSupports(c, v, a);
    BackersPlaced(c, v, a);
    var counted := CountedSupports(c, v, a, true);
    SupportTotalIs(c, counted);
    OthersTotal(c, counted, p);
  }

  /** An army without a join or a dispersion defends with all it has. */
  lemma ResistanceIs(c: Context, v: View, d: ArmyId)
    requires d in c.armies && !IsPeaceful(c, d)
    ensures DefendingSize(c, v, d) + NobleCommandBonus(c, d) == Resistance(c, d)
  {
  }

  lemma DefenseRead(c: Context, v: View, d: ArmyId, t: TerritoryId, a: ArmyId)
    ensures HoldStrengthAgainst(c, v, d, t, a)
         == (if a in c.tunneled then 0 else Walls(c, t)) + (DefendingSize(c, v, d) + NobleCommandBonus(c, d))
            + SupportTotal(c, CountedSupports(c, v, d, false))
  {
  }

  lemma DefenseIs(c: Context, v: View, d: ArmyId, a: ArmyId)
    requires Prepared(c) && a in c.attacks && d in c.armies && !IsPeaceful(c, d)
    ensures HoldStrengthAgainst(c, v, d, c.armies[d].territory, a) == DefenseAgainst(c, v, d, a)
  {
    ResistanceIs(c, v, d);
    DefenseRead(c, v, d, c.armies[d].territory, a);
    HoldSupports(c, v, d);
    SupportTotalIs(c, CountedSupports(c, v, d, false));
  }

  lemma RemainsIs(c: Context, v: View, d: ArmyId)
    ensures Stays(c, v, d) <==> Remains(c, v, d)
  {
  }

  /** The army that opposes an attack is the one on its destination. */
  lemma OpposedIs(c: Context, a: ArmyId, d: ArmyId)
    requires a in c.attacks
    ensures Opposes(c, d, a) <==> HeadToHead(c, a) && OccupantAt(c, c.attacks[a].target) == Some(d)
  {
  }

  lemma GhostIs(c: Context, v: View, b: ArmyId)
    requires b in c.attacks
    ensures RetiredGhost(c, v, b) <==> exists d: ArmyId :: Opposes(c, d, b) && Said(v, Move(d))
  {
    if RetiredGhost(c, v, b) {
      OpposedIs(c, b, OccupantAt(c, c.attacks[b].target).value);
    }
    if d: ArmyId :| Opposes(c, d, b) && Said(v, Move(d)) {
      OpposedIs(c, b, d);
    }
  }

  lemma WeakerIs(c: Context, v: View, b: ArmyId, strength: int)
    requires Prepared(c) && b in c.attacks
    ensures YieldsTo(c, v, b, strength) <==> Weaker(c, v, b, strength)
  {
    GhostIs(c, v, b);
    FullForceIs(c, v, b);
  }

  lemma RivalsAre(c: Context, v: View, a: ArmyId)
    requires Prepared(c) && a in c.attacks
    ensures BeatsRivals(c, v, a) <==> Unrivalled(c, v, a, MoveStrength(c, v, a))
  {
    forall b | b in c.attacks
      ensures YieldsTo(c, v, b, MoveStrength(c, v, a)) <==> Weaker(c, v, b, MoveStrength(c, v, a))
      ensures b in Attackers(c, c.attacks[a].target) <==> c.attacks[b].target == c.attacks[a].target
    {
      WeakerIs(c, v, b, MoveStrength(c, v, a));
    }
  }

  lemma HeadOnIs(c: Context, v: View, a: ArmyId)
    requires Prepared(c) && a in c.attacks
    ensures (HeadToHead(c, a) ==> WinsHeadToHead(c, v, a, OccupantAt(c, c.attacks[a].target).value)) <==> WinsHeadOn(c, v, a)
  {
    forall d: ArmyId | Opposes(c, d, a)
      ensures HeadToHead(c, a) && OccupantAt(c, c.attacks[a].target) == Some(d)
      ensures WinsHeadToHead(c, v, a, d) <==>
                (c.armies[d].owner != c.armies[a].owner
                 && ForceAgainst(c, v, a, c.armies[d].owner) > ForceAgainst(c, v, d, c.armies[a].owner))
    {
      OpposedIs(c, a, d);
      ForceAgainstIs(c, v, a, c.armies[d].owner);
      ForceAgainstIs(c, v, d, c.armies[a].owner);
    }
    if HeadToHead(c, a) { OpposedIs(c, a, OccupantAt(c, c.attacks[a].target).value); }
  }

  lemma CastleIs(c: Context, a: ArmyId)
    requires WellFormed(c) && a in c.attacks
    ensures CastleOwnedByAllAttackers(c, c.attacks[a].target) <==> FamiliarWalls(c, c.attacks[a].target)
  {
    var t := c.attacks[a].target;
    assert a in Attackers(c, t);
    forall b | b in c.attacks ensures OwnerOf(c, b) == c.armies[b].owner && (b in Attackers(c, t) <==> c.attacks[b].target == t) {
    }
  }

  lemma VacantRead(c: Context, v: View, a: ArmyId)
    requires a in c.attacks && !DefenderStays(c, v, c.attacks[a].target)
    ensures var t := c.attacks[a].target;
            && MoveStrength(c, v, a) == AttackForce(c, v, a)
            && MoveThreshold(c, v, a) == if FortificationBonus(c, t) > 0 && a !in c.tunneled && !CastleOwnedByAllAttackers(c, t)
                                         then FortificationBonus(c, t) else -1
  {
  }

  lemma WallsAre(c: Context, v: View, a: ArmyId)
    requires Prepared(c) && a in c.attacks && !DefenderStays(c, v, c.attacks[a].target)
    ensures MoveStrength(c, v, a) == FullForce(c, v, a)
    ensures MoveStrength(c, v, a) > MoveThreshold(c, v, a) <==> PassesWalls(c, v, a)
  {
    FullForceIs(c, v, a);
    CastleIs(c, a);
    VacantRead(c, v, a);
  }

  lemma HeldRead(c: Context, v: View, a: ArmyId, d: ArmyId)
    requires a in c.attacks && OccupantAt(c, c.attacks[a].target) == Some(d) && Stays(c, v, d)
    ensures MoveStrength(c, v, a) == OwnForce(c, v, a, OwnerOf(c, d))
    ensures MoveThreshold(c, v, a) == HoldStrengthAgainst(c, v, d, c.attacks[a].target, a)
  {
  }

  lemma AssaultIs(c: Context, v: View, a: ArmyId, d: ArmyId)
    requires Prepared(c) && a in c.attacks && d in c.armies && !IsPeaceful(c, d)
    requires OccupantAt(c, c.attacks[a].target) == Some(d) && c.armies[d].territory == c.attacks[a].target && Stays(c, v, d)
    ensures MoveStrength(c, v, a) == ForceAgainst(c, v, a, c.armies[d].owner)
    ensures OwnerOf(c, d) != OwnerOf(c, a) && MoveStrength(c, v, a) > MoveThreshold(c, v, a) <==> Overcomes(c, v, a, d)
  {
    HeldRead(c, v, a, d);
    ForceAgainstIs(c, v, a, c.armies[d].owner);
    DefenseIs(c, v, d, a);
  }

  lemma HeldIff(c: Context, v: View, a: ArmyId, d: ArmyId)
    requires WellFormed(c) && a in c.attacks && d in c.armies && OccupantAt(c, c.attacks[a].target) == Some(d) && Stays(c, v, d)
    requires (HeadToHead(c, a) ==> WinsHeadToHead(c, v, a, d)) <==> WinsHeadOn(c, v, a)
    requires BeatsRivals(c, v, a) <==> Unrivalled(c, v, a, ForceAgainst(c, v, a, c.armies[d].owner))
    requires OwnerOf(c, d) != OwnerOf(c, a) && MoveStrength(c, v, a) > MoveThreshold(c, v, a) <==> Overcomes(c, v, a, d)
    ensures AdjudicateMove(c, v, a) <==> MayMove(c, v, a)
  {
    RemainsIs(c, v, d);
  }

  lemma VacantIff(c: Context, v: View, a: ArmyId)
    requires WellFormed(c) && a in c.attacks && !DefenderStays(c, v, c.attacks[a].target)
    requires (HeadToHead(c, a) ==> WinsHeadToHead(c, v, a, OccupantAt(c, c.attacks[a].target).value)) <==> WinsHeadOn(c, v, a)
    requires BeatsRivals(c, v, a) <==> Unrivalled(c, v, a, FullForce(c, v, a))
    requires MoveStrength(c, v, a) > MoveThreshold(c, v, a) <==> PassesWalls(c, v, a)
    ensures AdjudicateMove(c, v, a) <==> MayMove(c, v, a)
  {
    if c.attacks[a].target in c.armyAt { RemainsIs(c, v, c.armyAt[c.attacks[a].target]); }
  }

  /** The attack is adjudicated a success exactly when the move equation says so. */
  lemma MoveIff(c: Context, v: View, a: ArmyId)
    requires Prepared(c) && a in c.attacks
    ensures AdjudicateMove(c, v, a) <==> MayMove(c, v, a)
  {
    var t := c.attacks[a].target;
    HeadOnIs(c, v, a);
    RivalsAre(c, v, a);
    if t in c.armyAt && Remains(c, v, c.armyAt[t]) {
      AttackedArmy(c, a);
      RemainsIs(c, v, c.armyAt[t]);
      AssaultIs(c, v, a, c.armyAt[t]);
      HeldIff(c, v, a, c.armyAt[t]);
    } else {
      if t in c.armyAt { RemainsIs(c, v, c.armyAt[t]); }
      WallsAre(c, v, a);
      VacantIff(c, v, a);
    }
  }

  /** An army that is attacked gave no join or dispersion. */
  lemma AttackedArmy(c: Context, a: ArmyId)
    requires Prepared(c) && a in c.attacks && c.attacks[a].target in c.armyAt
    ensures var d := c.armyAt[c.attacks[a].target];
            d in c.armies && c.armies[d].territory == c.attacks[a].target && !IsPeaceful(c, d)
  {
    assert a in Attackers(c, c.attacks[a].target);
    AttackedNotPeaceful(c, c.attacks[a].target, c.armyAt[c.attacks[a].target]);
  }

  // ---------- what the settled turn says

  /** An attack moves exactly when the move equation says so. */
  lemma SettledMoveIff(c: Context, v: View, a: ArmyId)
    requires Prepared(c) && v.Keys == Decisions(c) && Consistent(c, v) && a in c.attacks
    ensures Said(v, Move(a)) <==> MayMove(c, v, a)
  {
    assert Move(a) in Decisions(c);
    MoveIff(c, v, a);
  }

  /** An army is dislodged exactly when it stays and some attack enters its territory. */
  lemma SettledDislodgedIff(c: Context, v: View, d: ArmyId)
    requires Prepared(c) && v.Keys == Decisions(c) && Consistent(c, v) && d in c.armies
    ensures Said(v, Dislodged(d)) <==>
              Remains(c, v, d) && exists b :: b in c.attacks && c.attacks[b].target == c.armies[d].territory && Said(v, Move(b))
  {
    assert Dislodged(d) in Decisions(c);
    RemainsIs(c, v, d);
    if b :| b in c.attacks && c.attacks[b].target == c.armies[d].territory && Said(v, Move(b)) {
      assert b in Attackers(c, c.armies[d].territory);
    }
  }

  /** An attack never enters where an army stays unless its own side outweighs walls, army and supporters. */
  lemma DefenseHolds(c: Context, v: View, a: ArmyId, d: ArmyId)
    requires Prepared(c) && v.Keys == Decisions(c) && Consistent(c, v) && a in c.attacks && Said(v, Move(a))
    requires d in c.armies && c.armies[d].territory == c.attacks[a].target && Remains(c, v, d)
    ensures c.armies[d].owner != c.armies[a].owner
    ensures Might(c)(a) + Sum(NotOf(c, AttackBackers(c, v, a), c.armies[d].owner), Might(c))
          > (if a in c.tunneled then 0 else Walls(c, c.armies[d].territory)) + Resistance(c, d) + Sum(HoldBackers(c, v, d), Might(c))
  {
    SettledMoveIff(c, v, a);
  }

  /** With no rival and not met head-on, an enemy attack dislodges an army that stays exactly when it outweighs the defense. */
  lemma UncontestedAssault(c: Context, v: View, a: ArmyId, d: ArmyId)
    requires Prepared(c) && v.Keys == Decisions(c) && Consistent(c, v) && a in c.attacks
    requires d in c.armies && c.armies[d].territory == c.attacks[a].target && c.armies[d].owner != c.armies[a].owner
    requires Remains(c, v, d) && (d in c.attacks ==> c.attacks[d].target != c.attacks[a].source)
    requires forall b :: b in c.attacks && c.attacks[b].target == c.attacks[a].target ==> b == a
    ensures Said(v, Move(a)) <==> ForceAgainst(c, v, a, c.armies[d].owner) > DefenseAgainst(c, v, d, a)
    ensures Said(v, Dislodged(d)) <==> Said(v, Move(a))
  {
    SettledMoveIff(c, v, a);
    SettledDislodgedIff(c, v, d);
    AloneAgainst(c, v, a, d);
  }

  lemma AloneAgainst(c: Context, v: View, a: ArmyId, d: ArmyId)
    requires WellFormed(c) && a in c.attacks && d in c.armies && c.armies[d].territory == c.attacks[a].target
    requires Remains(c, v, d) && (d in c.attacks ==> c.attacks[d].target != c.attacks[a].source) && c.armies[d].owner != c.armies[a].owner
    requires forall b :: b in c.attacks && c.attacks[b].target == c.attacks[a].target ==> b == a
    ensures MayMove(c, v, a) <==> ForceAgainst(c, v, a, c.armies[d].owner) > DefenseAgainst(c, v, d, a)
  {
    Unopposed(c, v, a, d);
    NoRivals(c, v, a, ForceAgainst(c, v, a, c.armies[d].owner));
  }

  lemma Unopposed(c: Context, v: View, a: ArmyId, d: ArmyId)
    requires WellFormed(c) && a in c.attacks && d in c.armies && c.armies[d].territory == c.attacks[a].target
    requires d in c.attacks ==> c.attacks[d].target != c.attacks[a].source
    ensures WinsHeadOn(c, v, a)
  {
    forall o: ArmyId ensures !Opposes(c, o, a) {
    }
  }

  lemma NoRivals(c: Context, v: View, a: ArmyId, strength: int)
    requires WellFormed(c) && a in c.attacks
    requires forall b :: b in c.attacks && c.attacks[b].target == c.attacks[a].target ==> b == a
    ensures Unrivalled(c, v, a, strength)
  {
  }

  /** An army that holds its place and is attacked by one enemy alone stays exactly when its defense suffices. */
  lemma HolderStays(c: Context, v: View, a: ArmyId, d: ArmyId)
    requires Prepared(c) && v.Keys == Decisions(c) && Consistent(c, v) && a in c.attacks
    requires d in c.armies && c.armies[d].territory == c.attacks[a].target && c.armies[d].owner != c.armies[a].owner
    requires d !in c.attacks && forall b :: b in c.attacks && c.attacks[b].target == c.attacks[a].target ==> b == a
    ensures Said(v, Dislodged(d)) <==> ForceAgainst(c, v, a, c.armies[d].owner) > DefenseAgainst(c, v, d, a)
  {
    AttackedArmy(c, a);
    UncontestedAssault(c, v, a, d);
  }
}
