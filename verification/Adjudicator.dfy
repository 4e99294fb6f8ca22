/**
 The adjudicator: it settles every decision of a turn, component by component
 of the dependency graph. Reading a decision that is neither settled nor on
 trial is the panic of the engine; here it is a precondition of Value, so that
 the verification of the callers shows it never happens.
 */
module Adjudicator {
  import opened Wrappers
  import opened SortedIds
  import opened Turn
  import opened Facts
  import opened Peaceful
  import opened Groups
  import opened Combat
  import opened Dependencies
  import GroupTurns
  import opened DependencyLists
  import opened CycleSearch
  import opened Greatest
  import opened Components
  import T = Tarjan

  class Adjudicator {
    const c: Context
    /** Final values of the decisions already resolved. */
    var settled: View
    /** Working values of the cycle being solved. */
    var trial: View
    var attacksByTarget: map<TerritoryId, seq<ArmyId>>
    var staticCuts: set<ArmyId>

    ghost predicate CutsIndexed()
      reads this
    {
      staticCuts == CutSupports(c)
    }

    ghost predicate Indexed()
      reads this
    {
      CutsIndexed() && IsIndex(c, attacksByTarget)
    }

    function Now(): View
      reads this
    {
      trial + settled
    }

    ghost function Known(): set<Decision>
      reads this
    {
      settled.Keys + trial.Keys
    }

    /** The attacks on a territory, by army. */
    function AttacksOn(t: TerritoryId): (q: seq<ArmyId>)
      requires Indexed()
      reads this
      ensures forall b :: b in q <==> b in Attackers(c, t)
    {
      if t in attacksByTarget then attacksByTarget[t] else []
    }

    method Value(d: Decision) returns (b: bool)
      requires d in settled || d in trial
      ensures b == Holds(Now(), d)
    {
      if d in settled {
        return settled[d];
      }
      return trial[d];
    }

    method MovesNow(a: ArmyId) returns (b: bool)
      requires a in c.attacks ==> Move(a) in Known()
      ensures b == Moves(c, Now(), a)
    {
      if a !in c.attacks {
        return false;
      }
      b := Value(Move(a));
    }

    method DepartsNow(a: ArmyId) returns (b: bool)
      requires IsPeaceful(c, a) ==> Departure(a) in Known()
      ensures b == Departs(c, Now(), a)
    {
      if !IsPeaceful(c, a) {
        return false;
      }
      b := Value(Departure(a));
    }

    method StaysNow(a: ArmyId) returns (b: bool)
      requires StayReads(c, a) <= Known()
      ensures b == Stays(c, Now(), a)
    {
      if a in c.attacks {
        b := MovesNow(a);
      } else {
        b := DepartsNow(a);
      }
      b := !b;
    }

    method DislodgedNow(a: ArmyId) returns (b: bool)
      requires Indexed() && DislodgedReads(c, a) <= Known()
      ensures b == AdjudicateDislodged(c, Now(), a)
    {
      if a !in c.armies || |AttacksOn(c.armies[a].territory)| == 0 {
        NoAttacks(AttacksOn(if a in c.armies then c.armies[a].territory else 0));
        return false;
      }
      assert AttacksOn(c.armies[a].territory)[0] in AttacksOn(c.armies[a].territory);
      var stays := StaysNow(a);
      if !stays {
        return false;
      }
      b := IsEntered(c.armies[a].territory);
    }

    /** Some attack enters the territory. */
    method IsEntered(t: TerritoryId) returns (b: bool)
      requires Indexed() && AttackReads(c, t) <= Known()
      ensures b <==> exists x :: x in Attackers(c, t) && Moves(c, Now(), x)
    {
      var q := AttacksOn(t);
      var i := 0;
      while i < |q|
        invariant i <= |q|
        invariant forall j :: 0 <= j < i ==> !Moves(c, Now(), q[j])
      {
        assert q[i] in q;
        assert Move(q[i]) in AttackReads(c, t);
        var moves := MovesNow(q[i]);
        if moves {
          return true;
        }
        i := i + 1;
      }
      return false;
    }

    static lemma NoAttacks(q: seq<ArmyId>)
      ensures |q| == 0 ==> forall x :: x !in q
    {
    }

    /** A support adds its strength: it stands, and its army is not dislodged. */
    method Counts(s: ArmyId) returns (b: bool)
      requires CutsIndexed() && s in c.supports && (SupportStands(c, s) ==> Dislodged(s) in Known())
      ensures b == (SupportStands(c, s) && !Holds(Now(), Dislodged(s)))
    {
      if !c.supports[s].applies || s in staticCuts || s in c.famished {
        return false;
      }
      b := Value(Dislodged(s));
      b := !b;
    }

    /** What one support adds to an army's attack or defense. */
    method ShareOf(s: ArmyId, a: ArmyId, offensive: bool) returns (n: nat)
      requires CutsIndexed() && s in c.supports && SupportReads(c, a, offensive) <= Known()
      ensures n == Share(c, s, CountedSupports(c, Now(), a, offensive))
    {
      n := 0;
      if c.supports[s].destination.Some? == offensive && c.supports[s].targetArmy == Some(a) {
        assert SupportStands(c, s) ==> Dislodged(s) in SupportReads(c, a, offensive);
        var counts := Counts(s);
        if counts {
          n := TroopStrength(c, s);
        }
      }
    }

    static function Share(c: Context, s: ArmyId, counted: set<ArmyId>): nat
    {
      if s in counted then TroopStrength(c, s) else 0
    }

    static ghost function HelpersIn(c: Context, counted: set<ArmyId>, against: Option<PlayerId>): set<ArmyId>
    {
      match against case None => {} case Some(p) => OwnedBy(c, counted, p)
    }

    /** The listed supports counted for an army, in all and from one player. */
    method SumSupports(ids: seq<ArmyId>, a: ArmyId, offensive: bool, against: Option<PlayerId>) returns (all: int, help: int)
      requires CutsIndexed() && SupportReads(c, a, offensive) <= Known() && forall s :: s in ids ==> s in c.supports
      ensures all == Total(c, ids, CountedSupports(c, Now(), a, offensive))
      ensures help == Total(c, ids, HelpersIn(c, CountedSupports(c, Now(), a, offensive), against))
    {
      ghost var counted := CountedSupports(c, Now(), a, offensive);
      ghost var helping := HelpersIn(c, counted, against);
      var i := 0;
      all, help := 0, 0;
      assert ids[0..] == ids;
      while i < |ids|
        invariant i <= |ids|
        invariant all + Total(c, ids[i..], counted) == Total(c, ids, counted)
        invariant help + Total(c, ids[i..], helping) == Total(c, ids, helping)
      {
        var s := ids[i];
        TotalStep(c, ids, i, counted);
        TotalStep(c, ids, i, helping);
        var share := ShareOf(s, a, offensive);
        all := all + share;
        if against.Some? && OwnerOf(c, s) == against.value {
          help := help + share;
        }
        i := i + 1;
      }
      assert ids[i..] == [];
    }

    /** The strength of an attack, and the part given by supports of one player. */
    method ForceOf(a: ArmyId, against: Option<PlayerId>) returns (force: int, help: int)
      requires CutsIndexed() && a in c.attacks && SupportReads(c, a, true) <= Known()
      ensures force == AttackForce(c, Now(), a)
      ensures against.Some? ==> help == AttackHelp(c, Now(), a, against.value)
    {
      force, help := SumSupports(Sorted(c.supports.Keys), a, true, against);
      force := c.attacks[a].size + NobleCommandBonus(c, a) + force;
    }

    static lemma TotalStep(c: Context, order: seq<ArmyId>, i: nat, counted: set<ArmyId>)
      requires i < |order|
      ensures Total(c, order[i..], counted)
           == Share(c, order[i], counted) + Total(c, order[i + 1..], counted)
    {
      assert order[i..][1..] == order[i + 1..];
    }

    /** The join and dispersion rules run on the group of an army. */
    method OutcomeNow(a: ArmyId, leaving: bool) returns (outcome: PeacefulOutcome)
      requires WellFormed(c) && (IsPeaceful(c, a) ==> GroupReads(c, a) <= Known())
      ensures outcome == OutcomeOfPeaceful(c, Now(), a, leaving)
    {
      outcome := GroupTurns.RunOnGroup(c, Now(), a, leaving);
    }

    method DefendingNow(d: ArmyId) returns (size: int)
      requires WellFormed(c) && d in c.armies
      requires IsPeaceful(c, d) ==> {Dislodged(d)} + GroupReads(c, d) <= Known()
      ensures size == DefendingSize(c, Now(), d)
    {
      var leaving := false;
      if IsPeaceful(c, d) {
        assert Dislodged(d) in {Dislodged(d)} + GroupReads(c, d);
        leaving := Value(Dislodged(d));
      }
      var outcome := OutcomeNow(d, leaving);
      size := SizeWith(c, d, outcome.residual);
    }

    /** The defense of an army that stays on t. */
    method HoldNow(d: ArmyId, t: TerritoryId) returns (strength: int)
      requires WellFormed(c) && CutsIndexed() && d in c.armies && SupportReads(c, d, false) <= Known()
      requires IsPeaceful(c, d) ==> {Dislodged(d)} + GroupReads(c, d) <= Known()
      ensures strength == HoldStrength(c, Now(), d, t)
    {
      var size := DefendingNow(d);
      var supported, _ := SumSupports(Sorted(c.supports.Keys), d, false, None);
      strength := FortificationBonus(c, t) + size + NobleCommandBonus(c, d) + supported;
    }

    /** In a head-to-head battle, the attack must win on forces not helped by its opponent's owner. */
    method WinsHeadToHeadNow(a: ArmyId, d: ArmyId) returns (b: bool)
      requires CutsIndexed() && a in c.attacks && d in c.attacks
      requires SupportReads(c, a, true) <= Known() && SupportReads(c, d, true) <= Known()
      ensures b == WinsHeadToHead(c, Now(), a, d)
    {
      if OwnerOf(c, d) == OwnerOf(c, a) {
        return false;
      }
      var ourForce, ourHelp := ForceOf(a, Some(OwnerOf(c, d)));
      var theirForce, theirHelp := ForceOf(d, Some(OwnerOf(c, a)));
      b := ourForce - ourHelp > theirForce - theirHelp;
    }

    /** What attack a brings against an army d that stays, and what it must exceed. */
    method AgainstArmy(a: ArmyId, d: ArmyId) returns (strength: int, threshold: int)
      requires WellFormed(c) && CutsIndexed() && a in c.attacks && d in c.armies
      requires SupportReads(c, a, true) <= Known() && SupportReads(c, d, false) <= Known()
      requires IsPeaceful(c, d) ==> {Dislodged(d)} + GroupReads(c, d) <= Known()
      ensures strength == OwnForce(c, Now(), a, OwnerOf(c, d))
      ensures threshold == HoldStrengthAgainst(c, Now(), d, c.attacks[a].target, a)
    {
      var force, help := ForceOf(a, Some(OwnerOf(c, d)));
      strength := force - help;
      threshold := HoldNow(d, c.attacks[a].target);
      if a in c.tunneled {
        threshold := threshold - FortificationBonus(c, c.attacks[a].target);
      }
    }

    /** What attack a brings against an empty or vacated destination, and what it must exceed. */
    method AgainstWalls(a: ArmyId) returns (strength: int, threshold: int)
      requires CutsIndexed() && a in c.attacks && SupportReads(c, a, true) <= Known()
      ensures strength == AttackForce(c, Now(), a)
      ensures var t := c.attacks[a].target;
              threshold == if FortificationBonus(c, t) > 0 && a !in c.tunneled && !CastleOwnedByAllAttackers(c, t)
                           then FortificationBonus(c, t) else -1
    {
      var t := c.attacks[a].target;
      var force, _ := ForceOf(a, None);
      strength := force;
      threshold := -1;
      if FortificationBonus(c, t) > 0 && a !in c.tunneled && !CastleOwnedByAllAttackers(c, t) {
        threshold := FortificationBonus(c, t);
      }
    }

    /** Whether the rival attack b is weaker, or retired by its head-to-head winner. */
    method Yields(b: ArmyId, strength: int) returns (r: bool)
      requires CutsIndexed() && b in c.attacks && SupportReads(c, b, true) <= Known()
      requires forall d :: OccupantAt(c, c.attacks[b].target) == Some(d) ==> StayReads(c, d) <= Known()
      ensures r == YieldsTo(c, Now(), b, strength)
    {
      if HeadToHead(c, b) {
        var ghostly := MovesNow(OccupantAt(c, c.attacks[b].target).value);
        if ghostly {
          return true;
        }
      }
      var prevent, _ := ForceOf(b, None);
      r := strength > prevent;
    }

    method AllYield(rivals: seq<ArmyId>, a: ArmyId, strength: int) returns (r: bool)
      requires CutsIndexed() && forall b :: b in rivals ==> b in c.attacks && SupportReads(c, b, true) <= Known()
      requires forall b, d :: b in rivals && OccupantAt(c, c.attacks[b].target) == Some(d) ==> StayReads(c, d) <= Known()
      ensures r == forall b :: b in rivals && b != a ==> YieldsTo(c, Now(), b, strength)
    {
      var i := 0;
      while i < |rivals|
        invariant i <= |rivals|
        invariant forall j :: 0 <= j < i && rivals[j] != a ==> YieldsTo(c, Now(), rivals[j], strength)
      {
        if rivals[i] != a {
          var weaker := Yields(rivals[i], strength);
          if !weaker {
            return false;
          }
        }
        i := i + 1;
      }
      return true;
    }

    /** Every other attack on the destination yields. */
    method BeatsRivalsNow(a: ArmyId, strength: int) returns (r: bool)
      requires Indexed() && a in c.attacks && strength == MoveStrength(c, Now(), a)
      requires RivalReads(c, c.attacks[a].target) <= Known()
      requires forall d :: OccupantAt(c, c.attacks[a].target) == Some(d) ==> StayReads(c, d) <= Known()
      ensures r == BeatsRivals(c, Now(), a)
    {
      var rivals := AttacksOn(c.attacks[a].target);
      forall b | b in rivals ensures SupportReads(c, b, true) <= Known() {
        RivalReadsKnown(c.attacks[a].target, b);
      }
      r := AllYield(rivals, a, strength);
    }

    lemma RivalReadsKnown(t: TerritoryId, b: ArmyId)
      requires RivalReads(c, t) <= Known() && b in Attackers(c, t)
      ensures SupportReads(c, b, true) <= Known()
    {
      forall r | r in SupportReads(c, b, true) ensures r in Known() {
        assert r in RivalReads(c, t);
      }
    }

    /** What attack a brings against its destination, and what it must exceed there. */
    method Against(a: ArmyId, stays: bool) returns (strength: int, threshold: int)
      requires WellFormed(c) && CutsIndexed() && a in c.attacks && MoveReads(c, a) <= Known()
      requires stays == DefenderStays(c, Now(), c.attacks[a].target)
      ensures strength == MoveStrength(c, Now(), a) && threshold == MoveThreshold(c, Now(), a)
    {
      assert SupportReads(c, a, true) <= MoveReads(c, a);
      if stays {
        var d := OccupantAt(c, c.attacks[a].target).value;
        DefenderReadsKnown(a, d);
        strength, threshold := AgainstArmy(a, d);
      } else {
        strength, threshold := AgainstWalls(a);
      }
    }

    /** An army that stays is on its ally's way, or wins a head-to-head battle: the attack fails. */
    method IsBarred(a: ArmyId) returns (barred: bool, stays: bool)
      requires WellFormed(c) && CutsIndexed() && a in c.attacks && MoveReads(c, a) <= Known()
      ensures !barred ==> stays == DefenderStays(c, Now(), c.attacks[a].target)
      ensures var d := OccupantAt(c, c.attacks[a].target);
              barred <==> d.Some? && ((HeadToHead(c, a) && !WinsHeadToHead(c, Now(), a, d.value))
                                      || (Stays(c, Now(), d.value) && OwnerOf(c, d.value) == OwnerOf(c, a)))
    {
      assert SupportReads(c, a, true) <= MoveReads(c, a);
      var defender := OccupantAt(c, c.attacks[a].target);
      if defender.None? {
        return false, false;
      }
      DefenderReadsKnown(a, defender.value);
      if HeadToHead(c, a) {
        var wins := WinsHeadToHeadNow(a, defender.value);
        if !wins {
          return true, false;
        }
      }
      stays := StaysNow(defender.value);
      barred := stays && OwnerOf(c, defender.value) == OwnerOf(c, a);
    }

    /** The part of the move equation about the army on the destination. */
    method BeatsDefenseNow(a: ArmyId) returns (r: bool, strength: int)
      requires WellFormed(c) && CutsIndexed() && a in c.attacks && MoveReads(c, a) <= Known()
      ensures r == BeatsDefense(c, Now(), a)
      ensures r ==> strength == MoveStrength(c, Now(), a)
    {
      var barred, stays := IsBarred(a);
      if barred {
        return false, 0;
      }
      var threshold;
      strength, threshold := Against(a, stays);
      r := strength > threshold;
    }

    /** The move equation. */
    method MoveNow(a: ArmyId) returns (r: bool)
      requires WellFormed(c) && Indexed() && a in c.attacks && MoveReads(c, a) <= Known()
      ensures r == AdjudicateMove(c, Now(), a)
    {
      var strength;
      r, strength := BeatsDefenseNow(a);
      if !r {
        return false;
      }
      RivalsKnown(a);
      r := BeatsRivalsNow(a, strength);
    }

    lemma RivalsKnown(a: ArmyId)
      requires a in c.attacks && MoveReads(c, a) <= Known()
      ensures RivalReads(c, c.attacks[a].target) <= Known()
      ensures forall d :: OccupantAt(c, c.attacks[a].target) == Some(d) ==> StayReads(c, d) <= Known()
    {
      assert RivalReads(c, c.attacks[a].target) <= MoveReads(c, a);
      forall d | OccupantAt(c, c.attacks[a].target) == Some(d) ensures StayReads(c, d) <= Known() {
        DefenderReadsKnown(a, d);
      }
    }

    lemma DefenderReadsKnown(a: ArmyId, d: ArmyId)
      requires a in c.attacks && MoveReads(c, a) <= Known() && OccupantAt(c, c.attacks[a].target) == Some(d)
      ensures StayReads(c, d) <= Known() && SupportReads(c, d, false) <= Known()
      ensures HeadToHead(c, a) ==> SupportReads(c, d, true) <= Known()
      ensures IsPeaceful(c, d) ==> {Dislodged(d)} + GroupReads(c, d) <= Known()
    {
      var covered := DefenderReads(c, a, d);
      assert covered <= MoveReads(c, a);
      assert StayReads(c, d) <= covered && SupportReads(c, d, false) <= covered;
      assert HeadToHead(c, a) ==> SupportReads(c, d, true) <= covered;
      assert IsPeaceful(c, d) ==> {Dislodged(d)} + GroupReads(c, d) <= covered;
    }

    method Decide(d: Decision) returns (b: bool)
      requires WellFormed(c) && Indexed() && d in Decisions(c) && Reads(c, d) <= Known()
      ensures b == Adjudicate(c, Now(), d)
    {
      match d
      case Move(a) => b := MoveNow(a);
      case Departure(a) =>
        var outcome := OutcomeNow(a, false);
        b := outcome.departs;
      case Dislodged(a) => b := DislodgedNow(a);
    }

    // ---------- the search of a cycle

    /** How this turn adjudicates; Unfold reveals what sys stands for. */
    ghost const sys: System
    ghost const all: set<Decision>

    ghost predicate Unfold(u: int) { true }

    ghost predicate Linked()
    {
      forall u {:trigger Unfold(u)} :: Unfold(u) ==> WellFormed(c) && sys == TurnSystem(c) && all == Decisions(c)
    }

    ghost predicate Searching(p: Part)
      reads this
    {
      Linked() && Indexed() && p.settled == settled && p.m <= all
    }

    method Judge(d: Decision) returns (b: bool)
      requires Linked() && Indexed() && d in all && sys.needs(d) <= Known()
      ensures b == sys.adjudicate(Now(), d)
    {
      assert Unfold(0);
      b := Decide(d);
    }

    method DeriveNext(d: Decision, plan: Plan, k: nat, ghost p: Part, ghost depth: map<Decision, nat>)
      requires Searching(p) && Entered(sys, p, trial, plan, depth, k) && d in plan.derivedAt[k]
      modifies this`trial
      ensures Entered(sys, p, trial, plan, depth, k) && KeptTo(p, old(trial), trial, depth, k) && Right(sys, p, trial, d)
      ensures forall e :: e in plan.derivedAt[k] && Right(sys, p, old(trial), e) ==> Right(sys, p, trial, e)
    {
      DerivedNeedsKnown(sys, p, trial, plan, depth, k, d);
      DeriveOne(sys, p, trial, plan, depth, k, d);
      var value := Judge(d);
      trial := trial[d := value];
    }

    /** Derives the dislodgements fixed by the first k choices. */
    method DeriveAll(plan: Plan, k: nat, ghost p: Part, ghost depth: map<Decision, nat>)
      requires Searching(p) && Entered(sys, p, trial, plan, depth, k)
      modifies this`trial
      ensures Entered(sys, p, trial, plan, depth, k) && DerivedBelow(sys, p, trial, depth, k + 1)
      ensures KeptTo(p, old(trial), trial, depth, k)
    {
      var q := plan.derivedAt[k];
      var i := 0;
      while i < |q|
        invariant i <= |q| && Deriving(plan, k, p, depth, old(trial), i)
      {
        DeriveStep(plan, k, p, depth, old(trial), i);
        i := i + 1;
      }
      AllDerived(sys, p, trial, plan, depth, k);
    }

    /** The first i dislodgements fixed by the first k choices are derived. */
    ghost predicate Deriving(plan: Plan, k: nat, p: Part, depth: map<Decision, nat>, before: View, i: nat)
      reads this
    {
      && Entered(sys, p, trial, plan, depth, k) && KeptTo(p, before, trial, depth, k)
      && i <= |plan.derivedAt[k]| && forall j :: 0 <= j < i ==> Right(sys, p, trial, plan.derivedAt[k][j])
    }

    method DeriveStep(plan: Plan, k: nat, ghost p: Part, ghost depth: map<Decision, nat>, ghost before: View, i: nat)
      requires Searching(p) && Deriving(plan, k, p, depth, before, i) && i < |plan.derivedAt[k]|
      modifies this`trial
      ensures Deriving(plan, k, p, depth, before, i + 1)
    {
      ghost var mid := trial;
      DeriveNext(plan.derivedAt[k][i], plan, k, p, depth);
      KeptToTrans(p, before, mid, trial, depth, k);
    }

    /** The state in which the choices of depth k are checked, kept folded. */
    ghost predicate Checking(plan: Plan, k: nat, p: Part, depth: map<Decision, nat>)
      reads this
    {
      forall u {:trigger Unfold(u)} :: Unfold(u) ==>
        Searching(p) && Entered(sys, p, trial, plan, depth, k) && DerivedBelow(sys, p, trial, depth, k + 1)
    }

    /** A choice adjudicated otherwise than chosen rules out every completion. */
    method CheckOne(d: Decision, plan: Plan, k: nat, ghost p: Part, ghost depth: map<Decision, nat>) returns (right: bool)
      requires Checking(plan, k, p, depth) && k < |plan.checkedAt| && d in plan.checkedAt[k]
      ensures right ==> Right(sys, p, trial, d)
      ensures !right ==> NoneFrom(sys, p, trial, plan, k)
    {
      assert Unfold(0);
      CheckedNeedsKnown(sys, p, trial, plan, depth, k, d);
      var value := Judge(d);
      right := value == trial[d];
      if !right {
        CheckFails(sys, p, trial, plan, depth, k, d);
      }
    }

    /** Checks the choices whose reads are fixed by the first k choices. */
    method CheckAll(plan: Plan, k: nat, ghost p: Part, ghost depth: map<Decision, nat>) returns (ok: bool)
      requires Checking(plan, k, p, depth) && k < |plan.checkedAt|
      ensures ok ==> CheckedBelow(sys, p, trial, plan, k + 1)
      ensures !ok ==> NoneFrom(sys, p, trial, plan, k)
    {
      var q := plan.checkedAt[k];
      var i := 0;
      while i < |q|
        invariant i <= |q|
        invariant forall j :: 0 <= j < i ==> Right(sys, p, trial, q[j])
      {
        var right := CheckOne(q[i], plan, k, p, depth);
        if !right {
          return false;
        }
        i := i + 1;
      }
      AllChecked(q, p);
      ChecksPassed(plan, k, p, depth);
      return true;
    }

    lemma ChecksPassed(plan: Plan, k: nat, p: Part, depth: map<Decision, nat>)
      requires Checking(plan, k, p, depth) && k < |plan.checkedAt| && forall d :: d in plan.checkedAt[k] ==> Right(sys, p, trial, d)
      ensures CheckedBelow(sys, p, trial, plan, k + 1)
    {
      assert Unfold(0);
      ChecksDone(sys, p, trial, plan, k);
    }

    lemma AllChecked(q: seq<Decision>, p: Part)
      requires forall j :: 0 <= j < |q| ==> Right(sys, p, trial, q[j])
      ensures forall d :: d in q ==> Right(sys, p, trial, d)
    {
    }

    method Undo(plan: Plan, k: nat, ghost p: Part, ghost depth: map<Decision, nat>)
      requires Fits(sys, p, plan, depth) && Chosen(p, trial, plan, k)
      modifies this`trial
      ensures Chosen(p, trial, plan, k) && KeptTo(p, old(trial), trial, depth, k)
    {
      ghost var before := trial;
      UndoKeeps(sys, p, trial, plan, depth, k, set d | d in plan.derivedAt[k]);
      trial := trial - set d | d in plan.derivedAt[k];
    }

    /** Gives choice k a value and searches the rest. */
    method TryValue(plan: Plan, k: nat, value: bool, ghost p: Part, ghost depth: map<Decision, nat>) returns (ok: bool)
      requires Searching(p) && Resolvable(sys, p) && Fits(sys, p, plan, depth) && k < |plan.chosen|
      requires Chosen(p, trial, plan, k) || Chosen(p, trial, plan, k + 1)
      requires DerivedBelow(sys, p, trial, depth, k + 1) && CheckedBelow(sys, p, trial, plan, k + 1)
      modifies this`trial
      ensures ok ==> FirstFrom(sys, p, trial, plan, k + 1)
      ensures ok ==> AgreeOn(old(trial)[plan.chosen[k] := value], trial, plan.chosen[..k + 1])
      ensures !ok ==> NoneFrom(sys, p, old(trial)[plan.chosen[k] := value], plan, k + 1)
      ensures !ok ==> Chosen(p, trial, plan, k + 1) && KeptTo(p, old(trial), trial, depth, k)
      ensures !ok ==> DerivedBelow(sys, p, trial, depth, k + 1) && CheckedBelow(sys, p, trial, plan, k + 1)
      decreases |plan.chosen| - k, 0
    {
      EnterNext(sys, p, trial, plan, depth, k, value);
      trial := trial[plan.chosen[k] := value];
      ghost var entered := trial;
      ok := Run(plan, k + 1, p, depth);
      if !ok {
        BranchKeeps(sys, p, entered, trial, plan, depth, k);
        KeptToWeaker(p, entered, trial, depth, k);
        KeptToTrans(p, old(trial), entered, trial, depth, k);
      }
    }

    lemma Checkable(plan: Plan, k: nat, p: Part, depth: map<Decision, nat>)
      requires Searching(p) && Entered(sys, p, trial, plan, depth, k) && DerivedBelow(sys, p, trial, depth, k + 1)
      ensures Checking(plan, k, p, depth) && k < |plan.checkedAt|
    {
    }

    /** Derives and checks what the first k choices fix. */
    method Examine(plan: Plan, k: nat, ghost p: Part, ghost depth: map<Decision, nat>) returns (ok: bool)
      requires Searching(p) && Entered(sys, p, trial, plan, depth, k)
      modifies this`trial
      ensures Entered(sys, p, trial, plan, depth, k) && DerivedBelow(sys, p, trial, depth, k + 1)
      ensures KeptTo(p, old(trial), trial, depth, k) && AgreeOn(old(trial), trial, plan.chosen[..k])
      ensures ok ==> CheckedBelow(sys, p, trial, plan, k + 1)
      ensures !ok ==> NoneFrom(sys, p, old(trial), plan, k)
      ensures NoneFrom(sys, p, trial, plan, k) ==> NoneFrom(sys, p, old(trial), plan, k)
    {
      DeriveAll(plan, k, p, depth);
      SameChoices(sys, p, old(trial), trial, plan, depth, k);
      Checkable(plan, k, p, depth);
      ok := CheckAll(plan, k, p, depth);
    }

    /**
     Searches the choices from k on, success first. It finds a resolution exactly
     when one makes the choices fixed so far, and then the one that succeeds first.
     */
    method Run(plan: Plan, k: nat, ghost p: Part, ghost depth: map<Decision, nat>) returns (ok: bool)
      requires Searching(p) && Entered(sys, p, trial, plan, depth, k)
      modifies this`trial
      ensures ok ==> FirstFrom(sys, p, trial, plan, k) && AgreeOn(old(trial), trial, plan.chosen[..k])
      ensures !ok ==> NoneFrom(sys, p, old(trial), plan, k)
      ensures !ok ==> Chosen(p, trial, plan, k) && KeptTo(p, old(trial), trial, depth, k)
      decreases |plan.chosen| - k, 2
    {
      ok := Examine(plan, k, p, depth);
      ghost var derived := trial;
      if !ok {
        Undo(plan, k, p, depth);
        KeptToTrans(p, old(trial), derived, trial, depth, k);
        return;
      }
      if k == |plan.chosen| {
        AllFixed(sys, p, trial, plan, depth);
        return true;
      }
      ok := TryBoth(plan, k, p, depth);
      if ok {
        AgreeTrans(old(trial), derived, trial, plan.chosen[..k]);
      } else {
        KeptToTrans(p, old(trial), derived, trial, depth, k);
      }
    }

    /** Tries success, then failure, for choice k. */
    method TryBoth(plan: Plan, k: nat, ghost p: Part, ghost depth: map<Decision, nat>) returns (ok: bool)
      requires Searching(p) && Entered(sys, p, trial, plan, depth, k) && k < |plan.chosen|
      requires DerivedBelow(sys, p, trial, depth, k + 1) && CheckedBelow(sys, p, trial, plan, k + 1)
      modifies this`trial
      ensures ok ==> FirstFrom(sys, p, trial, plan, k) && AgreeOn(old(trial), trial, plan.chosen[..k])
      ensures !ok ==> NoneFrom(sys, p, old(trial), plan, k)
      ensures !ok ==> Chosen(p, trial, plan, k) && KeptTo(p, old(trial), trial, depth, k)
      decreases |plan.chosen| - k, 1
    {
      var d := plan.chosen[k];
      ok := TryValue(plan, k, true, p, depth);
      if ok {
        SuccessFound(sys, p, old(trial), trial, plan, depth, k);
        return;
      }
      ghost var failed := trial;
      ok := TryValue(plan, k, false, p, depth);
      if ok {
        FailureFound(sys, p, old(trial), failed, trial, plan, depth, k);
        return;
      }
      NothingFound(sys, p, old(trial), failed, plan, depth, k);
      KeptToTrans(p, old(trial), failed, trial, depth, k);
      ForgetKeeps(sys, p, trial, plan, depth, k);
      ghost var before := trial;
      trial := trial - {d};
      KeptToTrans(p, old(trial), before, trial, depth, k);
    }

    // ---------- the plan of a search

    /** The depth at which every member of the cycle that d reads is fixed. */
    method ReadyAt(d: Decision, members: set<Decision>, depth: map<Decision, nat>) returns (ready: nat)
      requires Linked()
      ensures forall r :: r in sys.needs(d) && r in members && r in depth ==> depth[r] <= ready
      ensures ready == 0 || exists r :: r in sys.needs(d) && r in members && r in depth && depth[r] == ready
    {
      assert Unfold(0);
      var q := DependencyList(c, d);
      assert T.Members(q) == sys.needs(d);
      ready := 0;
      var i := 0;
      while i < |q|
        invariant i <= |q|
        invariant forall j :: 0 <= j < i && q[j] in members && q[j] in depth ==> depth[q[j]] <= ready
        invariant ready == 0 || exists r :: r in q && r in members && r in depth && depth[r] == ready
      {
        if q[i] in members && q[i] in depth && depth[q[i]] > ready {
          ready := depth[q[i]];
        }
        i := i + 1;
      }
      forall r | r in sys.needs(d) && r in members && r in depth ensures depth[r] <= ready {
        assert r in T.Members(q);
      }
      if ready != 0 {
        var r :| r in q && r in members && r in depth && depth[r] == ready;
        assert r in T.Members(q);
      }
    }

    /** The attacks and departures of a cycle, in its order. */
    static method Choices(component: seq<Decision>) returns (chosen: seq<Decision>)
      ensures chosen == ChoicesOf(component)
    {
      chosen := [];
      var i := 0;
      while i < |component|
        invariant i <= |component| && chosen == ChoicesOf(component[..i])
      {
        assert component[..i + 1] == component[..i] + [component[i]];
        ChoicesAppend(component[..i], component[i]);
        if !component[i].Dislodged? {
          chosen := chosen + [component[i]];
        }
        i := i + 1;
      }
      assert component[..i] == component;
    }

    /** Choice i is fixed at depth i + 1. */
    static method Depths(chosen: seq<Decision>) returns (depth: map<Decision, nat>)
      requires T.Distinct(chosen)
      ensures depth.Keys == T.Members(chosen) && forall i :: 0 <= i < |chosen| ==> depth[chosen[i]] == i + 1
    {
      depth := map[];
      var i := 0;
      while i < |chosen|
        invariant i <= |chosen| && depth.Keys == T.Members(chosen[..i])
        invariant forall j :: 0 <= j < i ==> chosen[j] in depth && depth[chosen[j]] == j + 1
      {
        T.TakeOneMore(chosen, i);
        depth := depth[chosen[i] := i + 1];
        i := i + 1;
      }
      assert chosen[..i] == chosen;
    }

    /** Places each dislodgement of the cycle at the depth its reads allow. */
    method PlaceDerived(component: seq<Decision>, chosen: seq<Decision>, depth0: map<Decision, nat>, ghost p: Part)
      returns (derivedAt: seq<seq<Decision>>, depth: map<Decision, nat>)
      requires Linked() && Derivable(sys) && T.Distinct(component) && T.Members(component) == p.m
      requires T.Members(chosen) == depth0.Keys
      requires forall d :: d in chosen <==> d in p.m && !d.Dislodged?
      requires forall d :: d in chosen ==> depth0[d] <= |chosen|
      ensures |derivedAt| == |chosen| + 1 && depth.Keys == p.m
      ensures forall d :: d in depth0 ==> depth[d] == depth0[d]
      ensures forall d :: d in p.m && d.Dislodged? ==> depth[d] <= |chosen| && d in derivedAt[depth[d]]
      ensures forall k, d :: 0 <= k < |derivedAt| && d in derivedAt[k] ==>
                d in p.m && d.Dislodged? && depth[d] == k && FixedBy(sys, p, depth, d, k)
    {
      depth := depth0;
      derivedAt := seq(|chosen| + 1, i => []);
      var i := 0;
      while i < |component|
        invariant i <= |component| && Placed(p, component[..i], chosen, depth0, depth, derivedAt)
      {
        derivedAt, depth := PlaceNext(component, i, chosen, depth0, depth, derivedAt, p);
        i := i + 1;
      }
      assert component[..i] == component;
      AllPlaced(p, component, chosen, depth0, depth, derivedAt);
    }

    /** Places one more member of the cycle, if it is a dislodgement. */
    method PlaceNext(component: seq<Decision>, i: nat, chosen: seq<Decision>, ghost depth0: map<Decision, nat>,
                     depth: map<Decision, nat>, derivedAt: seq<seq<Decision>>, ghost p: Part)
      returns (derivedAt': seq<seq<Decision>>, depth': map<Decision, nat>)
      requires Linked() && Derivable(sys) && T.Distinct(component) && T.Members(component) == p.m && i < |component|
      requires T.Members(chosen) == depth0.Keys
      requires forall d :: d in chosen <==> d in p.m && !d.Dislodged?
      requires forall d :: d in chosen ==> depth0[d] <= |chosen|
      requires Placed(p, component[..i], chosen, depth0, depth, derivedAt)
      ensures Placed(p, component[..i + 1], chosen, depth0, depth', derivedAt')
    {
      derivedAt', depth' := derivedAt, depth;
      var d := component[i];
      assert d in T.Members(component);
      assert component[..i + 1] == component[..i] + [d];
      if d.Dislodged? {
        var ready := ReadyAt(d, T.Members(component), depth);
        assert d !in component[..i];
        PlaceOne(p, component[..i], chosen, depth0, depth, derivedAt, d, ready);
        derivedAt' := derivedAt[ready := derivedAt[ready] + [d]];
        depth' := depth[d := ready];
      }
    }

    static lemma MembersOf(q: seq<Decision>, m: set<Decision>)
      requires T.Members(q) == m
      ensures forall d :: d in q <==> d in m
    {
    }

    lemma AllPlaced(p: Part, component: seq<Decision>, chosen: seq<Decision>, depth0: map<Decision, nat>,
                    depth: map<Decision, nat>, derivedAt: seq<seq<Decision>>)
      requires T.Members(component) == p.m && T.Members(chosen) == depth0.Keys
      requires forall d :: d in chosen <==> d in p.m && !d.Dislodged?
      requires Placed(p, component, chosen, depth0, depth, derivedAt)
      ensures depth.Keys == p.m && forall d :: d in p.m && d.Dislodged? ==> depth[d] <= |chosen| && d in derivedAt[depth[d]]
    {
      MembersOf(component, p.m);
      MembersOf(chosen, depth0.Keys);
    }

    /** The dislodgements of `done` are placed. */
    ghost predicate Placed(p: Part, done: seq<Decision>, chosen: seq<Decision>, depth0: map<Decision, nat>,
                           depth: map<Decision, nat>, derivedAt: seq<seq<Decision>>)
    {
      && |derivedAt| == |chosen| + 1
      && (forall d :: d in depth <==> d in depth0 || (d in done && d.Dislodged?))
      && (forall d :: d in depth0 ==> depth[d] == depth0[d])
      && (forall d :: d in done && d.Dislodged? ==> depth[d] <= |chosen| && d in derivedAt[depth[d]])
      && (forall k, d :: 0 <= k < |derivedAt| && d in derivedAt[k] ==>
            d in p.m && d.Dislodged? && d in depth && depth[d] == k && FixedBy(sys, p, depth, d, k))
    }

    lemma PlaceOne(p: Part, done: seq<Decision>, chosen: seq<Decision>, depth0: map<Decision, nat>,
                   depth: map<Decision, nat>, derivedAt: seq<seq<Decision>>, d: Decision, ready: nat)
      requires Derivable(sys) && Placed(p, done, chosen, depth0, depth, derivedAt) && d in p.m && d.Dislodged?
      requires T.Members(chosen) == depth0.Keys && forall e :: e in chosen <==> e in p.m && !e.Dislodged?
      requires forall e :: e in chosen ==> depth0[e] <= |chosen|
      requires forall r :: r in sys.needs(d) && r in p.m && r in depth ==> depth[r] <= ready
      requires ready == 0 || exists r :: r in sys.needs(d) && r in p.m && r in depth && depth[r] == ready
      requires d !in done
      ensures ready <= |chosen|
      ensures Placed(p, done + [d], chosen, depth0, depth[d := ready], derivedAt[ready := derivedAt[ready] + [d]])
    {
    }

    /** Places each choice at the depth where it and all it reads are fixed. */
    method PlaceChecks(chosen: seq<Decision>, members: set<Decision>, depth: map<Decision, nat>, ghost p: Part)
      returns (checkedAt: seq<seq<Decision>>)
      requires Linked() && members == p.m == depth.Keys
      requires forall d :: d in chosen <==> d in p.m && !d.Dislodged?
      requires forall d :: d in depth ==> depth[d] <= |chosen|
      ensures |checkedAt| == |chosen| + 1
      ensures forall k, d :: 0 <= k < |checkedAt| && d in checkedAt[k] ==>
                d in p.m && !d.Dislodged? && depth[d] <= k && FixedBy(sys, p, depth, d, k)
      ensures forall d :: d in p.m && !d.Dislodged? ==> exists k :: 0 <= k < |checkedAt| && d in checkedAt[k]
    {
      checkedAt := seq(|chosen| + 1, i => []);
      var i := 0;
      while i < |chosen|
        invariant i <= |chosen| && |checkedAt| == |chosen| + 1
        invariant forall k, d :: 0 <= k < |checkedAt| && d in checkedAt[k] ==>
                    d in p.m && !d.Dislodged? && depth[d] <= k && FixedBy(sys, p, depth, d, k)
        invariant forall j :: 0 <= j < i ==> exists k :: 0 <= k < |checkedAt| && chosen[j] in checkedAt[k]
      {
        var d := chosen[i];
        assert d in chosen;
        var ready := ReadyAt(d, members, depth);
        if ready < depth[d] {
          ready := depth[d];
        }
        ghost var before := checkedAt;
        checkedAt := checkedAt[ready := checkedAt[ready] + [d]];
        assert d in checkedAt[ready];
        forall j | 0 <= j < i ensures exists k :: 0 <= k < |checkedAt| && chosen[j] in checkedAt[k] {
          var k :| 0 <= k < |before| && chosen[j] in before[k];
          assert chosen[j] in checkedAt[k];
        }
        i := i + 1;
      }
    }

    /** The choices of a cycle with their depths. */
    static method ChooseInOrder(component: seq<Decision>, ghost m: set<Decision>) returns (chosen: seq<Decision>, depth: map<Decision, nat>)
      requires T.Distinct(component) && T.Members(component) == m
      ensures chosen == ChoicesOf(component) && T.Distinct(chosen) && depth.Keys == T.Members(chosen)
      ensures forall d :: d in chosen <==> d in m && !d.Dislodged?
      ensures forall i :: 0 <= i < |chosen| ==> chosen[i] in depth && depth[chosen[i]] == i + 1
      ensures forall d :: d in depth ==> depth[d] <= |chosen|
    {
      chosen := Choices(component);
      ChoicesChosen(component);
      forall d ensures d in m <==> d in component {
        assert d in component <==> d in T.Members(component);
      }
      depth := Depths(chosen);
    }

    /** newCycleSearch */
    method MakePlan(component: seq<Decision>, ghost p: Part) returns (plan: Plan, ghost depth: map<Decision, nat>)
      requires Linked() && Derivable(sys) && T.Distinct(component) && T.Members(component) == p.m
      ensures Fits(sys, p, plan, depth) && plan.chosen == ChoicesOf(component)
    {
      var chosen, depth0 := ChooseInOrder(component, p.m);
      MembersOf(chosen, T.Members(chosen));
      var derivedAt, placed := PlaceDerived(component, chosen, depth0, p);
      var checkedAt := PlaceChecks(chosen, placed.Keys, placed, p);
      plan := Plan(chosen, derivedAt, checkedAt);
      depth := placed;
      ChoicesFit(p, plan, depth0, depth);
      DerivedFit(p, plan, depth);
      ChecksFit(p, plan, depth);
    }

    static lemma ChoicesFit(p: Part, plan: Plan, depth0: map<Decision, nat>, depth: map<Decision, nat>)
      requires depth.Keys == p.m && T.Distinct(plan.chosen) && forall d :: d in plan.chosen <==> d in p.m && !d.Dislodged?
      requires forall i :: 0 <= i < |plan.chosen| ==> plan.chosen[i] in depth0 && depth0[plan.chosen[i]] == i + 1
      requires forall d :: d in depth0 ==> d in depth && depth[d] == depth0[d]
      ensures FitsChoices(p, plan, depth)
    {
    }

    lemma DerivedFit(p: Part, plan: Plan, depth: map<Decision, nat>)
      requires |plan.derivedAt| == |plan.chosen| + 1 && depth.Keys == p.m
      requires forall d :: d in p.m && d.Dislodged? ==> depth[d] <= |plan.chosen| && d in plan.derivedAt[depth[d]]
      requires forall k, d :: 0 <= k < |plan.derivedAt| && d in plan.derivedAt[k] ==>
                 d in p.m && d.Dislodged? && depth[d] == k && FixedBy(sys, p, depth, d, k)
      ensures FitsDerived(sys, p, plan, depth)
    {
    }

    lemma ChecksFit(p: Part, plan: Plan, depth: map<Decision, nat>)
      requires |plan.checkedAt| == |plan.chosen| + 1 && depth.Keys == p.m
      requires forall k, d :: 0 <= k < |plan.checkedAt| && d in plan.checkedAt[k] ==>
                 d in p.m && !d.Dislodged? && depth[d] <= k && FixedBy(sys, p, depth, d, k)
      requires forall d :: d in p.m && !d.Dislodged? ==> exists k :: 0 <= k < |plan.checkedAt| && d in plan.checkedAt[k]
      ensures FitsChecks(sys, p, plan, depth)
    {
    }

    // ---------- solving a component

    /** A cycle was settled by the status quo. */
    ghost var fellBack: bool

    /** None of the attacks and departures of a cycle succeeds; the dislodgements follow. */
    method StatusQuo(component: seq<Decision>, ghost p: Part)
      requires Searching(p) && Resolvable(sys, p) && T.Members(component) == p.m && trial.Keys <= p.m
      modifies this`trial
      ensures trial.Keys == p.m
      ensures forall d :: d in p.m ==> if d.Dislodged? then Right(sys, p, trial, d) else !trial[d]
    {
      FailChoices(component, p);
      var i := 0;
      while i < |component|
        invariant i <= |component| && trial.Keys <= p.m
        invariant forall d :: d in p.m && !d.Dislodged? ==> d in trial && !trial[d]
        invariant forall j :: 0 <= j < i && component[j].Dislodged? ==> Right(sys, p, trial, component[j])
      {
        assert component[i] in T.Members(component);
        if component[i].Dislodged? {
          StatusQuoNeeds(p, component[i]);
          DeriveAfterFailure(sys, p, trial, component[i]);
          var value := Judge(component[i]);
          trial := trial[component[i] := value];
        }
        i := i + 1;
      }
      forall d | d in p.m ensures if d.Dislodged? then Right(sys, p, trial, d) else d in trial && !trial[d] {
        assert d in T.Members(component);
      }
    }

    lemma StatusQuoNeeds(p: Part, d: Decision)
      requires Resolvable(sys, p) && d in p.m && d.Dislodged? && p.settled == settled
      requires forall e :: e in p.m && !e.Dislodged? ==> e in trial
      ensures sys.needs(d) <= Known()
    {
    }

    method FailChoices(component: seq<Decision>, ghost p: Part)
      requires T.Members(component) == p.m && trial.Keys <= p.m
      modifies this`trial
      ensures trial.Keys <= p.m && forall d :: d in p.m && !d.Dislodged? ==> d in trial && !trial[d]
    {
      var i := 0;
      while i < |component|
        invariant i <= |component| && trial.Keys <= p.m
        invariant forall j :: 0 <= j < i && !component[j].Dislodged? ==> component[j] in trial && !trial[component[j]]
      {
        assert component[i] in T.Members(component);
        if !component[i].Dislodged? {
          trial := trial[component[i] := false];
        }
        i := i + 1;
      }
      forall d | d in p.m && !d.Dislodged? ensures d in trial && !trial[d] {
        assert d in T.Members(component);
      }
    }

    method ReadsItself(d: Decision) returns (b: bool)
      requires Linked()
      ensures b <==> d in sys.needs(d)
    {
      assert Unfold(0);
      var q := DependencyList(c, d);
      assert T.Members(q) == sys.needs(d);
      b := d in q;
      assert b <==> d in T.Members(q);
    }

    /** Searches a cycle; without a resolution, the status quo. */
    method SolveCycle(component: seq<Decision>, ghost p: Part)
      requires Searching(p) && Resolvable(sys, p) && T.Distinct(component) && T.Members(component) == p.m && trial == map[]
      modifies this`trial, this`fellBack
      ensures Solved(sys, p, component, trial)
      ensures fellBack <==> old(fellBack) || !(exists y :: IsResolution(sys, p, y))
    {
      ghost var depth;
      var plan;
      plan, depth := MakePlan(component, p);
      StartSearch(sys, p, plan, depth);
      var ok := Run(plan, 0, p, depth);
      if !ok {
        StatusQuo(component, p);
        fellBack := true;
        assert forall y :: IsResolution(sys, p, y) ==> AgreeOn(y, map[], plan.chosen[..0]);
      } else {
        assert IsResolution(sys, p, trial);
        assert forall y :: AgreeOn(y, trial, plan.chosen[..0]);
      }
    }

    /** A decision that does not read itself is adjudicated directly. */
    method SolveAlone(d: Decision, ghost p: Part)
      requires Searching(p) && Resolvable(sys, p) && p.m == {d} && d !in sys.needs(d) && trial == map[]
      modifies this`trial
      ensures Solved(sys, p, [d], trial)
      ensures exists y :: IsResolution(sys, p, y)
    {
      var value := Judge(d);
      trial := map[d := value];
      AloneSolved(sys, p, d, value);
      assert IsResolution(sys, p, trial);
    }

    /** Finds the values of a component: alone if it reads nothing of itself, else as a cycle. */
    method SolveComponent(component: seq<Decision>, ghost p: Part)
      requires Searching(p) && Resolvable(sys, p) && T.Distinct(component) && T.Members(component) == p.m && trial == map[]
      requires component != []
      modifies this`trial, this`fellBack
      ensures Solved(sys, p, component, trial)
      ensures fellBack <==> old(fellBack) || !(exists y :: IsResolution(sys, p, y))
    {
      var alone := false;
      if |component| == 1 {
        var cyclic := ReadsItself(component[0]);
        alone := !cyclic;
      }
      if alone {
        assert component == [component[0]];
        assert p.m == {component[0]};
        SolveAlone(component[0], p);
      } else {
        SolveCycle(component, p);
      }
    }

    /** Settles a component; x is what it adds. */
    method Solve(component: seq<Decision>, ghost p: Part) returns (ghost x: View)
      requires Searching(p) && Resolvable(sys, p) && T.Distinct(component) && T.Members(component) == p.m && trial == map[]
      requires component != []
      modifies this`trial, this`settled, this`fellBack
      ensures trial == map[] && Linked() && Indexed()
      ensures settled == x + old(settled) && x.Keys == p.m && Solved(sys, p, component, x)
      ensures fellBack <==> old(fellBack) || !(exists y :: IsResolution(sys, p, y))
    {
      SolveComponent(component, p);
      x := trial;
      settled := trial + settled;
      trial := map[];
    }

    // ---------- the whole turn

    constructor (c: Context)
      requires WellFormed(c)
      ensures this.c == c && Linked() && Indexed() && settled == map[] && trial == map[] && !fellBack
    {
      this.c := c;
      settled, trial, fellBack := map[], map[], false;
      sys := TurnSystem(c);
      all := Decisions(c);
      new;
      attacksByTarget := IndexAttacks(c);
      staticCuts := StaticSupportCuts(c);
    }

    /** The dependency graph of the turn. */
    method DependencyGraph(decisions: seq<Decision>) returns (graph: map<Decision, seq<Decision>>)
      ensures graph.Keys == T.Members(decisions)
      ensures forall d :: d in graph ==> T.Members(graph[d]) == Reads(c, d)
    {
      graph := map[];
      var i := 0;
      while i < |decisions|
        invariant i <= |decisions| && graph.Keys == T.Members(decisions[..i])
        invariant forall d :: d in graph ==> T.Members(graph[d]) == Reads(c, d)
      {
        T.TakeOneMore(decisions, i);
        var q := DependencyList(c, decisions[i]);
        graph := graph[decisions[i] := q];
        i := i + 1;
      }
      assert decisions[..i] == decisions;
    }

    /** What is known of the turn after some components are settled. */
    ghost predicate Settling(done: set<Decision>)
      reads this
    {
      && Linked() && Indexed() && WellFormed(c) && trial == map[] && settled.Keys == done
      && Justified(c, settled)
      && (!fellBack ==> ConsistentOn(c, settled, done))
      && (Prepared(c) ==> !fellBack && AgreesWithGreatest(c, settled))
    }

    method SolveNext(component: seq<Decision>, ghost done: set<Decision>)
      requires Settling(done) && component != [] && T.Distinct(component) && ByKind(component)
      requires T.Members(component) !! done && ReadsClosed(c, done + T.Members(component))
      modifies this`trial, this`settled, this`fellBack
      ensures Settling(done + T.Members(component))
    {
      ghost var p := Part(settled, T.Members(component));
      assert Unfold(0);
      TurnDetermined(c);
      PartResolvable(c, p);
      ghost var before := fellBack;
      ghost var x := Solve(component, p);
      SettleKeeps(c, p, component, x);
      if Prepared(c) {
        SolvedIsGreatest(c, p, component, x);
      }
    }

    /** Orders a component as the decisions of the turn, and settles it. */
    method SolveListed(decisions: seq<Decision>, listed: seq<Decision>, ghost done: set<Decision>)
      requires decisions == DecisionList(c) && T.Members(listed) <= Decisions(c)
      requires Settling(done) && listed != [] && T.Members(listed) !! done && ReadsClosed(c, done + T.Members(listed))
      modifies this`trial, this`settled, this`fellBack
      ensures Settling(done + T.Members(listed))
    {
      ListMembers(c);
      ListOrder(c);
      var component := Keep(decisions, T.Members(listed));
      KeepOrder(decisions, T.Members(listed));
      assert T.Members(component) == T.Members(listed);
      assert listed[0] in T.Members(component);
      SolveNext(component, done);
    }

    /**
     Settles every decision of the turn. No read ever finds an unsettled decision;
     every success and every dislodgement is justified by the final values; and when
     attacked origins were cancelled, no cycle falls back to the status quo and the
     result is the greatest consistent resolution.
     */
    method ResolveAll()
      requires WellFormed(c) && Linked() && Indexed() && settled == map[] && trial == map[] && !fellBack
      modifies this`trial, this`settled, this`fellBack
      ensures settled.Keys == Decisions(c) && trial == map[] && Justified(c, settled)
      ensures !fellBack ==> Consistent(c, settled)
      ensures Prepared(c) ==> !fellBack && settled == GreatestResolution(c)
    {
      var decisions := DecisionList(c);
      ListMembers(c);
      ListOrder(c);
      var graph := DependencyGraph(decisions);
      GraphOfTurn(c, graph);
      var components := T.StronglyConnected(graph, decisions);
      var i := 0;
      ghost var done: set<Decision> := {};
      while i < |components|
        invariant i <= |components| && done == T.Listed(components[..i])
        invariant Settling(done)
      {
        ComponentNext(c, graph, components, i);
        SolveListed(decisions, components[i], done);
        T.ListedNext(components, i);
        done := done + T.Members(components[i]);
        i := i + 1;
      }
      assert components[..i] == components;
      if Prepared(c) {
        AllAgree(c, settled);
      }
    }
  }
}
