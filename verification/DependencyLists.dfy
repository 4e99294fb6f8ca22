/**
 Listing the dependencies of a decision, and the indexes the adjudicator
 builds before it starts.
 */
module DependencyLists {
  import opened Wrappers
  import opened SortedIds
  import opened Turn
  import opened Combat
  import opened Groups
  import opened Dependencies
  import T = Tarjan

  /** The supports cut whatever the outcome of the attack that cuts them. */
  ghost function CutSupports(c: Context): set<ArmyId>
  {
    set s | s in c.supports && StaticallyCut(c, s)
  }

  /** The attacks of a turn by destination, each list sorted. */
  ghost predicate IsIndex(c: Context, byTarget: map<TerritoryId, seq<ArmyId>>)
  {
    forall t :: (t in byTarget <==> t in AttackTargets(c)) && (t in byTarget ==> byTarget[t] == Sorted(Attackers(c, t)))
  }

  function AttackTargets(c: Context): set<TerritoryId>
  {
    set a | a in c.attacks :: c.attacks[a].target
  }

  /** Whether an attack cuts a support: an enemy one, not from where the support is directed. */
  predicate Cuts(c: Context, b: ArmyId, s: ArmyId)
    requires b in c.attacks && s in c.supports
  {
    c.attacks[b].target == c.supports[s].source && c.attacks[b].source != ExemptOrigin(c.supports[s])
    && OwnerOf(c, b) != OwnerOf(c, s)
  }

  method IsCut(c: Context, s: ArmyId) returns (cut: bool)
    requires s in c.supports
    ensures cut == StaticallyCut(c, s)
  {
    var ids := Sorted(c.attacks.Keys);
    var i := 0;
    while i < |ids|
      invariant i <= |ids|
      invariant forall j :: 0 <= j < i ==> ids[j] in c.attacks && !Cuts(c, ids[j], s)
    {
      assert ids[i] in ids;
      if Cuts(c, ids[i], s) {
        return true;
      }
      i := i + 1;
    }
    forall b | b in c.attacks ensures !Cuts(c, b, s) {
      assert b in ids;
    }
    return false;
  }

  method CutsAmong(c: Context, ids: seq<ArmyId>) returns (cuts: set<ArmyId>)
    requires forall s :: s in ids ==> s in c.supports
    ensures forall s :: s in cuts <==> s in ids && StaticallyCut(c, s)
  {
    cuts := {};
    var i := 0;
    while i < |ids|
      invariant i <= |ids|
      invariant forall s :: s in cuts ==> s in ids && StaticallyCut(c, s)
      invariant forall j :: 0 <= j < i && StaticallyCut(c, ids[j]) ==> ids[j] in cuts
    {
      var cut := IsCut(c, ids[i]);
      if cut {
        cuts := cuts + {ids[i]};
      }
      i := i + 1;
    }
  }

  method StaticSupportCuts(c: Context) returns (cuts: set<ArmyId>)
    ensures cuts == CutSupports(c)
  {
    cuts := CutsAmong(c, Sorted(c.supports.Keys));
  }

  lemma {:induction false} FilterAppend(q: seq<nat>, x: nat, keep: set<nat>)
    ensures Filter(q + [x], keep) == Filter(q, keep) + (if x in keep then [x] else [])
  {
    if q != [] {
      assert (q + [x])[1..] == q[1..] + [x];
      FilterAppend(q[1..], x, keep);
    }
  }

  /** The attacks of a list on each destination. */
  ghost predicate Indexes(c: Context, byTarget: map<TerritoryId, seq<ArmyId>>, ids: seq<ArmyId>)
  {
    forall t :: (if t in byTarget then byTarget[t] else []) == Filter(ids, Attackers(c, t)) && (t in byTarget ==> byTarget[t] != [])
  }

  lemma IndexesAppend(c: Context, byTarget: map<TerritoryId, seq<ArmyId>>, ids: seq<ArmyId>, a: ArmyId)
    requires Indexes(c, byTarget, ids) && a in c.attacks
    ensures var t := c.attacks[a].target;
            Indexes(c, byTarget[t := (if t in byTarget then byTarget[t] else []) + [a]], ids + [a])
  {
    forall t ensures Filter(ids + [a], Attackers(c, t)) == Filter(ids, Attackers(c, t)) + (if t == c.attacks[a].target then [a] else []) {
      FilterAppend(ids, a, Attackers(c, t));
    }
  }

  lemma AttackersInOrder(c: Context, t: TerritoryId)
    ensures Filter(Sorted(c.attacks.Keys), Attackers(c, t)) == Sorted(Attackers(c, t))
    ensures t in AttackTargets(c) <==> Sorted(Attackers(c, t)) != []
  {
    SortedOfPart(c.attacks.Keys, Attackers(c, t));
    assert c.attacks.Keys * Attackers(c, t) == Attackers(c, t);
    EmptyOrMember(Sorted(Attackers(c, t)));
  }

  lemma IndexesAll(c: Context, byTarget: map<TerritoryId, seq<ArmyId>>)
    requires Indexes(c, byTarget, Sorted(c.attacks.Keys))
    ensures IsIndex(c, byTarget)
  {
    forall t ensures (t in byTarget <==> t in AttackTargets(c)) && (t in byTarget ==> byTarget[t] == Sorted(Attackers(c, t))) {
      AttackersInOrder(c, t);
    }
  }

  method IndexAttacks(c: Context) returns (byTarget: map<TerritoryId, seq<ArmyId>>)
    ensures IsIndex(c, byTarget)
  {
    byTarget := IndexEach(c, Sorted(c.attacks.Keys));
    IndexesAll(c, byTarget);
  }

  method IndexEach(c: Context, ids: seq<ArmyId>) returns (byTarget: map<TerritoryId, seq<ArmyId>>)
    requires forall a :: a in ids ==> a in c.attacks
    ensures Indexes(c, byTarget, ids)
  {
    byTarget := map[];
    var i := 0;
    while i < |ids|
      invariant i <= |ids| && Indexes(c, byTarget, ids[..i])
    {
      assert ids[..i + 1] == ids[..i] + [ids[i]];
      IndexesAppend(c, byTarget, ids[..i], ids[i]);
      var target := c.attacks[ids[i]].target;
      byTarget := byTarget[target := (if target in byTarget then byTarget[target] else []) + [ids[i]]];
      i := i + 1;
    }
    assert ids[..i] == ids;
  }

  // ---------- dependencies

  method StayList(c: Context, a: ArmyId) returns (q: seq<Decision>)
    ensures T.Members(q) == StayReads(c, a)
  {
    q := if a in c.attacks then [Move(a)] else if IsPeaceful(c, a) then [Departure(a)] else [];
  }

  /** The dislodgements of listed armies. */
  method DislodgedOf(ids: seq<ArmyId>, kept: set<ArmyId>) returns (q: seq<Decision>)
    ensures T.Members(q) == set a | a in T.Members(ids) * kept :: Dislodged(a)
  {
    q := [];
    ghost var seen: set<ArmyId> := {};
    var i := 0;
    while i < |ids|
      invariant i <= |ids| && seen == T.Members(ids[..i])
      invariant T.Members(q) == set a | a in seen * kept :: Dislodged(a)
    {
      T.TakeOneMore(ids, i);
      if ids[i] in kept {
        T.MembersConcat(q, [Dislodged(ids[i])]);
        q := q + [Dislodged(ids[i])];
      }
      seen := seen + {ids[i]};
      i := i + 1;
    }
    assert ids[..i] == ids;
  }

  /** The armies whose standing supports help an army. */
  method SupporterList(c: Context, a: ArmyId, offensive: bool) returns (q: seq<Decision>)
    ensures T.Members(q) == SupportReads(c, a, offensive)
  {
    q := DislodgedOf(Sorted(c.supports.Keys), StandingSupports(c, a, offensive));
    assert T.Members(Sorted(c.supports.Keys)) * StandingSupports(c, a, offensive) == StandingSupports(c, a, offensive);
  }

  method AttackList(c: Context, t: TerritoryId) returns (q: seq<Decision>)
    ensures T.Members(q) == AttackReads(c, t)
  {
    q := [];
    var ids := Sorted(Attackers(c, t));
    var i := 0;
    while i < |ids|
      invariant i <= |ids|
      invariant T.Members(q) == set b | b in ids[..i] :: Move(b)
    {
      assert ids[..i + 1] == ids[..i] + [ids[i]];
      T.MembersConcat(q, [Move(ids[i])]);
      q := q + [Move(ids[i])];
      i := i + 1;
    }
    assert ids[..i] == ids;
  }

  method TerritoryList(c: Context, t: TerritoryId) returns (q: seq<Decision>)
    ensures T.Members(q) == TerritoryReads(c, t)
  {
    q := AttackList(c, t);
    var occupant := OccupantAt(c, t);
    if occupant.Some? {
      var stay := StayList(c, occupant.value);
      T.MembersConcat(stay, [Dislodged(occupant.value)]);
      T.MembersConcat(stay + [Dislodged(occupant.value)], q);
      q := stay + [Dislodged(occupant.value)] + q;
    }
  }

  /** Everything combat may tell the rules of a group. */
  method GroupList(c: Context, a: ArmyId) returns (q: seq<Decision>)
    ensures T.Members(q) == GroupReads(c, a)
  {
    var armies := GroupArmies(c, a);
    q := DislodgedOf(Sorted(armies), armies);
    SortedMembers(armies);
    var ofTerritories := TouchedList(c, Sorted(AllTouched(Scratch(c, a))));
    T.MembersConcat(q, ofTerritories);
    q := q + ofTerritories;
  }

  lemma SortedMembers(s: set<nat>)
    ensures T.Members(Sorted(s)) * s == s
  {
  }

  method TouchedList(c: Context, territories: seq<TerritoryId>) returns (q: seq<Decision>)
    ensures T.Members(q) == set t, d | t in territories && d in TerritoryReads(c, t) :: d
  {
    q := [];
    var i := 0;
    while i < |territories|
      invariant i <= |territories|
      invariant T.Members(q) == set t, d | t in territories[..i] && d in TerritoryReads(c, t) :: d
    {
      assert territories[..i + 1] == territories[..i] + [territories[i]];
      var more := TerritoryList(c, territories[i]);
      T.MembersConcat(q, more);
      q := q + more;
      i := i + 1;
    }
    assert territories[..i] == territories;
  }

  method DefenderList(c: Context, a: ArmyId, d: ArmyId) returns (q: seq<Decision>)
    requires a in c.attacks
    ensures T.Members(q) == DefenderReads(c, a, d)
  {
    q := StayList(c, d);
    if HeadToHead(c, a) {
      var opposing := SupporterList(c, d, true);
      T.MembersConcat(q, opposing);
      q := q + opposing;
    }
    var defending := SupporterList(c, d, false);
    T.MembersConcat(q, defending);
    q := q + defending;
    if IsPeaceful(c, d) {
      var group := GroupList(c, d);
      T.MembersConcat([Dislodged(d)], group);
      T.MembersConcat(q, [Dislodged(d)] + group);
      q := q + ([Dislodged(d)] + group);
    }
  }

  method RivalList(c: Context, t: TerritoryId) returns (q: seq<Decision>)
    ensures T.Members(q) == RivalReads(c, t)
  {
    q := [];
    var ids := Sorted(Attackers(c, t));
    var i := 0;
    while i < |ids|
      invariant i <= |ids|
      invariant T.Members(q) == set b, r | b in ids[..i] && r in SupportReads(c, b, true) :: r
    {
      assert ids[..i + 1] == ids[..i] + [ids[i]];
      var more := SupporterList(c, ids[i], true);
      T.MembersConcat(q, more);
      q := q + more;
      i := i + 1;
    }
    assert ids[..i] == ids;
  }

  method MoveList(c: Context, a: ArmyId) returns (q: seq<Decision>)
    requires a in c.attacks
    ensures T.Members(q) == MoveReads(c, a)
  {
    q := SupporterList(c, a, true);
    var defender := OccupantAt(c, c.attacks[a].target);
    if defender.Some? {
      var ofDefender := DefenderList(c, a, defender.value);
      T.MembersConcat(q, ofDefender);
      q := q + ofDefender;
    }
    var rivals := RivalList(c, c.attacks[a].target);
    T.MembersConcat(q, rivals);
    q := q + rivals;
  }

  method DislodgedList(c: Context, a: ArmyId) returns (q: seq<Decision>)
    ensures T.Members(q) == DislodgedReads(c, a)
  {
    q := [];
    if a in c.armies && Attackers(c, c.armies[a].territory) != {} {
      q := StayList(c, a);
      var attacks := AttackList(c, c.armies[a].territory);
      T.MembersConcat(q, attacks);
      q := q + attacks;
    }
  }

  /** Every decision that adjudicating d may read. */
  method DependencyList(c: Context, d: Decision) returns (q: seq<Decision>)
    ensures T.Members(q) == Reads(c, d)
  {
    match d
    case Move(a) => if a in c.attacks { q := MoveList(c, a); } else { q := []; }
    case Departure(a) => q := GroupList(c, a);
    case Dislodged(a) => q := DislodgedList(c, a);
  }
}
