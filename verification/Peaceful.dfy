/**
 The join and dispersion rules, run once combat is known through facts. They
 work on the joins and dispersions of a context and on the outcomes of their
 orders: resolveDispersions, resolveJoins, resolveVacatedDisperseDestinations
 and finalizeDispersions, in that order.
 */
module Peaceful {
  import opened Wrappers
  import opened SortedIds
  import opened Turn
  import opened Facts

  datatype Outcome = Pending | Success | Failure | Invalid

  /** Where a completed join ends: alone on its target, or fused into a host. */
  datatype JoinResult = JoinResult(host: Option<ArmyId>, pair: bool)

  /** One flag per target, and the troops that stay behind. */
  datatype Dispersal = Dispersal(resolved: seq<bool>, remaining: int, invalid: bool)

  datatype Rules = Rules(
    outcome: map<ArmyId, Outcome>,
    joined: map<ArmyId, JoinResult>,
    dispersed: map<ArmyId, Dispersal>)

  function OutcomeOf(st: Rules, a: ArmyId): Outcome
  {
    if a in st.outcome then st.outcome[a] else Pending
  }

  // ---------- dispersions

  /** An attack of the same player wins the territory and its army has left. */
  predicate AlliedAttackArrival(c: Context, f: CombatFacts, t: TerritoryId, owner: PlayerId)
  {
    var w := WinnerAt(c, f, t);
    w.Some? && OwnerOf(c, w.value) == owner && DefenderLeaves(c, f, t)
  }

  predicate IsCandidate(c: Context, f: CombatFacts, m: ArmyId, t: TerritoryId)
    requires m in c.disperses
  {
    var owner := OwnerOf(c, m);
    if Attacked(c, f, t) then AlliedAttackArrival(c, f, t, owner)
    else
      t == c.disperses[m].source ||
      match OccupantAt(c, t)
      case None => true
      case Some(o) =>
        AttackMoves(c, f, o) || (OwnerOf(c, o) == owner && o !in c.joins && o !in c.disperses)
  }

  /** Dispersions still under consideration, given those found invalid so far. */
  predicate IsActive(c: Context, f: CombatFacts, invalid: set<ArmyId>, m: ArmyId)
  {
    m in c.disperses && !IsDislodged(c, f, m) && m !in invalid
  }

  function Claimants(c: Context, f: CombatFacts, invalid: set<ArmyId>, t: TerritoryId): set<ArmyId>
  {
    set m | m in c.disperses && IsActive(c, f, invalid, m) && t in c.disperses[m].targets
            && t != c.disperses[m].source && IsCandidate(c, f, m, t)
  }

  predicate ShareOwner(c: Context, claimants: set<ArmyId>)
  {
    claimants != {} && forall m, n :: m in claimants && n in claimants ==> OwnerOf(c, m) == OwnerOf(c, n)
  }

  /** The dispersion may send a troop to this target, troops permitting. */
  predicate MayResolve(c: Context, f: CombatFacts, invalid: set<ArmyId>, m: ArmyId, t: TerritoryId)
    requires m in c.disperses
  {
    IsCandidate(c, f, m, t) && (t != c.disperses[m].source ==> ShareOwner(c, Claimants(c, f, invalid, t)))
  }

  /** Targets take one troop each, in order, while troops last. */
  function Allot(allowed: seq<bool>, available: int): (resolved: seq<bool>)
    ensures |resolved| == |allowed|
  {
    if allowed == [] then []
    else if allowed[0] && available >= 1 then [true] + Allot(allowed[1..], available - 1)
    else [false] + Allot(allowed[1..], available)
  }

  function CountTrue(bits: seq<bool>): nat
  {
    if bits == [] then 0 else (if bits[0] then 1 else 0) + CountTrue(bits[1..])
  }

  function Resolution(c: Context, f: CombatFacts, invalid: set<ArmyId>, m: ArmyId): (resolved: seq<bool>)
    requires m in c.disperses
    ensures |resolved| == |c.disperses[m].targets|
  {
    var targets := c.disperses[m].targets;
    Allot(seq(|targets|, i requires 0 <= i < |targets| => MayResolve(c, f, invalid, m, targets[i])), SizeOf(c, m))
  }

  function Remaining(c: Context, m: ArmyId, resolved: seq<bool>): int
  {
    SizeOf(c, m) - CountTrue(resolved)
  }

  predicate IsComplete(resolved: seq<bool>)
  {
    forall i :: 0 <= i < |resolved| ==> resolved[i]
  }

  /** Some troop of the dispersion is sent to t. */
  predicate Reaches(d: Disperse, resolved: seq<bool>, t: TerritoryId)
  {
    exists i :: 0 <= i < |d.targets| && i < |resolved| && d.targets[i] == t && resolved[i]
  }

  /** A noble on the source is assigned nowhere, or to a target no troop reaches. */
  predicate OrphansNobles(d: Disperse, resolved: seq<bool>)
  {
    || (exists t :: t in d.assignments && d.assignments[t] != {} && !Reaches(d, resolved, t))
    || (exists n :: n in d.nobles && forall t :: t in d.assignments ==> n !in d.assignments[t])
  }

  /** disperseInvalidReason, without naming the reason. */
  predicate IsRefused(c: Context, m: ArmyId, resolved: seq<bool>)
    requires m in c.disperses
  {
    var d := c.disperses[m];
    var remaining := Remaining(c, m, resolved);
    || (d.loop && |d.targets| > SizeOf(c, m))
    || (remaining == 0 && !IsComplete(resolved) && d.loop)
    || (remaining == 0 && !Reaches(d, resolved, d.source) && OrphansNobles(d, resolved))
  }

  function NewlyRefused(c: Context, f: CombatFacts, invalid: set<ArmyId>): set<ArmyId>
  {
    set m | m in c.disperses && IsActive(c, f, invalid, m) && IsRefused(c, m, Resolution(c, f, invalid, m))
  }

  /** Refused dispersions release their claims, so the others are tried again. */
  function RefusedFrom(c: Context, f: CombatFacts, invalid: set<ArmyId>): set<ArmyId>
    decreases c.disperses.Keys - invalid
  {
    var more := NewlyRefused(c, f, invalid);
    if more == {} then invalid else
      assert c.disperses.Keys - (invalid + more) < c.disperses.Keys - invalid by {
        var m :| m in more;
        assert m in c.disperses.Keys - invalid && m !in c.disperses.Keys - (invalid + more);
      }
      RefusedFrom(c, f, invalid + more)
  }

  function Dispersed(c: Context, f: CombatFacts, invalid: set<ArmyId>): map<ArmyId, Dispersal>
  {
    map m | m in c.disperses && IsActive(c, f, invalid, m) ::
      var resolved := Resolution(c, f, invalid, m);
      Dispersal(resolved, Remaining(c, m, resolved), false)
  }

  function DispersalOutcome(resolved: seq<bool>): Outcome
  {
    if IsComplete(resolved) then Success else Failure
  }

  function DispersionOutcomes(c: Context, f: CombatFacts, invalid: set<ArmyId>, dispersed: map<ArmyId, Dispersal>): map<ArmyId, Outcome>
  {
    map a | a in c.joins.Keys + c.disperses.Keys ::
      if a in dispersed then DispersalOutcome(dispersed[a].resolved)
      else if IsDislodged(c, f, a) then Failure
      else if a in invalid then Invalid
      else Pending
  }

  /** Records of dislodged armies have failed before the rules run. */
  function AfterDispersions(c: Context, f: CombatFacts): Rules
  {
    var invalid := RefusedFrom(c, f, {});
    var dispersed := Dispersed(c, f, invalid);
    Rules(DispersionOutcomes(c, f, invalid, dispersed), map[], dispersed)
  }

  // ---------- what the rules ask about dispersions

  predicate AllSentAway(d: Disperse, resolved: seq<bool>)
  {
    forall i :: 0 <= i < |d.targets| ==> i < |resolved| && resolved[i] && d.targets[i] != d.source
  }

  /** The dispersion leaves nobody on its source. */
  predicate VacatesSource(c: Context, st: Rules, m: ArmyId)
  {
    && m in st.dispersed && m in c.disperses
    && var d := st.dispersed[m];
    && !d.invalid && d.remaining == 0 && AllSentAway(c.disperses[m], d.resolved)
  }

  /** The dispersion m sends troops to t from elsewhere. */
  predicate ArrivesFrom(c: Context, st: Rules, m: ArmyId, t: TerritoryId)
  {
    && m in st.dispersed && m in c.disperses && !st.dispersed[m].invalid
    && t != c.disperses[m].source && Reaches(c.disperses[m], st.dispersed[m].resolved, t)
  }

  /** The dispersion m leaves troops on its source t. */
  predicate StillAt(c: Context, st: Rules, m: ArmyId, t: TerritoryId)
  {
    && m in st.dispersed && m in c.disperses && !st.dispersed[m].invalid
    && c.disperses[m].source == t && !VacatesSource(c, st, m)
  }

  /** The dispersions arriving on a territory or still holding it. */
  function DisperseActivity(c: Context, st: Rules, t: TerritoryId): set<ArmyId>
  {
    set m | m in st.dispersed && (ArrivesFrom(c, st, m, t) || StillAt(c, st, m, t))
  }

  predicate ActivityOwnedBy(c: Context, st: Rules, t: TerritoryId, owner: PlayerId)
  {
    var activity := DisperseActivity(c, st, t);
    activity != {} && forall m :: m in activity ==> OwnerOf(c, m) == owner
  }

  // ---------- joins

  function PendingMembers(c: Context, st: Rules, t: TerritoryId): set<ArmyId>
  {
    set a | a in c.joins && c.joins[a].target == t && OutcomeOf(st, a) == Pending
  }

  /** The army a join fuses into: the occupant, if it is not on its way out. */
  function StationaryHost(c: Context, f: CombatFacts, st: Rules, t: TerritoryId): Option<ArmyId>
  {
    match OccupantAt(c, t)
    case None => None
    case Some(h) =>
      if IsDislodged(c, f, h) then None
      else if h in c.joins && OutcomeOf(st, h) != Failure && OutcomeOf(st, h) != Invalid then None
      else if AttackMoves(c, f, h) then None
      else if h in st.dispersed then None
      else Some(h)
  }

  predicate HasUnresolvedJoin(c: Context, st: Rules, t: TerritoryId)
  {
    match OccupantAt(c, t)
    case None => false
    case Some(h) => h in c.joins && OutcomeOf(st, h) == Pending
  }

  /** What a rule decides about the joins pending at a target. */
  datatype Verdict =
    | Wait
    | Refuse(members: set<ArmyId>)
    | Accept(members: set<ArmyId>, result: JoinResult)

  function Apply(st: Rules, v: Verdict): Rules
  {
    match v
    case Wait => st
    case Refuse(members) =>
      st.(outcome := map a | a in st.outcome.Keys + members :: if a in members then Failure else st.outcome[a])
    case Accept(members, result) =>
      st.(outcome := map a | a in st.outcome.Keys + members :: if a in members then Success else st.outcome[a],
          joined := map a | a in st.joined.Keys + members :: if a in members then result else st.joined[a])
  }

  /** The stages of resolveJoins, each a pass over the join targets. */
  datatype Pass =
    | Conflict                 // joins meeting another owner's dispersion fail
    | AttackTarget             // joins toward a contested territory
    | Convergence              // too many joins, or two owners
    | Settle(final: bool)      // the others, waiting for their target to empty

  function JoinAtAttackTarget(c: Context, f: CombatFacts, t: TerritoryId, members: set<ArmyId>): Verdict
  {
    if |members| == 1 && AlliedAttackArrival(c, f, t, OwnerOf(c, Least(members)))
    then Accept(members, JoinResult(WinnerAt(c, f, t), false))
    else Refuse(members)
  }

  function SingleJoin(c: Context, f: CombatFacts, st: Rules, t: TerritoryId, a: ArmyId, final: bool): Verdict
  {
    var owner := OwnerOf(c, a);
    if DisperseActivity(c, st, t) != {} && !ActivityOwnedBy(c, st, t, owner) then Refuse({a})
    else if !final && HasUnresolvedJoin(c, st, t) then Wait
    else
      match StationaryHost(c, f, st, t)
      case Some(h) => if OwnerOf(c, h) != owner then Refuse({a}) else Accept({a}, JoinResult(Some(h), false))
      case None => Accept({a}, JoinResult(None, false))
  }

  function PairedJoin(c: Context, f: CombatFacts, st: Rules, t: TerritoryId, members: set<ArmyId>, final: bool): Verdict
    requires members != {}
  {
    if (DisperseActivity(c, st, t) != {} && exists a :: a in members && !ActivityOwnedBy(c, st, t, OwnerOf(c, a)))
       || StationaryHost(c, f, st, t).Some?
    then Refuse(members)
    else if !final && HasUnresolvedJoin(c, st, t) then Wait
    else if !ShareOwner(c, members) then Refuse(members)
    else Accept(members, JoinResult(Some(Least(members)), true))
  }

  /** One pass at one target. */
  function JoinVerdict(c: Context, f: CombatFacts, pass: Pass, st: Rules, t: TerritoryId): Verdict
  {
    var members := PendingMembers(c, st, t);
    match pass
    case Conflict =>
      if Attacked(c, f, t) || DisperseActivity(c, st, t) == {} then Wait
      else Refuse(set a | a in members && !ActivityOwnedBy(c, st, t, OwnerOf(c, a)))
    case AttackTarget =>
      if members != {} && Attacked(c, f, t) then JoinAtAttackTarget(c, f, t, members) else Wait
    case Convergence =>
      if Attacked(c, f, t) || |members| < 2 then Wait
      else if |members| > 2 || !ShareOwner(c, members) then Refuse(members)
      else Wait
    case Settle(final) =>
      if Attacked(c, f, t) then Wait
      else if |members| == 1 then SingleJoin(c, f, st, t, Least(members), final)
      else if |members| == 2 then PairedJoin(c, f, st, t, members, final)
      else Wait
  }

  function JoinStep(c: Context, f: CombatFacts, pass: Pass, st: Rules, t: TerritoryId): Rules
  {
    Apply(st, JoinVerdict(c, f, pass, st, t))
  }

  function JoinPass(c: Context, f: CombatFacts, pass: Pass, st: Rules, targets: seq<TerritoryId>): Rules
    decreases |targets|
  {
    if targets == [] then st else JoinPass(c, f, pass, JoinStep(c, f, pass, st, targets[0]), targets[1..])
  }

  function JoinTargets(c: Context): seq<TerritoryId>
  {
    Sorted(set a | a in c.joins :: c.joins[a].target)
  }

  function PendingJoins(c: Context, st: Rules): set<ArmyId>
  {
    set a | a in c.joins && OutcomeOf(st, a) == Pending
  }

  function MembersOf(v: Verdict): set<ArmyId>
  {
    match v
    case Wait => {}
    case Refuse(members) => members
    case Accept(members, _) => members
  }

  /** A verdict only concerns joins still pending at the target. */
  lemma VerdictOnPending(c: Context, f: CombatFacts, pass: Pass, st: Rules, t: TerritoryId)
    ensures MembersOf(JoinVerdict(c, f, pass, st, t)) <= PendingMembers(c, st, t)
    ensures JoinVerdict(c, f, pass, st, t).Accept? ==> MembersOf(JoinVerdict(c, f, pass, st, t)) != {}
  {
  }

  /** A step that changes anything decides a pending join. */
  lemma JoinStepProgress(c: Context, f: CombatFacts, pass: Pass, st: Rules, t: TerritoryId)
    ensures var next := JoinStep(c, f, pass, st, t);
            next == st || PendingJoins(c, next) < PendingJoins(c, st)
  {
    VerdictOnPending(c, f, pass, st, t);
    var v := JoinVerdict(c, f, pass, st, t);
    var next := Apply(st, v);
    if MembersOf(v) == {} {
      assert next.outcome == st.outcome;
    } else {
      var a :| a in MembersOf(v);
      assert a in PendingJoins(c, st) && a !in PendingJoins(c, next);
    }
  }

  lemma {:induction false} JoinPassProgress(c: Context, f: CombatFacts, pass: Pass, st: Rules, targets: seq<TerritoryId>)
    ensures var next := JoinPass(c, f, pass, st, targets);
            next == st || PendingJoins(c, next) < PendingJoins(c, st)
    decreases |targets|
  {
    if targets != [] {
      JoinStepProgress(c, f, pass, st, targets[0]);
      JoinPassProgress(c, f, pass, JoinStep(c, f, pass, st, targets[0]), targets[1..]);
    }
  }

  /** Passes repeat until one decides nothing. */
  function SettleJoins(c: Context, f: CombatFacts, st: Rules): Rules
    decreases PendingJoins(c, st)
  {
    var next := JoinPass(c, f, Settle(false), st, JoinTargets(c));
    JoinPassProgress(c, f, Settle(false), st, JoinTargets(c));
    if next == st then st else SettleJoins(c, f, next)
  }

  function AfterJoins(c: Context, f: CombatFacts, st: Rules): Rules
  {
    var targets := JoinTargets(c);
    var filtered := JoinPass(c, f, Convergence, JoinPass(c, f, AttackTarget, JoinPass(c, f, Conflict, st, targets), targets), targets);
    JoinPass(c, f, Settle(true), SettleJoins(c, f, filtered), targets)
  }

  // ---------- dispersions toward territories that joins and dispersions emptied

  function TargetClaimants(c: Context, st: Rules, t: TerritoryId): set<ArmyId>
  {
    set m | m in st.dispersed && m in c.disperses && !st.dispersed[m].invalid
            && t in c.disperses[m].targets && t != c.disperses[m].source
  }

  /** A join of another owner heads for t and has not failed. */
  predicate OtherOwnerJoins(c: Context, st: Rules, t: TerritoryId, owner: PlayerId)
  {
    exists a :: a in c.joins && c.joins[a].target == t && OutcomeOf(st, a) != Failure && OutcomeOf(st, a) != Invalid
                && OwnerOf(c, a) != owner
  }

  /** The occupant left by a join or a dispersion, or is an ally's dispersion that stays in part. */
  predicate OccupantAllowsArrival(c: Context, st: Rules, o: ArmyId, owner: PlayerId)
  {
    || (o in st.joined && OutcomeOf(st, o) == Success)
    || (o in st.dispersed && (VacatesSource(c, st, o) || (st.dispersed[o].remaining > 0 && OwnerOf(c, o) == owner)))
  }

  predicate CanArriveLate(c: Context, f: CombatFacts, st: Rules, m: ArmyId, i: nat)
    requires m in c.disperses && m in st.dispersed && i < |c.disperses[m].targets|
  {
    var d := st.dispersed[m];
    var t := c.disperses[m].targets[i];
    && i < |d.resolved| && !d.resolved[i] && t != c.disperses[m].source
    && |TargetClaimants(c, st, t)| == 1
    && !Attacked(c, f, t) && !OtherOwnerJoins(c, st, t, OwnerOf(c, m))
    && OccupantAt(c, t).Some? && OccupantAllowsArrival(c, st, OccupantAt(c, t).value, OwnerOf(c, m))
    && d.remaining >= 1
    && !IsRefused(c, m, d.resolved[i := true])
  }

  /** The targets of one dispersion, from index i. */
  function ArriveLate(c: Context, f: CombatFacts, st: Rules, m: ArmyId, i: nat): (next: Rules)
    ensures m in st.dispersed ==> m in next.dispersed
    decreases if m in c.disperses then |c.disperses[m].targets| - i else 0
  {
    if m !in c.disperses || m !in st.dispersed || i >= |c.disperses[m].targets| then st
    else if CanArriveLate(c, f, st, m, i) then
      var d := st.dispersed[m];
      var d' := d.(resolved := d.resolved[i := true], remaining := d.remaining - 1);
      ArriveLate(c, f, st.(dispersed := st.dispersed[m := d']), m, i + 1)
    else ArriveLate(c, f, st, m, i + 1)
  }

  function LateSweep(c: Context, f: CombatFacts, st: Rules, order: seq<ArmyId>): Rules
    decreases |order|
  {
    if order == [] then st
    else
      var m := order[0];
      var next := if m in st.dispersed && !st.dispersed[m].invalid then ArriveLate(c, f, st, m, 0) else st;
      LateSweep(c, f, next, order[1..])
  }

  ghost function Unresolved(st: Rules): set<(ArmyId, nat)>
  {
    set m, i | m in st.dispersed && 0 <= i < |st.dispersed[m].resolved| && !st.dispersed[m].resolved[i] :: (m, i)
  }

  lemma {:induction false} ArriveLateProgress(c: Context, f: CombatFacts, st: Rules, m: ArmyId, i: nat)
    ensures var next := ArriveLate(c, f, st, m, i);
            (next == st || Unresolved(next) < Unresolved(st)) && next.dispersed.Keys == st.dispersed.Keys
    decreases if m in c.disperses then |c.disperses[m].targets| - i else 0
  {
    if m !in c.disperses || m !in st.dispersed || i >= |c.disperses[m].targets| {
    } else if CanArriveLate(c, f, st, m, i) {
      var d := st.dispersed[m];
      var d' := d.(resolved := d.resolved[i := true], remaining := d.remaining - 1);
      var mid := st.(dispersed := st.dispersed[m := d']);
      assert (m, i) in Unresolved(st) && (m, i) !in Unresolved(mid);
      assert Unresolved(mid) < Unresolved(st);
      ArriveLateProgress(c, f, mid, m, i + 1);
    } else {
      ArriveLateProgress(c, f, st, m, i + 1);
    }
  }

  lemma {:induction false} LateSweepProgress(c: Context, f: CombatFacts, st: Rules, order: seq<ArmyId>)
    ensures var next := LateSweep(c, f, st, order);
            (next == st || Unresolved(next) < Unresolved(st)) && next.dispersed.Keys == st.dispersed.Keys
    decreases |order|
  {
    if order != [] {
      var m := order[0];
      ArriveLateProgress(c, f, st, m, 0);
      var next := if m in st.dispersed && !st.dispersed[m].invalid then ArriveLate(c, f, st, m, 0) else st;
      LateSweepProgress(c, f, next, order[1..]);
    }
  }

  /** Sweeps repeat until one resolves nothing. */
  function AfterVacated(c: Context, f: CombatFacts, st: Rules): Rules
    decreases Unresolved(st)
  {
    var next := LateSweep(c, f, st, Sorted(st.dispersed.Keys));
    LateSweepProgress(c, f, st, Sorted(st.dispersed.Keys));
    if next == st then st else AfterVacated(c, f, next)
  }

  // ---------- final outcomes

  /** finalizeDispersions on one dispersion. */
  function Finalized(c: Context, st: Rules, m: ArmyId): (Outcome, Dispersal)
    requires m in c.disperses && m in st.dispersed
  {
    var d := st.dispersed[m];
    if d.invalid || OutcomeOf(st, m) == Invalid then (OutcomeOf(st, m), d)
    else if IsRefused(c, m, d.resolved) then (Invalid, d.(invalid := true))
    else (DispersalOutcome(d.resolved), d.(remaining := Remaining(c, m, d.resolved)))
  }

  function FinalRules(c: Context, st: Rules): Rules
  {
    st.(outcome := map a | a in st.outcome :: if a in c.disperses && a in st.dispersed then Finalized(c, st, a).0 else st.outcome[a],
        dispersed := map m | m in st.dispersed :: if m in c.disperses then Finalized(c, st, m).1 else st.dispersed[m])
  }

  /** resolvePeacefulMovements */
  function RunRules(c: Context, f: CombatFacts): Rules
  {
    FinalRules(c, AfterVacated(c, f, AfterJoins(c, f, AfterDispersions(c, f))))
  }
}
