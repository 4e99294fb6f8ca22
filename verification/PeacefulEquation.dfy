/**
 Dispersions and joins read off a settled turn: which targets get a troop, which
 orders are refused, which joins succeed and where they end, in terms of the
 armies, the orders, the decisions and what the rules record, not of how they
 compute it.
 */
module PeacefulEquation {
  import opened Wrappers
  import opened SortedIds
  import opened Turn
  import opened Facts
  import opened Peaceful
  import opened Combat
  import opened Greatest
  import opened Components
  import opened SettledTurn
  import opened Contests
  import opened FactReads
  import opened JoinRules
  import opened Locality
  import opened DispersionRules
  import opened Presences
  import opened SettledCombat
  import opened Execution
  import opened Overdrafts
  import opened MoveEquation

  // ---------- combat as joins and dispersions meet it

  /** The attack enters the territory. */
  ghost predicate Enters(c: Context, v: View, b: ArmyId, t: TerritoryId)
  {
    b in c.attacks && c.attacks[b].target == t && Said(v, Move(b))
  }

  /** The army that started there is still there, and keeps the place. */
  ghost predicate Held(c: Context, v: View, t: TerritoryId)
  {
    t in c.armyAt && Remains(c, v, c.armyAt[t]) && !Said(v, Dislodged(c.armyAt[t]))
  }

  /** An attack is directed at the territory, other than on an ally that keeps it. */
  ghost predicate Assaulted(c: Context, v: View, t: TerritoryId)
    requires WellFormed(c)
  {
    exists b :: b in c.attacks && c.attacks[b].target == t && (Held(c, v, t) ==> c.armies[c.armyAt[t]].owner != c.armies[b].owner)
  }

  lemma CountsIs(c: Context, v: View, t: TerritoryId, b: ArmyId)
    requires SettledTurnOf(c, v) && b in Attackers(c, t)
    ensures CountsAgainst(c, Recorded(c, v), t, b) <==> (Held(c, v, t) ==> c.armies[c.armyAt[t]].owner != c.armies[b].owner)
  {
    if t in c.armyAt {
      var d := c.armyAt[t];
      GoneRead(c, v, d);
      RemainsIs(c, v, d);
    }
  }

  lemma StandsIf(c: Context, v: View, t: TerritoryId, b: ArmyId)
    requires SettledTurnOf(c, v) && b in Attackers(c, t) && CountsAgainst(c, Recorded(c, v), t, b)
    ensures b in ContestOf(c, v).standing
  {
    if t in c.armyAt { GoneRead(c, v, c.armyAt[t]); }
  }

  lemma AssaultedIs(c: Context, v: View, t: TerritoryId)
    requires SettledTurnOf(c, v)
    ensures Attacked(c, Recorded(c, v), t) <==> Assaulted(c, v, t)
  {
    forall b | b in Attackers(c, t)
      ensures CountsAgainst(c, Recorded(c, v), t, b) <==> (Held(c, v, t) ==> c.armies[c.armyAt[t]].owner != c.armies[b].owner)
      ensures CountsAgainst(c, Recorded(c, v), t, b) ==> b in ContestOf(c, v).standing
    {
      CountsIs(c, v, t, b);
      if CountsAgainst(c, Recorded(c, v), t, b) { StandsIf(c, v, t, b); }
    }
    CountedAttacks(c, v, Recorded(c, v), t);
  }

  lemma CountedAttacks(c: Context, v: View, f: CombatFacts, t: TerritoryId)
    requires WellFormed(c) && f.SettledFacts?
    requires forall b :: b in Attackers(c, t) ==>
               && (CountsAgainst(c, f, t, b) <==> (Held(c, v, t) ==> c.armies[c.armyAt[t]].owner != c.armies[b].owner))
               && (CountsAgainst(c, f, t, b) ==> b in f.contest.standing)
    ensures Attacked(c, f, t) <==> Assaulted(c, v, t)
  {
    assert forall b :: b in Attackers(c, t) <==> b in c.attacks && c.attacks[b].target == t;
  }

  /** A player arrives by force exactly when an attack of its own enters. */
  lemma ArrivalByForce(c: Context, v: View, t: TerritoryId, p: PlayerId)
    requires SettledTurnOf(c, v)
    ensures Attacked(c, Recorded(c, v), t) && AlliedAttackArrival(c, Recorded(c, v), t, p)
       <==> exists b :: Enters(c, v, b, t) && c.armies[b].owner == p
  {
    if b :| Enters(c, v, b, t) && c.armies[b].owner == p { MoverCounts(c, v, b); }
    if WinnerAt(c, Recorded(c, v), t).Some? {
      WinnerRead(c, v, t);
      MovesRead(c, v, WinnerAt(c, Recorded(c, v), t).value);
    }
  }

  // ---------- targets that are open

  /** The territory would take a troop of the dispersion. */
  ghost predicate Open(c: Context, v: View, m: ArmyId, t: TerritoryId)
    requires WellFormed(c) && m in c.disperses
  {
    if Assaulted(c, v, t) then exists b :: Enters(c, v, b, t) && c.armies[b].owner == c.armies[m].owner
    else
      || t == c.disperses[m].source || t !in c.armyAt
      || var o := c.armyAt[t];
         (o in c.attacks && Said(v, Move(o))) || (c.armies[o].owner == c.armies[m].owner && o !in c.joins && o !in c.disperses)
  }

  lemma OpenIs(c: Context, v: View, m: ArmyId, t: TerritoryId)
    requires SettledTurnOf(c, v) && m in c.disperses
    ensures IsCandidate(c, Recorded(c, v), m, t) <==> Open(c, v, m, t)
  {
    AssaultedIs(c, v, t);
    ArrivalByForce(c, v, t, c.armies[m].owner);
    if t in c.armyAt { MovesRead(c, v, c.armyAt[t]); }
    OpenRead(c, v, Recorded(c, v), m, t);
  }

  lemma OpenRead(c: Context, v: View, f: CombatFacts, m: ArmyId, t: TerritoryId)
    requires WellFormed(c) && m in c.disperses && (Attacked(c, f, t) <==> Assaulted(c, v, t))
    requires Attacked(c, f, t) && AlliedAttackArrival(c, f, t, c.armies[m].owner) <==>
               exists b :: Enters(c, v, b, t) && c.armies[b].owner == c.armies[m].owner
    requires t in c.armyAt ==> (AttackMoves(c, f, c.armyAt[t]) <==> Moves(c, v, c.armyAt[t]))
    ensures IsCandidate(c, f, m, t) <==> Open(c, v, m, t)
  {
  }

  /** Among the dispersions carried out, none of another player can send to the territory from elsewhere. */
  ghost predicate Uncontested(c: Context, v: View, kept: set<ArmyId>, m: ArmyId, t: TerritoryId)
    requires WellFormed(c) && m in c.disperses
  {
    forall n :: n in kept && n in c.disperses && t in c.disperses[n].targets && t != c.disperses[n].source && Open(c, v, n, t) ==>
      c.armies[n].owner == c.armies[m].owner
  }

  ghost predicate Free(c: Context, v: View, kept: set<ArmyId>, m: ArmyId, i: nat)
    requires WellFormed(c) && m in c.disperses && i < |c.disperses[m].targets|
  {
    var t := c.disperses[m].targets[i];
    Open(c, v, m, t) && (t == c.disperses[m].source || Uncontested(c, v, kept, m, t))
  }

  /** The free targets named before the i-th. */
  ghost function FreeBefore(c: Context, v: View, kept: set<ArmyId>, m: ArmyId, i: nat): set<nat>
    requires WellFormed(c) && m in c.disperses && i <= |c.disperses[m].targets|
  {
    set j: nat | j < i && Free(c, v, kept, m, j)
  }

  /** Free targets take one troop each in the order named. */
  ghost predicate AtOnce(c: Context, v: View, kept: set<ArmyId>, m: ArmyId, i: nat)
    requires WellFormed(c) && m in c.disperses && i < |c.disperses[m].targets|
  {
    Free(c, v, kept, m, i) && |FreeBefore(c, v, kept, m, i)| < c.armies[m].size
  }

  /** The dispersions a set of refusals leaves. */
  function Left(c: Context, invalid: set<ArmyId>): set<ArmyId>
  {
    set m | m in c.disperses && m !in invalid
  }

  /** No dispersion of a settled turn is dislodged. */
  lemma ActiveIs(c: Context, v: View, invalid: set<ArmyId>, m: ArmyId)
    requires SettledTurnOf(c, v)
    ensures IsActive(c, Recorded(c, v), invalid, m) <==> m in Left(c, invalid)
  {
    if m in c.disperses {
      PeacefulNotDislodged(c, v, m);
      RetreatingIff(c, v, m);
    }
  }

  lemma ClaimantsAre(c: Context, v: View, invalid: set<ArmyId>, t: TerritoryId, n: ArmyId)
    requires SettledTurnOf(c, v)
    ensures n in Claimants(c, Recorded(c, v), invalid, t)
       <==> n in Left(c, invalid) && t in c.disperses[n].targets && t != c.disperses[n].source && Open(c, v, n, t)
  {
    ActiveIs(c, v, invalid, n);
    if n in c.disperses { OpenIs(c, v, n, t); }
  }

  lemma UncontestedIs(c: Context, v: View, invalid: set<ArmyId>, m: ArmyId, t: TerritoryId)
    requires SettledTurnOf(c, v) && m in Left(c, invalid) && t in c.disperses[m].targets && t != c.disperses[m].source && Open(c, v, m, t)
    ensures ShareOwner(c, Claimants(c, Recorded(c, v), invalid, t)) <==> Uncontested(c, v, Left(c, invalid), m, t)
  {
    var claimants := Claimants(c, Recorded(c, v), invalid, t);
    forall n: ArmyId
      ensures n in claimants <==> n in Left(c, invalid) && t in c.disperses[n].targets && t != c.disperses[n].source && Open(c, v, n, t)
    {
      ClaimantsAre(c, v, invalid, t, n);
    }
    assert m in claimants;
    OwnersOf(c, v, claimants, Left(c, invalid), m, t);
  }

  lemma OwnersOf(c: Context, v: View, claimants: set<ArmyId>, kept: set<ArmyId>, m: ArmyId, t: TerritoryId)
    requires WellFormed(c) && m in claimants && m in c.disperses && kept <= c.disperses.Keys
    requires forall n :: n in claimants <==>
               n in kept && t in c.disperses[n].targets && t != c.disperses[n].source && Open(c, v, n, t)
    ensures ShareOwner(c, claimants) <==> Uncontested(c, v, kept, m, t)
  {
    forall n | n in claimants ensures OwnerOf(c, n) == c.armies[n].owner {
    }
  }

  lemma FreeIs(c: Context, v: View, invalid: set<ArmyId>, m: ArmyId, i: nat)
    requires SettledTurnOf(c, v) && m in Left(c, invalid) && i < |c.disperses[m].targets|
    ensures MayResolve(c, Recorded(c, v), invalid, m, c.disperses[m].targets[i]) <==> Free(c, v, Left(c, invalid), m, i)
  {
    var t := c.disperses[m].targets[i];
    OpenIs(c, v, m, t);
    if t != c.disperses[m].source && Open(c, v, m, t) { UncontestedIs(c, v, invalid, m, t); }
  }

  // ---------- the first allotment

  /** The places of a list that hold. */
  function TrueAt(bits: seq<bool>): (s: set<nat>)
    ensures forall i :: i in s <==> 0 <= i < |bits| && bits[i]
  {
    set i: nat | i < |bits| && bits[i]
  }

  lemma {:induction false} CountIs(bits: seq<bool>)
    ensures CountTrue(bits) == |TrueAt(bits)|
    decreases |bits|
  {
    if bits != [] {
      var n := |bits| - 1;
      var s, early := TrueAt(bits), TrueAt(bits[..n]);
      CountIs(bits[..n]);
      assert bits == bits[..n] + [bits[n]];
      if bits[n] {
        CountAppend(bits[..n]);
        assert s == early + {n};
      } else {
        CountFalse(bits[..n]);
        assert s == early;
      }
    }
  }

  lemma {:induction false} CountFalse(bits: seq<bool>)
    ensures CountTrue(bits + [false]) == CountTrue(bits)
  {
    if bits == [] {
      assert (bits + [false])[1..] == [];
    } else {
      CountFalse(bits[1..]);
      assert (bits + [false])[1..] == bits[1..] + [false];
    }
  }

  /** The allotment serves, in order, the targets that are free. */
  lemma ResolutionIs(c: Context, v: View, invalid: set<ArmyId>, m: ArmyId, i: nat)
    requires SettledTurnOf(c, v) && m in Left(c, invalid) && i < |c.disperses[m].targets|
    ensures Resolution(c, Recorded(c, v), invalid, m)[i] <==> AtOnce(c, v, Left(c, invalid), m, i)
  {
    var allowed := Allowed(c, Recorded(c, v), invalid, m);
    AllotGreedy(allowed, SizeOf(c, m), i);
    CountIs(allowed[..i]);
    forall j: nat | j <= i ensures allowed[j] <==> Free(c, v, Left(c, invalid), m, j) {
      FreeIs(c, v, invalid, m, j);
    }
    assert TrueAt(allowed[..i]) == FreeBefore(c, v, Left(c, invalid), m, i);
  }

  // ---------- which dispersions are carried out

  /** What the rules leave when the movements of a settled turn are executed. */
  ghost predicate IsRun(c: Context, v: View, end: Rules)
  {
    SettledTurnOf(c, v) && end == RunRules(c, Recorded(c, v))
  }

  /** The dispersions carried out. */
  function Carried(end: Rules): set<ArmyId>
  {
    end.dispersed.Keys
  }

  ghost predicate SentTo(d: Disperse, sent: set<nat>, t: TerritoryId)
  {
    exists i :: i in sent && i < |d.targets| && d.targets[i] == t
  }

  /** A noble on the origin is assigned nowhere, or where no troop goes. */
  ghost predicate Strands(d: Disperse, sent: set<nat>)
  {
    || (exists t :: t in d.assignments && d.assignments[t] != {} && !SentTo(d, sent, t))
    || (exists n :: n in d.nobles && forall t :: t in d.assignments ==> n !in d.assignments[t])
  }

  /** Every troop leaves, none for the origin, and a noble would be left there. */
  ghost predicate Abandons(d: Disperse, size: nat, sent: set<nat>)
  {
    |sent| == size && !SentTo(d, sent, d.source) && Strands(d, sent)
  }

  lemma StrandsIs(d: Disperse, bits: seq<bool>)
    requires |bits| == |d.targets|
    ensures OrphansNobles(d, bits) <==> Strands(d, TrueAt(bits))
    ensures Reaches(d, bits, d.source) <==> SentTo(d, TrueAt(bits), d.source)
  {
    forall t ensures Reaches(d, bits, t) <==> SentTo(d, TrueAt(bits), t) {
      SentIs(d, bits, t);
    }
  }

  lemma SentIs(d: Disperse, bits: seq<bool>, t: TerritoryId)
    requires |bits| == |d.targets|
    ensures Reaches(d, bits, t) <==> SentTo(d, TrueAt(bits), t)
  {
    if i :| 0 <= i < |d.targets| && d.targets[i] == t && bits[i] { assert i in TrueAt(bits); }
  }

  /** An allotment is refused when an order meant to loop names too many targets, or when it abandons a noble. */
  lemma RefusedIs(c: Context, m: ArmyId, bits: seq<bool>)
    requires m in c.disperses && m in c.armies && |bits| == |c.disperses[m].targets|
    ensures IsRefused(c, m, bits) <==>
              (c.disperses[m].loop && |c.disperses[m].targets| > c.armies[m].size)
              || Abandons(c.disperses[m], c.armies[m].size, TrueAt(bits))
  {
    CountIs(bits);
    AllTrue(bits);
    StrandsIs(c.disperses[m], bits);
  }

  /** The rules end with the dispersions that the first resolution kept. */
  lemma RunKeys(c: Context, f: CombatFacts)
    requires OneOrderEach(c)
    ensures RunRules(c, f).dispersed.Keys == AfterDispersions(c, f).dispersed.Keys
  {
    BeforeFinalKept(c, f);
    FinalKeys(c, BeforeFinal(c, f));
    JoinsKeepDispersions(c, f, AfterDispersions(c, f));
  }

  lemma FirstKeys(c: Context, v: View)
    requires SettledTurnOf(c, v)
    ensures AfterDispersions(c, Recorded(c, v)).dispersed.Keys == Left(c, RefusedFrom(c, Recorded(c, v), {}))
  {
    var f := Recorded(c, v);
    forall m: ArmyId ensures m in AfterDispersions(c, f).dispersed <==> m in Left(c, RefusedFrom(c, f, {})) {
      ActiveIs(c, v, RefusedFrom(c, f, {}), m);
      FirstKept(c, f, m);
    }
  }

  lemma CarriedAre(c: Context, v: View, end: Rules)
    requires IsRun(c, v, end)
    ensures Carried(end) == Left(c, RefusedFrom(c, Recorded(c, v), {})) == AfterDispersions(c, Recorded(c, v)).dispersed.Keys
    ensures Carried(end) <= c.disperses.Keys
  {
    OneOrder(c);
    RunKeys(c, Recorded(c, v));
    FirstKeys(c, v);
  }

  lemma OneOrder(c: Context)
    requires WellFormed(c)
    ensures OneOrderEach(c)
  {
  }

  lemma FirstKept(c: Context, f: CombatFacts, m: ArmyId)
    ensures m in AfterDispersions(c, f).dispersed <==> m in c.disperses && IsActive(c, f, RefusedFrom(c, f, {}), m)
  {
  }

  /** The targets a dispersion sends to in the end. */
  ghost function Served(end: Rules, m: ArmyId): set<nat>
    requires m in Carried(end)
  {
    TrueAt(end.dispersed[m].resolved)
  }

  /** A dispersion carried out spends troops it has, loops only if it can, and abandons no noble. */
  lemma CarriedFacts(c: Context, v: View, end: Rules, m: ArmyId)
    requires IsRun(c, v, end) && m in Carried(end)
    ensures m in c.disperses && m in c.armies && |end.dispersed[m].resolved| == |c.disperses[m].targets|
    ensures end.dispersed[m].remaining == c.armies[m].size - |Served(end, m)| >= 0
    ensures c.disperses[m].loop ==> |c.disperses[m].targets| <= c.armies[m].size
    ensures !Abandons(c.disperses[m], c.armies[m].size, Served(end, m))
  {
    var f := Recorded(c, v);
    NeverOverspent(c, f, m);
    BeforeFinalKept(c, f);
    FinalKeepsDispersions(c, f);
    assert IsSound(c, m, BeforeFinal(c, f).dispersed[m]);
    CountIs(end.dispersed[m].resolved);
    RefusedIs(c, m, end.dispersed[m].resolved);
  }

  /** The targets served at once when some dispersions are out of the way. */
  ghost function ServedAtOnce(c: Context, v: View, kept: set<ArmyId>, m: ArmyId): set<nat>
    requires WellFormed(c) && m in c.disperses
  {
    set i: nat | i < |c.disperses[m].targets| && AtOnce(c, v, kept, m, i)
  }

  lemma AtOnceAre(c: Context, v: View, invalid: set<ArmyId>, m: ArmyId)
    requires SettledTurnOf(c, v) && m in Left(c, invalid)
    ensures TrueAt(Resolution(c, Recorded(c, v), invalid, m)) == ServedAtOnce(c, v, Left(c, invalid), m)
  {
    forall i: nat | i < |c.disperses[m].targets|
      ensures Resolution(c, Recorded(c, v), invalid, m)[i] <==> AtOnce(c, v, Left(c, invalid), m, i)
    {
      ResolutionIs(c, v, invalid, m, i);
    }
  }

  /**
   A dispersion is not carried out for one of two reasons: it was to loop and names too
   many targets, or, while some of the dispersions not carried out were out of the way, what it
   sent at once abandoned a noble.
   */
  lemma RefusedFor(c: Context, v: View, end: Rules, m: ArmyId)
    requires IsRun(c, v, end) && m in c.disperses && m !in Carried(end)
    ensures OutcomeOf(end, m) == Invalid
    ensures (c.disperses[m].loop && |c.disperses[m].targets| > c.armies[m].size)
         || exists dropped: set<ArmyId> ::
              && dropped <= c.disperses.Keys - Carried(end) && m !in dropped
              && Abandons(c.disperses[m], c.armies[m].size, ServedAtOnce(c, v, c.disperses.Keys - dropped, m))
  {
    var dropped := RefusedInRound(c, v, end, m);
    RefusedReason(c, v, m, dropped);
    InvalidInTheEnd(c, v, end, m);
  }

  lemma RefusedReason(c: Context, v: View, m: ArmyId, dropped: set<ArmyId>)
    requires SettledTurnOf(c, v) && m in NewlyRefused(c, Recorded(c, v), dropped)
    ensures m in c.disperses && m in c.armies && m !in dropped
    ensures (c.disperses[m].loop && |c.disperses[m].targets| > c.armies[m].size)
         || Abandons(c.disperses[m], c.armies[m].size, ServedAtOnce(c, v, c.disperses.Keys - dropped, m))
  {
    ActiveIs(c, v, dropped, m);
    AtOnceAre(c, v, dropped, m);
    RefusedIs(c, m, Resolution(c, Recorded(c, v), dropped, m));
    assert Left(c, dropped) == c.disperses.Keys - dropped;
  }

  lemma RefusedInRound(c: Context, v: View, end: Rules, m: ArmyId) returns (dropped: set<ArmyId>)
    requires IsRun(c, v, end) && m in c.disperses && m !in Carried(end)
    ensures dropped <= c.disperses.Keys - Carried(end) && m in NewlyRefused(c, Recorded(c, v), dropped)
  {
    var f := Recorded(c, v);
    CarriedAre(c, v, end);
    RefusedForCause(c, f, {}, m);
    RefusedDisperse(c, f, {});
    dropped :| {} <= dropped <= RefusedFrom(c, f, {}) && m in NewlyRefused(c, f, dropped);
  }

  lemma InvalidInTheEnd(c: Context, v: View, end: Rules, m: ArmyId)
    requires IsRun(c, v, end) && m in c.disperses && m !in Carried(end)
    ensures OutcomeOf(end, m) == Invalid
  {
    var f := Recorded(c, v);
    CarriedAre(c, v, end);
    PeacefulNotDislodged(c, v, m);
    RetreatingIff(c, v, m);
    OneOrder(c);
    InvalidFirst(c, f, m);
    JoinsKeepOutcome(c, f, AfterDispersions(c, f), m);
    RunKeepsInvalid(c, f, m);
  }

  lemma InvalidFirst(c: Context, f: CombatFacts, m: ArmyId)
    requires m in c.disperses && m !in AfterDispersions(c, f).dispersed && m in RefusedFrom(c, f, {}) && !IsDislodged(c, f, m)
    ensures OutcomeOf(AfterDispersions(c, f), m) == Invalid
  {
  }

  lemma RunKeepsInvalid(c: Context, f: CombatFacts, m: ArmyId)
    requires OneOrderEach(c) && m in c.disperses && m !in RunRules(c, f).dispersed && OutcomeOf(AfterAllJoins(c, f), m) == Invalid
    ensures OutcomeOf(RunRules(c, f), m) == Invalid
  {
    BeforeFinalKept(c, f);
    FinalKeys(c, BeforeFinal(c, f));
  }

  lemma NobodyAbandoned(c: Context, d: Disperse)
    requires d.nobles == {} && forall t :: t in d.assignments ==> d.assignments[t] == {}
    ensures forall size: nat, sent: set<nat> :: !Abandons(d, size, sent)
  {
  }

  /** Without nobles only a loop that names too many targets is refused. */
  lemma RefusedWithoutNobles(c: Context, v: View, end: Rules, m: ArmyId)
    requires IsRun(c, v, end) && m in c.disperses
    requires c.disperses[m].nobles == {} && forall t :: t in c.disperses[m].assignments ==> c.disperses[m].assignments[t] == {}
    ensures m in Carried(end) <==> (c.disperses[m].loop ==> |c.disperses[m].targets| <= c.armies[m].size)
  {
    if m in Carried(end) {
      CarriedFacts(c, v, end, m);
    } else {
      RefusedFor(c, v, end, m);
      NobodyAbandoned(c, c.disperses[m]);
    }
  }

  /** What becomes of the order of a dispersion carried out. */
  lemma CarriedOutcome(c: Context, v: View, end: Rules, m: ArmyId)
    requires IsRun(c, v, end) && m in Carried(end) && m in c.disperses
    ensures OutcomeOf(end, m) == if forall i :: 0 <= i < |c.disperses[m].targets| ==> i in Served(end, m) then Success else Failure
  {
    CarriedFacts(c, v, end, m);
    OneOrder(c);
    RunOutcome(c, Recorded(c, v), m);
    CompleteIs(end.dispersed[m].resolved, Served(end, m));
  }

  lemma CompleteIs(bits: seq<bool>, sent: set<nat>)
    requires sent == TrueAt(bits)
    ensures DispersalOutcome(bits) == if forall i :: 0 <= i < |bits| ==> i in sent then Success else Failure
  {
  }

  lemma RunOutcome(c: Context, f: CombatFacts, m: ArmyId)
    requires OneOrderEach(c) && m in RunRules(c, f).dispersed
    ensures OutcomeOf(RunRules(c, f), m) == DispersalOutcome(RunRules(c, f).dispersed[m].resolved)
  {
    FinalKeepsDispersions(c, f);
    FinalizeKeeps(c, f, m);
  }

  // ---------- targets served at once

  /** Every target free while troops last is served. */
  lemma ServedFirst(c: Context, v: View, end: Rules, m: ArmyId, i: nat)
    requires IsRun(c, v, end) && m in Carried(end) && m in c.disperses && i < |c.disperses[m].targets|
    ensures AtOnce(c, v, Carried(end), m, i) ==> i in Served(end, m)
  {
    var f := Recorded(c, v);
    CarriedAre(c, v, end);
    CarriedFacts(c, v, end, m);
    EndFollows(c, f, m);
    ResolutionIs(c, v, RefusedFrom(c, f, {}), m, i);
  }

  // ---------- targets freed late

  /** All targets were served, as many as there are troops, none of them the origin. */
  ghost predicate Emptied(c: Context, end: Rules, o: ArmyId)
  {
    && o in Carried(end) && o in c.disperses && o in c.armies && |c.disperses[o].targets| == c.armies[o].size
    && forall i :: 0 <= i < |c.disperses[o].targets| ==> i in Served(end, o) && c.disperses[o].targets[i] != c.disperses[o].source
  }

  /** No other dispersion carried out names the territory, but as its origin. */
  ghost predicate SoleClaim(c: Context, end: Rules, m: ArmyId, t: TerritoryId)
  {
    forall n :: n in Carried(end) && n in c.disperses && t in c.disperses[n].targets && t != c.disperses[n].source ==> n == m
  }

  ghost predicate NoForeignJoin(c: Context, end: Rules, t: TerritoryId, p: PlayerId)
  {
    forall a :: JoinSucceeded(c, end, a) && a in c.armies && c.joins[a].target == t ==> c.armies[a].owner == p
  }

  /** What a target freed late needs, but for the army on it. */
  ghost predicate Reachable(c: Context, v: View, end: Rules, m: ArmyId, t: TerritoryId)
    requires WellFormed(c) && m in c.disperses
  {
    && !Assaulted(c, v, t) && t in c.armyAt && t != c.disperses[m].source
    && SoleClaim(c, end, m, t) && NoForeignJoin(c, end, t, c.armies[m].owner)
  }

  /** The army on a place leaves it, or is an ally's dispersion with troops to spare. */
  ghost predicate MakesRoom(c: Context, end: Rules, o: ArmyId, p: PlayerId)
  {
    || JoinSucceeded(c, end, o) || Emptied(c, end, o)
    || (o in Carried(end) && o in c.armies && c.armies[o].owner == p && |Served(end, o)| < c.armies[o].size)
  }

  ghost predicate JoinTold(end: Rules, b: Rules, a: ArmyId)
  {
    && OutcomeOf(b, a) == OutcomeOf(end, a) && (OutcomeOf(b, a) == Success || OutcomeOf(b, a) == Failure)
    && (a in b.joined <==> OutcomeOf(b, a) == Success)
  }

  /** The state before the final outcomes are recorded tells the same as the end. */
  ghost predicate Tells(c: Context, end: Rules, b: Rules)
  {
    && b.dispersed == end.dispersed && AllSound(c, b.dispersed) && b.joined.Keys <= c.joins.Keys
    && forall a :: a in c.joins ==> JoinTold(end, b, a)
  }

  lemma BeforeTells(c: Context, f: CombatFacts, end: Rules)
    requires IsOutcome(c, f, end)
    ensures Tells(c, end, BeforeFinal(c, f))
  {
    forall a: ArmyId ensures a in BeforeFinal(c, f).joined ==> a in c.joins {
      JoinedAreJoins(c, f, a);
    }
    forall a | a in c.joins ensures JoinTold(end, BeforeFinal(c, f), a) {
      JoinTells(c, f, end, a);
    }
  }

  lemma JoinTells(c: Context, f: CombatFacts, end: Rules, a: ArmyId)
    requires IsOutcome(c, f, end) && a in c.joins
    ensures JoinTold(end, BeforeFinal(c, f), a)
  {
    EndRead(c, f, end, a);
    JoinedSucceeded(c, f, end, a);
  }

  lemma EmptiedIs(c: Context, end: Rules, b: Rules, o: ArmyId)
    requires WellFormed(c) && Tells(c, end, b)
    ensures VacatesSource(c, b, o) <==> Emptied(c, end, o)
  {
    if o in b.dispersed {
      assert IsSound(c, o, b.dispersed[o]);
      EmptiedBits(c.disperses[o], c.armies[o].size, b.dispersed[o].resolved);
      assert SizeOf(c, o) == c.armies[o].size && Served(end, o) == TrueAt(b.dispersed[o].resolved);
      assert VacatesSource(c, b, o) <==> CountTrue(b.dispersed[o].resolved) == c.armies[o].size && AllSentAway(c.disperses[o], b.dispersed[o].resolved);
    }
  }

  lemma EmptiedBits(d: Disperse, size: nat, bits: seq<bool>)
    requires |bits| == |d.targets|
    ensures CountTrue(bits) == size && AllSentAway(d, bits)
       <==> |d.targets| == size && forall i :: 0 <= i < |d.targets| ==> i in TrueAt(bits) && d.targets[i] != d.source
  {
    AllTrue(bits);
    forall i | 0 <= i < |bits| ensures i in TrueAt(bits) <==> bits[i] {
    }
  }

  lemma ForeignJoinIs(c: Context, end: Rules, b: Rules, t: TerritoryId, p: PlayerId)
    requires WellFormed(c) && Tells(c, end, b)
    ensures OtherOwnerJoins(c, b, t, p) <==> !NoForeignJoin(c, end, t, p)
  {
    forall a | a in c.joins
      ensures a in c.armies && OwnerOf(c, a) == c.armies[a].owner
      ensures JoinSucceeded(c, end, a) <==> OutcomeOf(b, a) != Failure && OutcomeOf(b, a) != Invalid
    {
      assert JoinTold(end, b, a);
    }
  }

  lemma SoleClaimIs(c: Context, end: Rules, b: Rules, m: ArmyId, t: TerritoryId)
    requires Tells(c, end, b) && m in Carried(end) && m in c.disperses && t in c.disperses[m].targets && t != c.disperses[m].source
    ensures |TargetClaimants(c, b, t)| == 1 <==> SoleClaim(c, end, m, t)
  {
    var claimants := TargetClaimants(c, b, t);
    forall n: ArmyId
      ensures n in claimants <==>
                n in Carried(end) && n in c.disperses && t in c.disperses[n].targets && t != c.disperses[n].source
    {
      if n in b.dispersed { assert IsSound(c, n, b.dispersed[n]); }
    }
    assert m in claimants;
    if SoleClaim(c, end, m, t) { assert claimants == {m}; }
    if |claimants| == 1 { OneMember(claimants); }
  }

  lemma RoomIs(c: Context, end: Rules, b: Rules, o: ArmyId, p: PlayerId)
    requires WellFormed(c) && Tells(c, end, b) && o in c.armies
    ensures OccupantAllowsArrival(c, b, o, p) <==> (o in c.joins || o in Carried(end)) && MakesRoom(c, end, o, p)
  {
    EmptiedIs(c, end, b, o);
    if o in c.joins { assert JoinTold(end, b, o); }
    if o in Carried(end) {
      assert IsSound(c, o, b.dispersed[o]);
      CountIs(b.dispersed[o].resolved);
    }
  }

  lemma OneMoreServed(bits: seq<bool>, i: nat)
    requires i < |bits|
    ensures TrueAt(bits[i := true]) == TrueAt(bits) + {i}
  {
  }

  /** No dispersion ends with troops to spare and a target left out that was freed, unless serving it would abandon a noble. */
  lemma ServedLate(c: Context, v: View, end: Rules, m: ArmyId, i: nat)
    requires IsRun(c, v, end) && m in Carried(end) && m in c.disperses && i < |c.disperses[m].targets|
    requires Reachable(c, v, end, m, c.disperses[m].targets[i])
    requires MakesRoom(c, end, c.armyAt[c.disperses[m].targets[i]], c.armies[m].owner)
    ensures i in Served(end, m) || |Served(end, m)| == c.armies[m].size
         || Abandons(c.disperses[m], c.armies[m].size, Served(end, m) + {i})
  {
    RunTells(c, v, end);
    CarriedFacts(c, v, end, m);
    AssaultedIs(c, v, c.disperses[m].targets[i]);
    if i !in Served(end, m) && |Served(end, m)| != c.armies[m].size && !Abandons(c.disperses[m], c.armies[m].size, Served(end, m) + {i}) {
      NothingReachable(c, Recorded(c, v), end, m, i);
      FreedArrives(c, v, Recorded(c, v), end, BeforeFinal(c, Recorded(c, v)), m, i);
      assert false;
    }
  }

  lemma RunTells(c: Context, v: View, end: Rules)
    requires IsRun(c, v, end)
    ensures Tells(c, end, BeforeFinal(c, Recorded(c, v)))
  {
    SettledFought(c, v);
    RunIsOutcome(c, Recorded(c, v));
    BeforeTells(c, Recorded(c, v), end);
  }

  lemma NothingReachable(c: Context, f: CombatFacts, end: Rules, m: ArmyId, i: nat)
    requires Tells(c, end, BeforeFinal(c, f)) && m in Carried(end)
    ensures !Arrival(c, f, BeforeFinal(c, f), m, i)
  {
    assert IsSound(c, m, BeforeFinal(c, f).dispersed[m]);
    ArrivalsExhausted(c, f, AfterAllJoins(c, f), m, i);
  }

  /** A target left out that was freed could still be reached. */
  lemma FreedArrives(c: Context, v: View, f: CombatFacts, end: Rules, b: Rules, m: ArmyId, i: nat)
    requires WellFormed(c) && Tells(c, end, b) && m in Carried(end) && m in c.disperses && i < |c.disperses[m].targets|
    requires i !in Served(end, m) && |Served(end, m)| < c.armies[m].size
    requires Reachable(c, v, end, m, c.disperses[m].targets[i]) && !Attacked(c, f, c.disperses[m].targets[i])
    requires MakesRoom(c, end, c.armyAt[c.disperses[m].targets[i]], c.armies[m].owner)
    requires c.disperses[m].loop ==> |c.disperses[m].targets| <= c.armies[m].size
    requires !Abandons(c.disperses[m], c.armies[m].size, Served(end, m) + {i})
    ensures Arrival(c, f, b, m, i)
  {
    var t := c.disperses[m].targets[i];
    var bits := b.dispersed[m].resolved;
    assert IsSound(c, m, b.dispersed[m]);
    CountIs(bits);
    ForeignJoinIs(c, end, b, t, c.armies[m].owner);
    SoleClaimIs(c, end, b, m, t);
    RoomIs(c, end, b, c.armyAt[t], c.armies[m].owner);
    RefusedIs(c, m, bits[i := true]);
    OneMoreServed(bits, i);
  }

  // ---------- nothing else is served

  /** The i-th target of m was served at first, or freed later. */
  ghost predicate ServedRight(c: Context, f: CombatFacts, start: Rules, st: Rules, m: ArmyId, i: nat)
  {
    m in st.dispersed && m in start.dispersed && m in c.disperses && i < |st.dispersed[m].resolved| && st.dispersed[m].resolved[i]
    && i < |start.dispersed[m].resolved| && i < |c.disperses[m].targets| && !start.dispersed[m].resolved[i] ==>
      var t := c.disperses[m].targets[i];
      && t != c.disperses[m].source && !Attacked(c, f, t) && |TargetClaimants(c, start, t)| == 1
      && !OtherOwnerJoins(c, start, t, OwnerOf(c, m)) && t in c.armyAt && FreedRight(c, start, st, c.armyAt[t], OwnerOf(c, m))
  }

  ghost predicate FreedRight(c: Context, start: Rules, st: Rules, o: ArmyId, owner: PlayerId)
  {
    || (o in start.joined && OutcomeOf(start, o) == Success)
    || VacatesSource(c, st, o) || (o in start.dispersed && start.dispersed[o].remaining > 0 && OwnerOf(c, o) == owner)
  }

  /** What the late arrivals keep of the state start they begin with. */
  ghost predicate ServesRight(c: Context, f: CombatFacts, start: Rules, st: Rules)
  {
    && Kept(c, f, start, st) && AllSound(c, start.dispersed)
    && (forall o :: o in start.dispersed ==> st.dispersed[o].remaining <= start.dispersed[o].remaining)
    && forall m, i :: ServedRight(c, f, start, st, m, i)
  }

  lemma SameClaimants(c: Context, start: Rules, st: Rules, t: TerritoryId)
    requires start.dispersed.Keys == st.dispersed.Keys && AllSound(c, start.dispersed) && AllSound(c, st.dispersed)
    ensures TargetClaimants(c, start, t) == TargetClaimants(c, st, t)
  {
    forall n: ArmyId ensures n in TargetClaimants(c, start, t) <==> n in TargetClaimants(c, st, t) {
      if n in st.dispersed { assert IsSound(c, n, start.dispersed[n]) && IsSound(c, n, st.dispersed[n]); }
    }
  }

  lemma FreedStays(c: Context, f: CombatFacts, start: Rules, st: Rules, k: ArmyId, j: nat, o: ArmyId, owner: PlayerId)
    requires Arrival(c, f, st, k, j) && FreedRight(c, start, st, o, owner)
    ensures FreedRight(c, start, WithTarget(st, k, j), o, owner)
  {
    if VacatesSource(c, st, o) { VacatedStays(c, f, st, k, j, o); }
  }

  lemma NewServedRight(c: Context, f: CombatFacts, start: Rules, st: Rules, k: ArmyId, j: nat)
    requires ServesRight(c, f, start, st) && Arrival(c, f, st, k, j)
    ensures ServedRight(c, f, start, WithTarget(st, k, j), k, j)
  {
    var t := c.disperses[k].targets[j];
    SameClaimants(c, start, st, t);
    OtherJoinsKept(c, start, st, t, OwnerOf(c, k));
    assert FreedRight(c, start, st, c.armyAt[t], OwnerOf(c, k));
    FreedStays(c, f, start, st, k, j, c.armyAt[t], OwnerOf(c, k));
  }

  lemma OldServedRight(c: Context, f: CombatFacts, start: Rules, st: Rules, k: ArmyId, j: nat, m: ArmyId, i: nat)
    requires ServedRight(c, f, start, st, m, i) && Arrival(c, f, st, k, j) && !(m == k && i == j)
    ensures ServedRight(c, f, start, WithTarget(st, k, j), m, i)
  {
    if m in c.disperses && i < |c.disperses[m].targets| && c.disperses[m].targets[i] in c.armyAt {
      var o := c.armyAt[c.disperses[m].targets[i]];
      if FreedRight(c, start, st, o, OwnerOf(c, m)) { FreedStays(c, f, start, st, k, j, o, OwnerOf(c, m)); }
    }
  }

  lemma ServesRightKept(c: Context, f: CombatFacts, start: Rules, st: Rules, k: ArmyId, j: nat)
    requires ServesRight(c, f, start, st) && Arrival(c, f, st, k, j)
    ensures ServesRight(c, f, start, WithTarget(st, k, j))
  {
    ArrivalKept(c, f, start, st, k, j);
    forall m: ArmyId, i: nat ensures ServedRight(c, f, start, WithTarget(st, k, j), m, i) {
      if m == k && i == j { NewServedRight(c, f, start, st, k, j); } else { OldServedRight(c, f, start, st, k, j, m, i); }
    }
  }

  lemma StartServesRight(c: Context, f: CombatFacts, start: Rules)
    requires AllSound(c, start.dispersed) && OneOwnerEach(c, start)
    ensures ServesRight(c, f, start, start)
  {
    forall m, t ensures SentRight(c, f, start, start, m, t) {
    }
    forall m: ArmyId, i: nat ensures ServedRight(c, f, start, start, m, i) {
    }
  }

  lemma ServesRightPreserved(c: Context, f: CombatFacts, start: Rules)
    ensures Preserved(c, f, st => ServesRight(c, f, start, st))
  {
    forall st, k, j | ServesRight(c, f, start, st) && Arrival(c, f, st, k, j) ensures ServesRight(c, f, start, WithTarget(st, k, j)) {
      ServesRightKept(c, f, start, st, k, j);
    }
  }

  lemma EndServesRight(c: Context, f: CombatFacts)
    ensures ServesRight(c, f, AfterAllJoins(c, f), BeforeFinal(c, f))
  {
    FirstSound(c, f);
    FirstOneOwner(c, f);
    JoinsKeepDispersions(c, f, AfterDispersions(c, f));
    SameArrivals(c, AfterDispersions(c, f), AfterAllJoins(c, f));
    StartServesRight(c, f, AfterAllJoins(c, f));
    ServesRightPreserved(c, f, AfterAllJoins(c, f));
    VacatedPreserves(c, f, st => ServesRight(c, f, AfterAllJoins(c, f), st), AfterAllJoins(c, f));
  }

  /** An ally's dispersion did not send all its troops at once. */
  ghost predicate SparedAtOnce(c: Context, v: View, end: Rules, o: ArmyId, p: PlayerId)
    requires WellFormed(c)
  {
    && o in Carried(end) && o in c.disperses && c.armies[o].owner == p
    && |ServedAtOnce(c, v, Carried(end), o)| < c.armies[o].size
  }

  lemma SparedIs(c: Context, v: View, end: Rules, o: ArmyId)
    requires IsRun(c, v, end) && o in Carried(end) && o in c.disperses
    ensures var first := AfterDispersions(c, Recorded(c, v)).dispersed;
            o in first && TrueAt(first[o].resolved) == ServedAtOnce(c, v, Carried(end), o)
            && first[o].remaining == c.armies[o].size - |ServedAtOnce(c, v, Carried(end), o)|
  {
    var f := Recorded(c, v);
    CarriedAre(c, v, end);
    AtOnceAre(c, v, RefusedFrom(c, f, {}), o);
    FirstRead(c, f, o);
    CountIs(Resolution(c, f, RefusedFrom(c, f, {}), o));
  }

  lemma FirstRead(c: Context, f: CombatFacts, o: ArmyId)
    requires o in AfterDispersions(c, f).dispersed
    ensures o in c.disperses
    ensures var bits := Resolution(c, f, RefusedFrom(c, f, {}), o);
            AfterDispersions(c, f).dispersed[o] == Dispersal(bits, Remaining(c, o, bits), false)
  {
  }

  /** A target is served only at once, or late on a place freed for it. */
  lemma ServedOnlyIf(c: Context, v: View, end: Rules, m: ArmyId, i: nat)
    requires IsRun(c, v, end) && m in Carried(end) && m in c.disperses && i < |c.disperses[m].targets| && i in Served(end, m)
    ensures AtOnce(c, v, Carried(end), m, i)
         || (var t := c.disperses[m].targets[i];
             Reachable(c, v, end, m, t)
             && var o := c.armyAt[t];
                JoinSucceeded(c, end, o) || Emptied(c, end, o) || SparedAtOnce(c, v, end, o, c.armies[m].owner))
  {
    var f, t := Recorded(c, v), c.disperses[m].targets[i];
    var start, b := AfterAllJoins(c, f), BeforeFinal(c, f);
    RunTells(c, v, end);
    EndServesRight(c, f);
    StartIs(c, f);
    CarriedAre(c, v, end);
    SparedIs(c, v, end, m);
    AssaultedIs(c, v, t);
    if !AtOnce(c, v, Carried(end), m, i) {
      assert ServedRight(c, f, start, b, m, i);
      LateReason(c, v, f, end, start, b, m, i);
      var o := c.armyAt[t];
      if o in start.dispersed { SparedIs(c, v, end, o); }
    }
  }

  lemma LateReason(c: Context, v: View, f: CombatFacts, end: Rules, start: Rules, b: Rules, m: ArmyId, i: nat)
    requires WellFormed(c) && Tells(c, end, b) && start.outcome == b.outcome && start.joined == b.joined
    requires start.dispersed.Keys == b.dispersed.Keys && AllSound(c, start.dispersed)
    requires m in Carried(end) && m in c.disperses && i < |c.disperses[m].targets| && i in Served(end, m)
    requires ServedRight(c, f, start, b, m, i) && i !in TrueAt(start.dispersed[m].resolved)
    requires Attacked(c, f, c.disperses[m].targets[i]) <==> Assaulted(c, v, c.disperses[m].targets[i])
    ensures Reachable(c, v, end, m, c.disperses[m].targets[i])
    ensures var o := c.armyAt[c.disperses[m].targets[i]];
            JoinSucceeded(c, end, o) || Emptied(c, end, o)
            || (o in start.dispersed && start.dispersed[o].remaining > 0 && OwnerOf(c, o) == c.armies[m].owner)
  {
    var t := c.disperses[m].targets[i];
    assert IsSound(c, m, start.dispersed[m]);
    var o := c.armyAt[t];
    SameClaimants(c, start, b, t);
    OtherJoinsKept(c, start, b, t, OwnerOf(c, m));
    ForeignJoinIs(c, end, b, t, c.armies[m].owner);
    SoleClaimIs(c, end, b, m, t);
    EmptiedIs(c, end, b, o);
    if o in start.joined { assert JoinTold(end, b, o); }
  }

  // ---------- the plain cases

  /** No dispersion of another player names the territory, but as its origin. */
  ghost predicate Unclaimed(c: Context, m: ArmyId, t: TerritoryId)
    requires WellFormed(c) && m in c.disperses
  {
    forall n :: n in c.disperses && t in c.disperses[n].targets && t != c.disperses[n].source ==> c.armies[n].owner == c.armies[m].owner
  }

  lemma {:induction false} FewBelow(s: set<nat>, n: nat)
    requires forall j :: j in s ==> j < n
    ensures |s| <= n
  {
    if n > 0 {
      var rest := s - {n - 1};
      FewBelow(rest, n - 1);
      if n - 1 in s { assert s == rest + {n - 1}; } else { assert s == rest; }
    } else {
      assert s == {};
    }
  }

  /**
   The plain ways for a territory to be open to a dispersion: it is its origin; an attack of
   its player enters; or it is not attacked and nobody is on it, or its army left by attacking, or
   is an ally's that holds.
   */
  ghost predicate PlainlyOpen(c: Context, v: View, m: ArmyId, t: TerritoryId)
    requires WellFormed(c) && m in c.disperses
  {
    || t == c.disperses[m].source
    || (exists b :: Enters(c, v, b, t) && c.armies[b].owner == c.armies[m].owner)
    || (!Assaulted(c, v, t) && t !in c.armyAt)
    || (!Assaulted(c, v, t) && t in c.armyAt && c.armyAt[t] in c.attacks && Said(v, Move(c.armyAt[t])))
    || (!Assaulted(c, v, t) && t in c.armyAt && c.armies[c.armyAt[t]].owner == c.armies[m].owner && !IsPeaceful(c, c.armyAt[t]))
  }

  lemma PlainIsOpen(c: Context, v: View, m: ArmyId, t: TerritoryId)
    requires SettledTurnOf(c, v) && m in c.disperses && PlainlyOpen(c, v, m, t)
    ensures Open(c, v, m, t)
  {
    SourceQuiet(c, v, m);
    if b :| Enters(c, v, b, t) && c.armies[b].owner == c.armies[m].owner {
      ArrivalByForce(c, v, t, c.armies[m].owner);
      AssaultedIs(c, v, t);
    }
  }

  /** A dispersion carried out serves such a target, if no other player's names it and fewer come before it than there are troops. */
  lemma TargetServed(c: Context, v: View, end: Rules, m: ArmyId, i: nat)
    requires IsRun(c, v, end) && m in Carried(end) && m in c.disperses && i < |c.disperses[m].targets| && i < c.armies[m].size
    requires PlainlyOpen(c, v, m, c.disperses[m].targets[i])
    requires c.disperses[m].targets[i] == c.disperses[m].source || Unclaimed(c, m, c.disperses[m].targets[i])
    ensures i in Served(end, m)
  {
    PlainIsOpen(c, v, m, c.disperses[m].targets[i]);
    OpenAtOnce(c, v, Carried(end), m, i);
    ServedFirst(c, v, end, m, i);
  }

  lemma OpenAtOnce(c: Context, v: View, kept: set<ArmyId>, m: ArmyId, i: nat)
    requires WellFormed(c) && m in c.disperses && i < |c.disperses[m].targets| && i < c.armies[m].size
    requires Open(c, v, m, c.disperses[m].targets[i])
    requires c.disperses[m].targets[i] == c.disperses[m].source || Unclaimed(c, m, c.disperses[m].targets[i])
    ensures AtOnce(c, v, kept, m, i)
  {
    FewBelow(FreeBefore(c, v, kept, m, i), i);
  }

  lemma SourceQuiet(c: Context, v: View, m: ArmyId)
    requires SettledTurnOf(c, v) && m in c.disperses
    ensures !Assaulted(c, v, c.disperses[m].source)
  {
  }

  // ---------- departures

  /** A departure is settled exactly when the join succeeds, or every troop of the dispersion is served elsewhere. */
  lemma DepartsIff(c: Context, v: View, end: Rules, a: ArmyId)
    requires IsRun(c, v, end) && v.Keys == Decisions(c) && Consistent(c, v) && IsPeaceful(c, a)
    ensures Said(v, Departure(a)) <==> JoinSucceeded(c, end, a) || Emptied(c, end, a)
  {
    ExecutionMatchesDepartures(c, v, a);
    RunTells(c, v, end);
    EmptiedIs(c, end, BeforeFinal(c, Recorded(c, v)), a);
    OneOrder(c);
    if a in end.dispersed {
      FinalOutcomeOf(c, Recorded(c, v), a);
      CarriedFacts(c, v, end, a);
      NeverOverspent(c, Recorded(c, v), a);
      DispersalRead(c, Recorded(c, v), end, a);
      VacatedAlike(c, end, BeforeFinal(c, Recorded(c, v)), a);
    }
  }

  lemma VacatedAlike(c: Context, end: Rules, b: Rules, a: ArmyId)
    requires b.dispersed == end.dispersed
    ensures VacatesSource(c, end, a) == VacatesSource(c, b, a)
  {
  }
}
