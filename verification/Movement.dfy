/**
 Executing the movements of a settled turn: attacks, joins, dispersions, then
 the fusions of joins. The board is a map updated in place, as the engine
 updates its live armies.
 */
module Movement {
  import opened Wrappers
  import opened SortedIds
  import opened Turn
  import opened Facts
  import opened Peaceful
  import opened JoinRules
  import opened DispersionRules
  import opened Presences
  import opened Ledger

  datatype Status = Done | MissingArmy(army: ArmyId) | InconsistentStrength(army: ArmyId)

  // ---------- where armies stand after attacks and joins

  function Place(c: Context, f: CombatFacts, end: Rules, attacked: set<ArmyId>, joined: set<ArmyId>, b: ArmyId): TerritoryId
    requires b in c.armies
  {
    if b in attacked && AttackMoves(c, f, b) then c.attacks[b].target
    else if b in joined && JoinSucceeded(c, end, b) then c.joins[b].target
    else c.armies[b].territory
  }

  /** The board once some attacks and some joins are applied. */
  function Placed(c: Context, f: CombatFacts, end: Rules, attacked: set<ArmyId>, joined: set<ArmyId>): Board
  {
    map b | b in c.armies && !IsDislodged(c, f, b) ::
      Piece(c.armies[b].owner, Place(c, f, end, attacked, joined, b), c.armies[b].size)
  }

  function FinalPlace(c: Context, f: CombatFacts, end: Rules, b: ArmyId): TerritoryId
    requires b in c.armies
  {
    Place(c, f, end, c.attacks.Keys, c.joins.Keys, b)
  }

  // ---------- what holds of the board while dispersions are applied

  /** A player's troops belong on t at the end of the turn. */
  ghost predicate Rightful(c: Context, f: CombatFacts, end: Rules, t: TerritoryId, owner: PlayerId)
  {
    exists p :: Present(c, f, end, p, t) && OwnerOf(c, p) == owner
  }

  lemma OneRightful(c: Context, f: CombatFacts, end: Rules, t: TerritoryId, p: PlayerId, q: PlayerId)
    requires IsOutcome(c, f, end) && Rightful(c, f, end, t, p) && Rightful(c, f, end, t, q)
    ensures p == q
  {
    var a :| Present(c, f, end, a, t) && OwnerOf(c, a) == p;
    var b :| Present(c, f, end, b, t) && OwnerOf(c, b) == q;
    OneOwnerPresent(c, f, end, a, b, t);
  }

  /** An army whose dispersion is still to apply stands on its origin, with any allies that reached it. */
  ghost predicate Awaits(c: Context, f: CombatFacts, end: Rules, b: ArmyId, p: Piece)
  {
    && b in c.armies && p.owner == c.armies[b].owner && p.territory == c.armies[b].territory
    && p.size >= c.armies[b].size && (p.size > c.armies[b].size ==> Rightful(c, f, end, p.territory, p.owner))
  }

  ghost predicate PieceRight(c: Context, f: CombatFacts, end: Rules, todo: set<ArmyId>, b: ArmyId, p: Piece)
  {
    p.size >= 1 && if b in todo then Awaits(c, f, end, b, p) else Rightful(c, f, end, p.territory, p.owner)
  }

  /** An army standing under its own name: not about to disperse, not about to fuse. */
  ghost predicate IsSettled(end: Rules, todo: set<ArmyId>, b: ArmyId)
  {
    b !in todo && !Fuses(end, b)
  }

  ghost predicate Apart(end: Rules, live: Board, todo: set<ArmyId>, a: ArmyId, b: ArmyId)
  {
    a in live && b in live && IsSettled(end, todo, a) && IsSettled(end, todo, b) ==>
      live[a].territory == live[b].territory ==> a == b
  }

  /** Armies under their own names stand on different territories. */
  ghost predicate OneSettled(end: Rules, live: Board, todo: set<ArmyId>)
  {
    forall a, b :: Apart(end, live, todo, a, b)
  }

  /** An army that does not disperse is where its order took it. */
  ghost predicate InPlaceAt(c: Context, f: CombatFacts, end: Rules, live: Board, b: ArmyId)
  {
    b in c.armies && !IsDislodged(c, f, b) && b !in end.dispersed ==>
      b in live && live[b].owner == c.armies[b].owner && live[b].territory == FinalPlace(c, f, end, b)
  }

  ghost predicate InPlace(c: Context, f: CombatFacts, end: Rules, live: Board)
  {
    forall b :: InPlaceAt(c, f, end, live, b)
  }

  /** An army on the board started the turn, or got a new name. */
  ghost predicate NamedAt(c: Context, f: CombatFacts, live: Board, first: nat, next: nat, b: ArmyId)
  {
    b in live ==> (b in c.armies && !IsDislodged(c, f, b)) || first <= b < next
  }

  ghost predicate Named(c: Context, f: CombatFacts, live: Board, first: nat, next: nat)
  {
    first <= next && (forall b :: b in c.armies ==> b < first) && forall b :: NamedAt(c, f, live, first, next, b)
  }

  ghost predicate RightAt(c: Context, f: CombatFacts, end: Rules, live: Board, todo: set<ArmyId>, b: ArmyId)
  {
    b in live ==> PieceRight(c, f, end, todo, b, live[b])
  }

  ghost predicate AllRight(c: Context, f: CombatFacts, end: Rules, live: Board, todo: set<ArmyId>)
  {
    forall b :: RightAt(c, f, end, live, todo, b)
  }

  ghost predicate InOrder(c: Context, f: CombatFacts, end: Rules, live: Board, todo: set<ArmyId>, first: nat, next: nat)
  {
    && todo <= end.dispersed.Keys && todo <= live.Keys
    && AllRight(c, f, end, live, todo) && OneSettled(end, live, todo)
    && InPlace(c, f, end, live) && Named(c, f, live, first, next)
  }

  lemma DispersedIsSound(c: Context, f: CombatFacts, end: Rules, m: ArmyId)
    requires IsOutcome(c, f, end) && m in end.dispersed
    ensures IsSound(c, m, end.dispersed[m]) && !IsDislodged(c, f, m)
  {
    StartIs(c, f);
    assert IsSound(c, m, BeforeFinal(c, f).dispersed[m]);
    assert m in AfterDispersions(c, f).dispersed;
  }

  /** An army whose dispersion is carried out gave no other order and was not driven out. */
  lemma DisperserFacts(c: Context, f: CombatFacts, end: Rules, m: ArmyId)
    requires IsOutcome(c, f, end) && m in end.dispersed
    ensures m in c.disperses && m in c.armies && m !in c.attacks && m !in c.joins && !IsDislodged(c, f, m)
    ensures c.disperses[m].source == c.armies[m].territory && IsSound(c, m, end.dispersed[m])
  {
    DispersedIsSound(c, f, end, m);
    OneOrder(c, m);
  }

  lemma OneOrder(c: Context, m: ArmyId)
    requires WellFormed(c) && m in c.disperses
    ensures m in c.armies && m !in c.attacks && m !in c.joins && c.disperses[m].source == c.armies[m].territory
  {
  }

  lemma PlacedAnchors(c: Context, f: CombatFacts, end: Rules, b: ArmyId)
    requires IsOutcome(c, f, end) && b in c.armies && !IsDislodged(c, f, b) && b !in end.dispersed
    ensures Present(c, f, end, b, FinalPlace(c, f, end, b))
    ensures !Fuses(end, b) ==> AnchorAt(c, f, end, b, FinalPlace(c, f, end, b))
  {
    JoinedSucceeded(c, f, end, b);
    assert AttackMoves(c, f, b) ==> MoverEntered(c, f, b);
  }

  lemma PlacedDisperser(c: Context, f: CombatFacts, end: Rules, m: ArmyId)
    requires IsOutcome(c, f, end) && m in end.dispersed
    ensures m in c.armies && !IsDislodged(c, f, m) && FinalPlace(c, f, end, m) == c.armies[m].territory
  {
    DisperserFacts(c, f, end, m);
    assert AttackMoves(c, f, m) ==> MoverEntered(c, f, m);
  }

  lemma PlacedRight(c: Context, f: CombatFacts, end: Rules)
    requires IsOutcome(c, f, end)
    ensures AllRight(c, f, end, Placed(c, f, end, c.attacks.Keys, c.joins.Keys), end.dispersed.Keys)
  {
    var live := Placed(c, f, end, c.attacks.Keys, c.joins.Keys);
    forall b ensures RightAt(c, f, end, live, end.dispersed.Keys, b) {
      if b in live { if b in end.dispersed { PlacedDisperser(c, f, end, b); } else { PlacedAnchors(c, f, end, b); } }
    }
  }

  lemma PlacedApart(c: Context, f: CombatFacts, end: Rules, a: ArmyId, b: ArmyId)
    requires IsOutcome(c, f, end) && a in c.armies && b in c.armies && !IsDislodged(c, f, a) && !IsDislodged(c, f, b)
    requires a !in end.dispersed && b !in end.dispersed && !Fuses(end, a) && !Fuses(end, b)
    requires FinalPlace(c, f, end, a) == FinalPlace(c, f, end, b)
    ensures a == b
  {
    PlacedAnchors(c, f, end, a);
    PlacedAnchors(c, f, end, b);
    OneAnchor(c, f, end, a, b, FinalPlace(c, f, end, a));
  }

  lemma FirstInOrder(c: Context, f: CombatFacts, end: Rules, first: nat)
    requires IsOutcome(c, f, end) && forall b :: b in c.armies ==> b < first
    ensures InOrder(c, f, end, Placed(c, f, end, c.attacks.Keys, c.joins.Keys), end.dispersed.Keys, first, first)
  {
    var live := Placed(c, f, end, c.attacks.Keys, c.joins.Keys);
    var todo := end.dispersed.Keys;
    PlacedRight(c, f, end);
    forall m | m in todo ensures m in live {
      PlacedDisperser(c, f, end, m);
    }
    forall a, b ensures Apart(end, live, todo, a, b) {
      if a in live && b in live && IsSettled(end, todo, a) && IsSettled(end, todo, b) && live[a].territory == live[b].territory {
        PlacedApart(c, f, end, a, b);
      }
    }
    PlacedNames(c, f, end, first);
  }

  lemma PlacedNames(c: Context, f: CombatFacts, end: Rules, first: nat)
    requires forall b :: b in c.armies ==> b < first
    ensures var live := Placed(c, f, end, c.attacks.Keys, c.joins.Keys);
            InPlace(c, f, end, live) && Named(c, f, live, first, first)
  {
  }

  // ---------- groups of a dispersion

  /** Taking an army off the board to disperse it. */
  lemma TakenOff(c: Context, f: CombatFacts, end: Rules, live: Board, todo: set<ArmyId>, first: nat, next: nat, m: ArmyId)
    requires InOrder(c, f, end, live, todo, first, next) && m in todo
    ensures InOrder(c, f, end, live - {m}, todo - {m}, first, next)
  {
    forall b ensures RightAt(c, f, end, live - {m}, todo - {m}, b) && NamedAt(c, f, live - {m}, first, next, b) && InPlaceAt(c, f, end, live - {m}, b) {
      assert RightAt(c, f, end, live, todo, b) && NamedAt(c, f, live, first, next, b) && InPlaceAt(c, f, end, live, b);
    }
    forall a, b ensures Apart(end, live - {m}, todo - {m}, a, b) {
      assert Apart(end, live, todo, a, b);
    }
  }

  lemma MoreRight(c: Context, f: CombatFacts, end: Rules, todo: set<ArmyId>, b: ArmyId, p: Piece, more: int)
    requires PieceRight(c, f, end, todo, b, p) && more >= 1 && Rightful(c, f, end, p.territory, p.owner)
    ensures PieceRight(c, f, end, todo, b, p.(size := p.size + more))
  {
  }

  function WithMore(live: Board, h: ArmyId, more: int): Board
    requires h in live
  {
    live[h := live[h].(size := live[h].size + more)]
  }

  /** Troops that belong on t reinforce an army of their player there. */
  lemma Reinforced(c: Context, f: CombatFacts, end: Rules, live: Board, todo: set<ArmyId>, first: nat, next: nat, h: ArmyId, more: int)
    requires InOrder(c, f, end, live, todo, first, next) && h in live && more >= 1
    requires Rightful(c, f, end, live[h].territory, live[h].owner)
    ensures InOrder(c, f, end, WithMore(live, h, more), todo, first, next)
  {
    var board := WithMore(live, h, more);
    forall b ensures RightAt(c, f, end, board, todo, b) {
      assert RightAt(c, f, end, live, todo, b);
      if b == h { MoreRight(c, f, end, todo, h, live[h], more); }
    }
    SamePlaces(c, f, end, live, board, todo, first, next);
  }

  /** Sizes apart, the board is the same. */
  lemma SamePlaces(c: Context, f: CombatFacts, end: Rules, live: Board, board: Board, todo: set<ArmyId>, first: nat, next: nat)
    requires OneSettled(end, live, todo) && InPlace(c, f, end, live) && Named(c, f, live, first, next)
    requires live.Keys == board.Keys && forall b :: b in live ==> board[b].territory == live[b].territory && board[b].owner == live[b].owner
    ensures OneSettled(end, board, todo) && InPlace(c, f, end, board) && Named(c, f, board, first, next)
  {
    forall b ensures NamedAt(c, f, board, first, next, b) && InPlaceAt(c, f, end, board, b) {
      assert NamedAt(c, f, live, first, next, b) && InPlaceAt(c, f, end, live, b);
    }
    forall a, b ensures Apart(end, board, todo, a, b) {
      assert Apart(end, live, todo, a, b);
    }
  }

  /** An army of another player never settled where these troops belong. */
  lemma NobodyElse(c: Context, f: CombatFacts, end: Rules, live: Board, todo: set<ArmyId>, b: ArmyId, t: TerritoryId, owner: PlayerId)
    requires IsOutcome(c, f, end) && b in live && PieceRight(c, f, end, todo, b, live[b]) && b !in todo && live[b].territory == t
    requires Rightful(c, f, end, t, owner)
    ensures live[b].owner == owner
  {
    OneRightful(c, f, end, t, owner, live[b].owner);
  }

  /** Troops that belong on t found an army there when no army of their player can take them in. */
  lemma Founded(c: Context, f: CombatFacts, end: Rules, live: Board, todo: set<ArmyId>, first: nat, next: nat, g: ArmyId, p: Piece)
    requires IsOutcome(c, f, end) && InOrder(c, f, end, live, todo, first, next) && g !in live && p.size >= 1
    requires Rightful(c, f, end, p.territory, p.owner)
    requires g in end.dispersed || first <= g < next
    requires forall b :: b in live && live[b].territory == p.territory && live[b].owner == p.owner ==> Fuses(end, b)
    ensures InOrder(c, f, end, live[g := p], todo, first, next)
  {
    forall b | b in live && IsSettled(end, todo, b) ensures live[b].territory != p.territory {
      if live[b].territory == p.territory {
        assert RightAt(c, f, end, live, todo, b);
        NobodyElse(c, f, end, live, todo, b, p.territory, p.owner);
      }
    }
    if g in end.dispersed { DisperserFacts(c, f, end, g); }
    FoundedOrder(c, f, end, live, todo, first, next, g, p);
  }

  lemma FoundedOrder(c: Context, f: CombatFacts, end: Rules, live: Board, todo: set<ArmyId>, first: nat, next: nat, g: ArmyId, p: Piece)
    requires InOrder(c, f, end, live, todo, first, next) && g !in live && p.size >= 1
    requires Rightful(c, f, end, p.territory, p.owner)
    requires (g in end.dispersed && g in c.armies && !IsDislodged(c, f, g)) || first <= g < next
    requires forall b :: b in live && IsSettled(end, todo, b) ==> live[b].territory != p.territory
    ensures InOrder(c, f, end, live[g := p], todo, first, next)
  {
    var board := live[g := p];
    forall b ensures RightAt(c, f, end, board, todo, b) && NamedAt(c, f, board, first, next, b) && InPlaceAt(c, f, end, board, b) {
      assert RightAt(c, f, end, live, todo, b) && NamedAt(c, f, live, first, next, b) && InPlaceAt(c, f, end, live, b);
    }
    forall a, b ensures Apart(end, board, todo, a, b) {
      assert Apart(end, live, todo, a, b);
    }
  }

  lemma RightfulTarget(c: Context, f: CombatFacts, end: Rules, m: ArmyId, i: nat)
    requires IsOutcome(c, f, end) && m in end.dispersed && i < |c.disperses[m].targets| && i < |end.dispersed[m].resolved|
    requires m in c.disperses && end.dispersed[m].resolved[i]
    ensures Rightful(c, f, end, c.disperses[m].targets[i], OwnerOf(c, m))
  {
    DisperserFacts(c, f, end, m);
    var t := c.disperses[m].targets[i];
    assert Reaches(c.disperses[m], end.dispersed[m].resolved, t);
    assert Present(c, f, end, m, t);
  }

  lemma RightfulOrigin(c: Context, f: CombatFacts, end: Rules, m: ArmyId)
    requires IsOutcome(c, f, end) && m in end.dispersed && end.dispersed[m].remaining > 0
    ensures m in c.disperses && Rightful(c, f, end, c.disperses[m].source, OwnerOf(c, m))
  {
    DisperserFacts(c, f, end, m);
    assert Present(c, f, end, m, c.disperses[m].source);
  }

  // ---------- counting a dispersion's troops

  /** The resolved troops sent to t. */
  function CountAt(targets: seq<TerritoryId>, resolved: seq<bool>, t: TerritoryId): nat
    requires |targets| == |resolved|
  {
    if targets == [] then 0
    else (if resolved[0] && targets[0] == t then 1 else 0) + CountAt(targets[1..], resolved[1..], t)
  }

  /** The resolved troops, on the targets counted, whose target has no group yet. */
  ghost function SentOutside(targets: seq<TerritoryId>, resolved: seq<bool>, done: set<TerritoryId>, counts: TerritoryId -> bool): nat
    requires |targets| == |resolved|
  {
    if targets == [] then 0
    else (if resolved[0] && targets[0] !in done && counts(targets[0]) then 1 else 0)
         + SentOutside(targets[1..], resolved[1..], done, counts)
  }

  lemma {:induction false} OutsideGrouped(targets: seq<TerritoryId>, resolved: seq<bool>, done: set<TerritoryId>, t: TerritoryId, counts: TerritoryId -> bool)
    requires |targets| == |resolved| && t !in done
    ensures SentOutside(targets, resolved, done, counts)
         == (if counts(t) then CountAt(targets, resolved, t) else 0) + SentOutside(targets, resolved, done + {t}, counts)
  {
    if targets != [] { OutsideGrouped(targets[1..], resolved[1..], done, t, counts); }
  }

  lemma {:induction false} OutsideAll(targets: seq<TerritoryId>, resolved: seq<bool>, done: set<TerritoryId>, counts: TerritoryId -> bool)
    requires |targets| == |resolved| && forall i :: 0 <= i < |targets| && resolved[i] ==> targets[i] in done
    ensures SentOutside(targets, resolved, done, counts) == 0
  {
    if targets != [] {
      forall i | 0 <= i < |targets[1..]| && resolved[1..][i] ensures targets[1..][i] in done {
        assert resolved[i + 1];
      }
      OutsideAll(targets[1..], resolved[1..], done, counts);
    }
  }

  /** A tally that ignores places counts a dispersion's troops as resolved. */
  lemma {:induction false} AllSentCounted(targets: seq<TerritoryId>, resolved: seq<bool>, counts: TerritoryId -> bool)
    requires |targets| == |resolved| && forall t :: counts(t)
    ensures SentOutside(targets, resolved, {}, counts) == CountTrue(resolved)
  {
    if targets != [] { AllSentCounted(targets[1..], resolved[1..], counts); }
  }

  lemma {:induction false} NoneSentCounted(targets: seq<TerritoryId>, resolved: seq<bool>, counts: TerritoryId -> bool)
    requires |targets| == |resolved| && forall t :: !counts(t)
    ensures SentOutside(targets, resolved, {}, counts) == 0
  {
    if targets != [] { NoneSentCounted(targets[1..], resolved[1..], counts); }
  }

  lemma {:induction false} SomeAt(targets: seq<TerritoryId>, resolved: seq<bool>, i: nat)
    requires |targets| == |resolved| && i < |targets| && resolved[i]
    ensures CountAt(targets, resolved, targets[i]) >= 1 && CountTrue(resolved) >= 1
  {
    if i > 0 { SomeAt(targets[1..], resolved[1..], i - 1); }
  }

  lemma {:induction false} NoneTrue(resolved: seq<bool>)
    requires forall i :: 0 <= i < |resolved| ==> !resolved[i]
    ensures CountTrue(resolved) == 0
  {
    if resolved != [] {
      forall i | 0 <= i < |resolved[1..]| ensures !resolved[1..][i] { assert !resolved[i + 1]; }
      NoneTrue(resolved[1..]);
    }
  }

  /** The places of a list where a troop is sent to t. */
  function SentAt(targets: seq<TerritoryId>, resolved: seq<bool>, t: TerritoryId): set<nat>
    requires |targets| == |resolved|
  {
    set i: nat | i < |targets| && resolved[i] && targets[i] == t
  }

  lemma {:induction false} CountSent(targets: seq<TerritoryId>, resolved: seq<bool>, t: TerritoryId)
    requires |targets| == |resolved|
    ensures CountAt(targets, resolved, t) == |SentAt(targets, resolved, t)|
  {
    if targets != [] {
      var n := |targets| - 1;
      CountSent(targets[..n], resolved[..n], t);
      CountLast(targets, resolved, t);
      var early := SentAt(targets[..n], resolved[..n], t);
      assert SentAt(targets, resolved, t) == if resolved[n] && targets[n] == t then early + {n} else early;
    }
  }

  lemma {:induction false} CountLast(targets: seq<TerritoryId>, resolved: seq<bool>, t: TerritoryId)
    requires |targets| == |resolved| > 0
    ensures var n := |targets| - 1;
            CountAt(targets, resolved, t) == CountAt(targets[..n], resolved[..n], t) + if resolved[n] && targets[n] == t then 1 else 0
  {
    var n := |targets| - 1;
    if n > 0 {
      CountLast(targets[1..], resolved[1..], t);
      assert targets[1..][..n - 1] == targets[..n][1..] && resolved[1..][..n - 1] == resolved[..n][1..];
    }
  }

  method FirstResolved(resolved: seq<bool>) returns (first: Option<nat>)
    ensures first.Some? ==> first.value < |resolved| && resolved[first.value] && forall i :: 0 <= i < first.value ==> !resolved[i]
    ensures first.None? ==> forall i :: 0 <= i < |resolved| ==> !resolved[i]
  {
    var i := 0;
    while i < |resolved|
      invariant i <= |resolved| && forall j :: 0 <= j < i ==> !resolved[j]
    {
      if resolved[i] { return Some(i); }
      i := i + 1;
    }
    return None;
  }

  /** InOrder and Rightful of one turn, as values. */
  ghost function Fairness(c: Context, f: CombatFacts, end: Rules): (Board, set<ArmyId>, nat, nat) -> bool
  {
    (b, todo, first, next) => InOrder(c, f, end, b, todo, first, next)
  }

  ghost function Rights(c: Context, f: CombatFacts, end: Rules): (TerritoryId, PlayerId) -> bool
  {
    (t: TerritoryId, p: PlayerId) => Rightful(c, f, end, t, p)
  }

  /** An army that disperses started the turn, so its name is not new. */
  lemma DisperserOld(c: Context, f: CombatFacts, end: Rules, live: Board, todo: set<ArmyId>, first: nat, next: nat, m: ArmyId)
    requires IsOutcome(c, f, end) && Named(c, f, live, first, next) && m in end.dispersed
    ensures m < first <= next
  {
    DisperserFacts(c, f, end, m);
  }

  /** A new name is on nobody's board. */
  lemma NextName(c: Context, f: CombatFacts, end: Rules, live: Board, todo: set<ArmyId>, first: nat, next: nat, later: nat)
    requires InOrder(c, f, end, live, todo, first, next) && later == next + 1
    ensures InOrder(c, f, end, live, todo, first, later) && next !in live && first <= next
  {
    forall x ensures NamedAt(c, f, live, first, later, x) {
      assert NamedAt(c, f, live, first, next, x);
    }
    assert NamedAt(c, f, live, first, next, next);
  }

  // ---------- which group keeps the army's name

  /** The armies of a player on t that take in troops arriving there. */
  function HostsAt(end: Rules, b: Board, t: TerritoryId, owner: PlayerId): set<ArmyId>
  {
    set x | x in b && b[x].territory == t && b[x].owner == owner && !Fuses(end, x)
  }

  /** A group joins the first army able to host it, or stands under the name given. */
  ghost predicate GroupAdded(end: Rules, before: Board, after: Board, name: ArmyId, p: Piece)
  {
    var hosts := HostsAt(end, before, p.territory, p.owner);
    if hosts != {} then after == WithMore(before, Least(hosts), p.size) else name !in before && after == before[name := p]
  }

  /** A dispersion being split: its army, the troops left on its origin, where its name goes, the board without it, and the next new name. */
  datatype Division = Division(army: ArmyId, owner: PlayerId, sizes: map<TerritoryId, int>, original: TerritoryId, board: Board, next: nat)

  /** An army that was on the board has the troops of the group it hosts, if any, and no others. */
  ghost predicate HostRight(end: Rules, s: Division, done: set<TerritoryId>, after: Board, b: ArmyId)
  {
    b in s.board ==>
      && b in after
      && var t := s.board[b].territory;
      if t in done && t in s.sizes && b in HostsAt(end, s.board, t, s.owner) && b == Least(HostsAt(end, s.board, t, s.owner))
      then after[b] == s.board[b].(size := s.board[b].size + s.sizes[t])
      else after[b] == s.board[b]
  }

  /** A group without a host stands under the army's name, or a new one. */
  ghost predicate IsGroup(s: Division, next: nat, after: Board, g: ArmyId, t: TerritoryId)
  {
    && g in after && t in s.sizes && after[g] == Piece(s.owner, t, s.sizes[t])
    && if t == s.original then g == s.army else s.next <= g < next
  }

  ghost predicate GroupRight(end: Rules, s: Division, next: nat, after: Board, t: TerritoryId)
  {
    HostsAt(end, s.board, t, s.owner) == {} ==> exists g :: IsGroup(s, next, after, g, t)
  }

  /** An army that was not on the board is such a group. */
  ghost predicate NewRight(end: Rules, s: Division, next: nat, done: set<TerritoryId>, after: Board, g: ArmyId)
  {
    g in after && g !in s.board ==>
      && after[g].territory in done && IsGroup(s, next, after, g, after[g].territory)
      && HostsAt(end, s.board, after[g].territory, s.owner) == {}
  }

  /** The groups in done are on the board, each in its host or under its name, and nothing else changed. */
  ghost predicate Grouped(end: Rules, s: Division, next: nat, done: set<TerritoryId>, after: Board)
  {
    && (forall b: ArmyId :: HostRight(end, s, done, after, b))
    && (forall t :: t in done ==> GroupRight(end, s, next, after, t))
    && forall g: ArmyId :: NewRight(end, s, next, done, after, g)
  }

  /** Groups elsewhere leave the hosts of a territory as they were. */
  lemma SameHosts(end: Rules, s: Division, next: nat, done: set<TerritoryId>, after: Board, t: TerritoryId)
    requires Grouped(end, s, next, done, after) && t !in done
    ensures HostsAt(end, after, t, s.owner) == HostsAt(end, s.board, t, s.owner)
  {
    forall x: ArmyId ensures x in HostsAt(end, after, t, s.owner) <==> x in HostsAt(end, s.board, t, s.owner) {
      assert HostRight(end, s, done, after, x) && NewRight(end, s, next, done, after, x);
    }
  }

  lemma HostedNext(end: Rules, s: Division, next: nat, done: set<TerritoryId>, mid: Board, after: Board, t: TerritoryId)
    requires Grouped(end, s, next, done, mid) && t !in done && t in s.sizes
    requires HostsAt(end, s.board, t, s.owner) != {} && Least(HostsAt(end, s.board, t, s.owner)) in mid
    requires after == WithMore(mid, Least(HostsAt(end, s.board, t, s.owner)), s.sizes[t])
    ensures Grouped(end, s, next, done + {t}, after)
  {
    var h := Least(HostsAt(end, s.board, t, s.owner));
    forall b: ArmyId ensures HostRight(end, s, done + {t}, after, b) && NewRight(end, s, next, done + {t}, after, b) {
      assert HostRight(end, s, done, mid, b) && NewRight(end, s, next, done, mid, b);
      if b == h { assert s.board[h].territory == t; }
    }
    forall u | u in done + {t} ensures GroupRight(end, s, next, after, u) {
      if u in done && HostsAt(end, s.board, u, s.owner) == {} {
        assert GroupRight(end, s, next, mid, u);
        var g :| IsGroup(s, next, mid, g, u);
        assert HostRight(end, s, done, mid, h);
        assert g != h;
        assert IsGroup(s, next, after, g, u);
      }
    }
  }

  lemma NamedNext(end: Rules, s: Division, next: nat, later: nat, done: set<TerritoryId>, mid: Board, after: Board, g: ArmyId, t: TerritoryId)
    requires Grouped(end, s, next, done, mid) && t !in done && t in s.sizes && next <= later && g !in mid
    requires HostsAt(end, s.board, t, s.owner) == {} && after == mid[g := Piece(s.owner, t, s.sizes[t])]
    requires if t == s.original then g == s.army else s.next <= g < later
    ensures Grouped(end, s, later, done + {t}, after)
  {
    forall b: ArmyId ensures HostRight(end, s, done + {t}, after, b) && NewRight(end, s, later, done + {t}, after, b) {
      assert HostRight(end, s, done, mid, b) && NewRight(end, s, next, done, mid, b);
    }
    forall u | u in done + {t} ensures GroupRight(end, s, later, after, u) {
      if u in done && HostsAt(end, s.board, u, s.owner) == {} {
        assert GroupRight(end, s, next, mid, u);
        var x :| IsGroup(s, next, mid, x, u);
        assert IsGroup(s, later, after, x, u);
      } else if u == t {
        assert IsGroup(s, later, after, g, t);
      }
    }
  }

  /** One more group. */
  lemma GroupedNext(end: Rules, s: Division, next: nat, later: nat, done: set<TerritoryId>, mid: Board, after: Board, g: ArmyId, t: TerritoryId)
    requires Grouped(end, s, next, done, mid) && t !in done && t in s.sizes && s.next <= next <= later
    requires GroupAdded(end, mid, after, g, Piece(s.owner, t, s.sizes[t]))
    requires if t == s.original then g == s.army else g == next < later
    ensures Grouped(end, s, later, done + {t}, after)
  {
    SameHosts(end, s, next, done, mid, t);
    var hosts := HostsAt(end, s.board, t, s.owner);
    if hosts != {} {
      HostedNext(end, s, next, done, mid, after, t);
      LaterGrouped(end, s, next, later, done + {t}, after);
    } else {
      NamedNext(end, s, next, later, done, mid, after, g, t);
    }
  }

  lemma LaterGrouped(end: Rules, s: Division, next: nat, later: nat, done: set<TerritoryId>, after: Board)
    requires Grouped(end, s, next, done, after) && next <= later
    ensures Grouped(end, s, later, done, after)
  {
    forall u | u in done ensures GroupRight(end, s, later, after, u) {
      if HostsAt(end, s.board, u, s.owner) == {} {
        assert GroupRight(end, s, next, after, u);
        var g :| IsGroup(s, next, after, g, u);
        assert IsGroup(s, later, after, g, u);
      }
    }
    forall g: ArmyId ensures NewRight(end, s, later, done, after, g) {
      assert NewRight(end, s, next, done, after, g);
    }
  }

  // ---------- fusions

  /** The joins still to merge, each with a host that stands at its destination. */
  ghost predicate Merging(hosts: map<ArmyId, ArmyId>, live: Board, left: set<ArmyId>)
  {
    && left <= hosts.Keys && left <= live.Keys
    && (forall b :: b in live ==> live[b].size >= 1)
    && (forall j :: j in left ==> HostReady(hosts, live, left, j))
    && forall a, b :: MergedApart(live, left, a, b)
  }

  ghost predicate HostReady(hosts: map<ArmyId, ArmyId>, live: Board, left: set<ArmyId>, j: ArmyId)
    requires j in hosts && j in live
  {
    var h := hosts[j];
    h in live && h !in left && live[h].owner == live[j].owner && live[h].territory == live[j].territory
  }

  ghost predicate MergedApart(live: Board, left: set<ArmyId>, a: ArmyId, b: ArmyId)
  {
    a in live && b in live && a !in left && b !in left ==> live[a].territory == live[b].territory ==> a == b
  }

  /** The board once j is merged into h. */
  function Merged(live: Board, j: ArmyId, h: ArmyId): Board
    requires j in live && h in live
  {
    WithMore(live, h, live[j].size) - {j}
  }

  lemma MergeNext(hosts: map<ArmyId, ArmyId>, live: Board, left: set<ArmyId>, j: ArmyId)
    requires Merging(hosts, live, left) && j in left
    ensures HostReady(hosts, live, left, j) && Merging(hosts, Merged(live, j, hosts[j]), left - {j})
  {
    assert HostReady(hosts, live, left, j);
    var next := Merged(live, j, hosts[j]);
    forall i | i in left - {j} ensures HostReady(hosts, next, left - {j}, i) {
      assert HostReady(hosts, live, left, i);
    }
    forall a, b ensures MergedApart(next, left - {j}, a, b) {
      assert MergedApart(live, left, a, b);
    }
  }

  /** Merging an army into one of its owner on its territory changes no count. */
  lemma MergeCounts(live: Board, j: ArmyId, h: ArmyId, q: Tally)
    requires j in live && h in live && j != h && live[h].owner == live[j].owner && live[h].territory == live[j].territory
    ensures Strength(Merged(live, j, h), q) == Strength(live, q)
  {
    StrengthChanged(live, h, WithMore(live, h, live[j].size)[h], q);
    StrengthWithout(WithMore(live, h, live[j].size), j, q);
  }

  ghost function Hosts(end: Rules): map<ArmyId, ArmyId>
  {
    map j | j in end.joined && Fuses(end, j) :: end.joined[j].host.value
  }

  lemma HostPlaced(c: Context, f: CombatFacts, end: Rules, j: ArmyId)
    requires IsOutcome(c, f, end) && Fuses(end, j)
    ensures var h := end.joined[j].host.value;
            && h in c.armies && j in c.armies && !IsDislodged(c, f, h) && !IsDislodged(c, f, j)
            && h !in end.dispersed && j !in end.dispersed && !Fuses(end, h) && OwnerOf(c, h) == OwnerOf(c, j)
            && FinalPlace(c, f, end, h) == FinalPlace(c, f, end, j)
  {
    JoinedSucceeded(c, f, end, j);
    HostAnchored(c, f, end, j);
    var h := end.joined[j].host.value;
    AnchorUnfused(c, f, end, h, c.joins[j].target);
    AnchorPlaced(c, f, end, h, c.joins[j].target);
    JoinerPlaced(c, f, end, j);
  }

  lemma JoinerPlaced(c: Context, f: CombatFacts, end: Rules, j: ArmyId)
    requires IsOutcome(c, f, end) && JoinSucceeded(c, end, j)
    ensures j in c.armies && !IsDislodged(c, f, j) && j !in end.dispersed && FinalPlace(c, f, end, j) == c.joins[j].target
  {
    StartIs(c, f);
    JoinDecidedAtEnd(c, f, end, j);
    if j in end.dispersed { DisperserFacts(c, f, end, j); }
    assert AttackMoves(c, f, j) ==> MoverEntered(c, f, j);
  }

  lemma AnchorPlaced(c: Context, f: CombatFacts, end: Rules, h: ArmyId, t: TerritoryId)
    requires IsOutcome(c, f, end) && AnchorAt(c, f, end, h, t)
    ensures h in c.armies && !IsDislodged(c, f, h) && h !in end.dispersed && FinalPlace(c, f, end, h) == t
  {
    if JoinsAt(c, end, h, t) { JoinerPlaced(c, f, end, h); }
    if WinsAt(c, f, h, t) {
      assert MoverEntered(c, f, h);
      if h in end.dispersed { DisperserFacts(c, f, end, h); }
    }
  }

  lemma AnchorUnfused(c: Context, f: CombatFacts, end: Rules, h: ArmyId, t: TerritoryId)
    requires IsOutcome(c, f, end) && AnchorAt(c, f, end, h, t)
    ensures !Fuses(end, h)
  {
    JoinedSucceeded(c, f, end, h);
  }

  lemma HostIsReady(c: Context, f: CombatFacts, end: Rules, live: Board, j: ArmyId)
    requires IsOutcome(c, f, end) && InPlace(c, f, end, live) && j in Hosts(end)
    ensures j in live && HostReady(Hosts(end), live, Hosts(end).Keys, j)
  {
    HostPlaced(c, f, end, j);
    assert InPlaceAt(c, f, end, live, j) && InPlaceAt(c, f, end, live, Hosts(end)[j]);
  }

  lemma SettledMerged(end: Rules, live: Board)
    requires OneSettled(end, live, {})
    ensures forall a, b :: MergedApart(live, Hosts(end).Keys, a, b)
  {
    forall a, b ensures MergedApart(live, Hosts(end).Keys, a, b) {
      assert Apart(end, live, {}, a, b);
    }
  }

  /** What each army is once every dispersion is applied. */
  lemma PieceFacts(c: Context, f: CombatFacts, end: Rules, live: Board, first: nat, next: nat, b: ArmyId)
    requires InOrder(c, f, end, live, {}, first, next)
    ensures b in live ==> live[b].size >= 1 && Rightful(c, f, end, live[b].territory, live[b].owner)
    ensures b in live ==> (b in c.armies && !IsDislodged(c, f, b)) || first <= b < next
    ensures b in c.armies && !IsDislodged(c, f, b) && b !in end.dispersed ==> b in live && live[b].territory == FinalPlace(c, f, end, b)
  {
    assert NamedAt(c, f, live, first, next, b) && RightAt(c, f, end, live, {}, b) && InPlaceAt(c, f, end, live, b);
  }

  /** Once every dispersion is applied, the joins are ready to merge. */
  lemma MergingStarts(c: Context, f: CombatFacts, end: Rules, live: Board, first: nat, next: nat)
    requires IsOutcome(c, f, end) && InOrder(c, f, end, live, {}, first, next)
    ensures Merging(Hosts(end), live, Hosts(end).Keys)
  {
    forall b | b in live ensures live[b].size >= 1 {
      PieceFacts(c, f, end, live, first, next, b);
    }
    forall j | j in Hosts(end).Keys ensures j in live && HostReady(Hosts(end), live, Hosts(end).Keys, j) {
      HostIsReady(c, f, end, live, j);
    }
    SettledMerged(end, live);
  }

  /** Grouped and GroupAdded of one turn, as values. */
  ghost function Groupings(end: Rules): (Division, nat, set<TerritoryId>, Board) -> bool
  {
    (s, next, done, after) => Grouped(end, s, next, done, after)
  }

  ghost function Additions(end: Rules): (Board, Board, ArmyId, Piece) -> bool
  {
    (before, after, name, p) => GroupAdded(end, before, after, name, p)
  }

  // ---------- execution

  class Field {
    const c: Context
    const f: CombatFacts
    const end: Rules
    var live: Board
    var nextArmy: nat

    /** InOrder and Rightful for this turn, kept folded. */
    ghost const fair: (Board, set<ArmyId>, nat, nat) -> bool
    ghost const rightful: (TerritoryId, PlayerId) -> bool
    /** Grouped and GroupAdded, likewise. */
    ghost const grouped: (Division, nat, set<TerritoryId>, Board) -> bool
    ghost const added: (Board, Board, ArmyId, Piece) -> bool

    ghost predicate Meaning()
    {
      IsOutcome(c, f, end) && fair == Fairness(c, f, end) && rightful == Rights(c, f, end)
    }

    ghost predicate Spread(k: nat) { true }

    ghost predicate Unfold(k: nat) { true }

    ghost predicate Linked()
    {
      && (forall k {:trigger Unfold(k)} :: Unfold(k) ==> Meaning())
      && forall k {:trigger Spread(k)} :: Spread(k) ==> grouped == Groupings(end) && added == Additions(end)
    }

    /** The armies of the turn that were not dislodged, where they start it. */
    constructor (c: Context, f: CombatFacts, end: Rules, nextArmy: nat)
      ensures this.c == c && this.f == f && this.end == end && this.nextArmy == nextArmy
      ensures live == Placed(c, f, end, {}, {})
      ensures IsOutcome(c, f, end) ==> Linked()
    {
      this.c, this.f, this.end, this.nextArmy := c, f, end, nextArmy;
      fair, rightful := Fairness(c, f, end), Rights(c, f, end);
      grouped, added := Groupings(end), Additions(end);
      live := map b | b in c.armies && !IsDislodged(c, f, b) :: Piece(c.armies[b].owner, c.armies[b].territory, c.armies[b].size);
    }

    lemma MoverLive(a: ArmyId)
      requires IsOutcome(c, f, end) && AttackMoves(c, f, a)
      ensures a in c.attacks && a in c.armies && !IsDislodged(c, f, a)
    {
      assert MoverEntered(c, f, a);
    }

    /** Applying one more attack. */
    lemma AttackPlaced(done: set<ArmyId>, a: ArmyId)
      requires a !in done && (AttackMoves(c, f, a) ==> a in c.attacks && a in c.armies && !IsDislodged(c, f, a))
      ensures var board := Placed(c, f, end, done, {});
              Placed(c, f, end, done + {a}, {})
              == if AttackMoves(c, f, a) then board[a := board[a].(territory := c.attacks[a].target)] else board
    {
    }

    method MoveAttack(a: ArmyId, ghost done: set<ArmyId>) returns (status: Status)
      requires IsOutcome(c, f, end) && live == Placed(c, f, end, done, {}) && a !in done && a in c.attacks
      modifies this`live
      ensures status == Done && live == Placed(c, f, end, done + {a}, {})
    {
      if AttackMoves(c, f, a) { MoverLive(a); }
      AttackPlaced(done, a);
      if AttackMoves(c, f, a) {
        if a !in live { return MissingArmy(a); }
        live := live[a := live[a].(territory := c.attacks[a].target)];
      }
      return Done;
    }

    method MoveAttacks() returns (status: Status)
      requires IsOutcome(c, f, end) && live == Placed(c, f, end, {}, {})
      modifies this`live
      ensures status == Done && live == Placed(c, f, end, c.attacks.Keys, {})
    {
      var order := Sorted(c.attacks.Keys);
      VisitedAll(c.attacks.Keys);
      var i := 0;
      while i < |order|
        invariant i <= |order| && live == Placed(c, f, end, Visited(order, i), {})
      {
        VisitNext(order, i);
        status := MoveAttack(order[i], Visited(order, i));
        if status != Done { return status; }
        i := i + 1;
      }
      return Done;
    }

    /** Applying one more join. */
    lemma JoinPlaced(done: set<ArmyId>, a: ArmyId)
      requires a !in done && (JoinSucceeded(c, end, a) ==> a in c.armies && !IsDislodged(c, f, a) && a !in c.attacks)
      ensures var board := Placed(c, f, end, c.attacks.Keys, done);
              Placed(c, f, end, c.attacks.Keys, done + {a})
              == if JoinSucceeded(c, end, a) then board[a := board[a].(territory := c.joins[a].target)] else board
    {
    }

    method MoveJoins() returns (status: Status)
      requires IsOutcome(c, f, end) && live == Placed(c, f, end, c.attacks.Keys, {})
      modifies this`live
      ensures status == Done && live == Placed(c, f, end, c.attacks.Keys, c.joins.Keys)
    {
      var order := Sorted(end.joined.Keys);
      VisitedAll(end.joined.Keys);
      var i := 0;
      while i < |order|
        invariant i <= |order| && live == Placed(c, f, end, c.attacks.Keys, Visited(order, i))
      {
        var a := order[i];
        VisitNext(order, i);
        JoinedSucceeded(c, f, end, a);
        JoinerLive(a);
        JoinPlaced(Visited(order, i), a);
        if OutcomeOf(end, a) == Success {
          if a !in live { return MissingArmy(a); }
          live := live[a := live[a].(territory := c.joins[a].target)];
        }
        i := i + 1;
      }
      AllJoinsPlaced();
      return Done;
    }

    lemma JoinerLive(a: ArmyId)
      requires IsOutcome(c, f, end) && JoinSucceeded(c, end, a)
      ensures a in c.armies && !IsDislodged(c, f, a) && a !in c.attacks
    {
      StartIs(c, f);
      JoinDecidedAtEnd(c, f, end, a);
    }

    lemma AllJoinsPlaced()
      requires IsOutcome(c, f, end)
      ensures Placed(c, f, end, c.attacks.Keys, end.joined.Keys) == Placed(c, f, end, c.attacks.Keys, c.joins.Keys)
    {
      forall b | b in c.armies
        ensures Place(c, f, end, c.attacks.Keys, end.joined.Keys, b) == Place(c, f, end, c.attacks.Keys, c.joins.Keys, b)
      {
        JoinedSucceeded(c, f, end, b);
      }
    }

    // ---------- what the board keeps, step by step

    lemma MoreFair(b: Board, todo: set<ArmyId>, first: nat, next: nat, h: ArmyId, more: int)
      requires Linked() && fair(b, todo, first, next) && h in b && more >= 1 && rightful(b[h].territory, b[h].owner)
      ensures fair(WithMore(b, h, more), todo, first, next)
    {
      assert Unfold(0);
      Reinforced(c, f, end, b, todo, first, next, h, more);
    }

    lemma NewFair(b: Board, todo: set<ArmyId>, first: nat, next: nat, g: ArmyId, p: Piece)
      requires Linked() && fair(b, todo, first, next) && g !in b && p.size >= 1 && rightful(p.territory, p.owner)
      requires g in end.dispersed || first <= g < next
      requires forall x :: x in b && b[x].territory == p.territory && b[x].owner == p.owner ==> Fuses(end, x)
      ensures fair(b[g := p], todo, first, next)
    {
      assert Unfold(0);
      Founded(c, f, end, b, todo, first, next, g, p);
    }

    lemma NameFair(b: Board, todo: set<ArmyId>, first: nat, next: nat)
      requires Linked() && fair(b, todo, first, next)
      ensures fair(b, todo, first, next + 1) && next !in b && first <= next
    {
      assert Unfold(0);
      NextName(c, f, end, b, todo, first, next, next + 1);
    }

    lemma OffFair(b: Board, todo: set<ArmyId>, first: nat, next: nat, m: ArmyId)
      requires Linked() && fair(b, todo, first, next) && m in todo
      ensures fair(b - {m}, todo - {m}, first, next) && m in b && m in end.dispersed && DispersalFits(m)
      ensures b[m].owner == OwnerOf(c, m) && b[m].territory == c.disperses[m].source && b[m].size >= SizeOf(c, m) >= 1
      ensures b[m].size > SizeOf(c, m) ==> rightful(c.disperses[m].source, OwnerOf(c, m))
    {
      assert Unfold(0);
      TakenOff(c, f, end, b, todo, first, next, m);
      assert RightAt(c, f, end, b, todo, m);
      SoundFits(m);
    }

    /** A dispersion carried out: its flags match its targets, and it keeps the troops it does not send. */
    ghost predicate DispersalFits(m: ArmyId)
    {
      && m in end.dispersed && m in c.disperses && |end.dispersed[m].resolved| == |c.disperses[m].targets|
      && !end.dispersed[m].invalid && end.dispersed[m].remaining >= 0
      && end.dispersed[m].remaining == SizeOf(c, m) - CountTrue(end.dispersed[m].resolved)
    }

    lemma SoundFits(m: ArmyId)
      requires Linked() && m in end.dispersed
      ensures DispersalFits(m) && m in c.armies && !IsDislodged(c, f, m) && c.disperses[m].source == c.armies[m].territory
    {
      assert Unfold(0);
      DisperserFacts(c, f, end, m);
    }

    lemma TargetRightful(m: ArmyId, i: nat)
      requires Linked() && DispersalFits(m) && i < |c.disperses[m].targets| && end.dispersed[m].resolved[i]
      ensures rightful(c.disperses[m].targets[i], OwnerOf(c, m))
    {
      assert Unfold(0);
      RightfulTarget(c, f, end, m, i);
    }

    lemma OriginRightful(m: ArmyId)
      requires Linked() && DispersalFits(m) && end.dispersed[m].remaining > 0
      ensures rightful(c.disperses[m].source, OwnerOf(c, m))
    {
      assert Unfold(0);
      RightfulOrigin(c, f, end, m);
    }

    // ---------- groups

    predicate CanHost(b: ArmyId, t: TerritoryId, owner: PlayerId, excluded: ArmyId)
      reads this
      requires b in live
    {
      b != excluded && live[b].territory == t && live[b].owner == owner && !Fuses(end, b)
    }

    /** The first army of a player on t that can take in its troops. */
    method DisperseHostAt(t: TerritoryId, owner: PlayerId, excluded: ArmyId) returns (host: Option<ArmyId>)
      ensures host.Some? ==> host.value in live && CanHost(host.value, t, owner, excluded)
      ensures host.Some? ==> forall b :: b in live && b < host.value ==> !CanHost(b, t, owner, excluded)
      ensures host.None? ==> forall b :: b in live ==> !CanHost(b, t, owner, excluded)
    {
      var order := Sorted(live.Keys);
      var i := 0;
      while i < |order|
        invariant i <= |order| && forall j :: 0 <= j < i ==> order[j] in live && !CanHost(order[j], t, owner, excluded)
      {
        assert order[i] in order;
        if CanHost(order[i], t, owner, excluded) {
          forall b | b in live && b < order[i] ensures !CanHost(b, t, owner, excluded) {
            assert b in order;
            var j :| 0 <= j < |order| && order[j] == b;
            ListedBefore(order, i, j);
          }
          return Some(order[i]);
        }
        i := i + 1;
      }
      forall b | b in live ensures !CanHost(b, t, owner, excluded) {
        assert b in order;
      }
      return None;
    }

    lemma FirstHost(h: ArmyId, group: ArmyId, p: Piece)
      requires group !in live && h in live && CanHost(h, p.territory, p.owner, group)
      requires forall b :: b in live && b < h ==> !CanHost(b, p.territory, p.owner, group)
      ensures HostsAt(end, live, p.territory, p.owner) != {} && Least(HostsAt(end, live, p.territory, p.owner)) == h
    {
      assert h in HostsAt(end, live, p.territory, p.owner);
    }

    lemma HostAdds(b: Board, h: ArmyId, group: ArmyId, p: Piece)
      requires Linked() && h in b && HostsAt(end, b, p.territory, p.owner) != {} && Least(HostsAt(end, b, p.territory, p.owner)) == h
      ensures added(b, WithMore(b, h, p.size), group, p)
    {
      assert Spread(0);
    }

    lemma NameAdds(b: Board, group: ArmyId, p: Piece)
      requires Linked() && HostsAt(end, b, p.territory, p.owner) == {} && group !in b
      ensures added(b, b[group := p], group, p)
    {
      assert Spread(0);
    }

    lemma Unhosted(group: ArmyId, p: Piece)
      requires group !in live && forall b :: b in live ==> !CanHost(b, p.territory, p.owner, group)
      ensures HostsAt(end, live, p.territory, p.owner) == {}
      ensures forall b :: b in live && live[b].territory == p.territory && live[b].owner == p.owner ==> Fuses(end, b)
    {
      forall b | b in live && live[b].territory == p.territory && live[b].owner == p.owner ensures Fuses(end, b) {
        assert !CanHost(b, p.territory, p.owner, group);
      }
    }

    /** Puts a group of troops on t: into an army of its player there, or as an army of its own. */
    method PlaceGroup(group: ArmyId, p: Piece, ghost todo: set<ArmyId>, ghost first: nat) returns (name: ArmyId)
      requires Linked() && fair(live, todo, first, nextArmy) && p.size >= 1 && rightful(p.territory, p.owner)
      requires group !in live && (group in end.dispersed || first <= group < nextArmy)
      modifies this`live
      ensures fair(live, todo, first, nextArmy)
      ensures name in live && live[name].territory == p.territory && live[name].owner == p.owner
      ensures live.Keys <= old(live).Keys + {group} && added(old(live), live, group, p)
      ensures forall q: Tally :: Strength(live, q) == Strength(old(live), q) + Counted(p, q)
    {
      var host := DisperseHostAt(p.territory, p.owner, group);
      ghost var before := live;
      match host {
        case Some(h) =>
          FirstHost(h, group, p);
          MoreFair(live, todo, first, nextArmy, h, p.size);
          HostAdds(live, h, group, p);
          live := WithMore(live, h, p.size);
          name := h;
          forall q: Tally ensures Strength(live, q) == Strength(before, q) + Counted(p, q) {
            StrengthChanged(before, h, live[h], q);
          }
        case None =>
          Unhosted(group, p);
          NewFair(live, todo, first, nextArmy, group, p);
          NameAdds(live, group, p);
          live := live[group := p];
          name := group;
          forall q: Tally ensures Strength(live, q) == Strength(before, q) + Counted(p, q) {
            StrengthAdded(before, group, p, q);
          }
      }
    }

    /** A group keeps the army's name at one target only; elsewhere it gets a new one. */
    method EnsureGroup(m: ArmyId, p: Piece, original: TerritoryId, ghost todo: set<ArmyId>, ghost first: nat) returns (name: ArmyId)
      requires Linked() && fair(live, todo, first, nextArmy) && p.size >= 1 && rightful(p.territory, p.owner)
      requires m in end.dispersed && (p.territory == original ==> m !in live)
      modifies this`live, this`nextArmy
      ensures fair(live, todo, first, nextArmy) && nextArmy == old(nextArmy) + if p.territory == original then 0 else 1
      ensures name in live && live[name].territory == p.territory && live[name].owner == p.owner
      ensures added(old(live), live, if p.territory == original then m else old(nextArmy), p)
      ensures p.territory != original && m !in old(live) ==> m !in live
      ensures forall q: Tally :: Strength(live, q) == Strength(old(live), q) + Counted(p, q)
    {
      var group := m;
      if p.territory != original {
        NameFair(live, todo, first, nextArmy);
        DisperserNamed(live, todo, first, nextArmy, m);
        group := nextArmy;
        nextArmy := nextArmy + 1;
      }
      name := PlaceGroup(group, p, todo, first);
    }

    lemma DisperserNamed(b: Board, todo: set<ArmyId>, first: nat, next: nat, m: ArmyId)
      requires Linked() && fair(b, todo, first, next) && m in end.dispersed
      ensures m < first
    {
      DisperserBefore(m, todo, first, b, next);
    }

    // ---------- one dispersion

    /** The counted troops of a dispersion not on the board: those of targets without a group, and those kept. */
    ghost function Left(m: ArmyId, kept: int, done: set<TerritoryId>, q: Tally): int
      requires DispersalFits(m)
    {
      SentOutside(c.disperses[m].targets, end.dispersed[m].resolved, done, (t: TerritoryId) => q(OwnerOf(c, m), t))
      + if c.disperses[m].source in done then 0 else Share(OwnerOf(c, m), c.disperses[m].source, kept, q)
    }

    /** While m is split: the board is sound, and the troops not on it yet are those left. */
    ghost predicate Splitting(m: ArmyId, kept: int, original: TerritoryId, done: set<TerritoryId>, total: Tally -> int,
                              todo: set<ArmyId>, first: nat)
      reads this
      requires DispersalFits(m)
    {
      && Linked() && fair(live, todo, first, nextArmy) && (original !in done ==> m !in live)
      && forall q: Tally :: total(q) == Strength(live, q) + Left(m, kept, done, q)
    }

    lemma LeftGrouped(m: ArmyId, kept: int, done: set<TerritoryId>, t: TerritoryId, q: Tally)
      requires DispersalFits(m) && t !in done
      ensures var size := CountAt(c.disperses[m].targets, end.dispersed[m].resolved, t) + if t == c.disperses[m].source then kept else 0;
              Left(m, kept, done, q) == Share(OwnerOf(c, m), t, size, q) + Left(m, kept, done + {t}, q)
    {
      OutsideGrouped(c.disperses[m].targets, end.dispersed[m].resolved, done, t, (u: TerritoryId) => q(OwnerOf(c, m), u));
    }

    /** The troops of a dispersion sent to t, with those it keeps if t is its origin. */
    ghost function GroupSize(m: ArmyId, kept: int, t: TerritoryId): int
      requires m in end.dispersed && m in c.disperses
    {
      |set i: nat | i < |c.disperses[m].targets| && i < |end.dispersed[m].resolved| && end.dispersed[m].resolved[i] && c.disperses[m].targets[i] == t|
      + if t == c.disperses[m].source then kept else 0
    }

    lemma GroupCounted(m: ArmyId, kept: int, t: TerritoryId)
      requires DispersalFits(m)
      ensures GroupSize(m, kept, t)
           == CountAt(c.disperses[m].targets, end.dispersed[m].resolved, t) + if t == c.disperses[m].source then kept else 0
    {
      CountSent(c.disperses[m].targets, end.dispersed[m].resolved, t);
      assert SentAt(c.disperses[m].targets, end.dispersed[m].resolved, t)
          == set i: nat | i < |c.disperses[m].targets| && i < |end.dispersed[m].resolved| && end.dispersed[m].resolved[i] && c.disperses[m].targets[i] == t;
    }

    /** The first target served. */
    ghost predicate IsFirstServed(m: ArmyId, i: nat)
      requires m in end.dispersed
    {
      i < |end.dispersed[m].resolved| && end.dispersed[m].resolved[i] && forall j :: 0 <= j < i ==> !end.dispersed[m].resolved[j]
    }

    /**
     Where the army's name goes: to its first target served, if that is the first target of
     the order or no troop is left over; else it stays on the origin.
     */
    ghost predicate KeepsName(m: ArmyId, t: TerritoryId)
      requires m in end.dispersed && m in c.disperses
    {
      && (NothingSent(m) ==> t == c.disperses[m].source)
      && forall i: nat :: IsFirstServed(m, i) && i < |c.disperses[m].targets| ==>
           t == if i == 0 || end.dispersed[m].remaining == 0 then c.disperses[m].targets[i] else c.disperses[m].source
    }

    /** The places where m ends with troops, if it keeps that many on its origin. */
    ghost function Groups(m: ArmyId, kept: int): set<TerritoryId>
      requires m in end.dispersed && m in c.disperses
    {
      set t | t in c.disperses[m].targets + [c.disperses[m].source]
              && (Reaches(c.disperses[m], end.dispersed[m].resolved, t) || (t == c.disperses[m].source && kept > 0))
    }

    /**
     From one board to the next m is split: its groups are at the places it reaches, and on
     its origin with the allies that joined it there, each in its host or under its name.
     */
    ghost predicate SplitRight(m: ArmyId, before: Board, next: nat, after: Board, later: nat)
      requires m in end.dispersed && m in c.disperses && m in before
    {
      var kept := before[m].size - SizeOf(c, m) + end.dispersed[m].remaining;
      forall s: Division :: Divides(s, m, kept, s.original) && KeepsName(m, s.original) && s.board == before - {m} && s.next == next ==>
        Grouped(end, s, later, Groups(m, kept), after)
    }

    /** The group at the place the name goes to is under that name, unless an army of the player was there to take it in. */
    ghost predicate NameRight(m: ArmyId, before: Board, after: Board)
      requires m in end.dispersed && m in c.disperses && m in before
    {
      var kept := before[m].size - SizeOf(c, m) + end.dispersed[m].remaining;
      forall t :: KeepsName(m, t) ==>
        && (m in after <==> HostsAt(end, before - {m}, t, OwnerOf(c, m)) == {})
        && (m in after ==> after[m] == Piece(OwnerOf(c, m), t, GroupSize(m, kept, t)))
    }

    /** How m splits. */
    ghost predicate Divides(s: Division, m: ArmyId, kept: int, original: TerritoryId)
      requires m in end.dispersed && m in c.disperses
    {
      && s.army == m && s.owner == OwnerOf(c, m) && s.original == original
      && s.sizes == map t | t in c.disperses[m].targets + [c.disperses[m].source] :: GroupSize(m, kept, t)
    }

    lemma OneNamePlace(m: ArmyId, t: TerritoryId, u: TerritoryId)
      requires DispersalFits(m) && KeepsName(m, t) && KeepsName(m, u)
      ensures t == u
    {
      if !NothingSent(m) {
        var i := FirstServedAt(m, |end.dispersed[m].resolved|);
      }
    }

    lemma {:induction false} FirstServedAt(m: ArmyId, n: nat) returns (i: nat)
      requires m in end.dispersed && n <= |end.dispersed[m].resolved|
      requires exists j :: 0 <= j < n && end.dispersed[m].resolved[j]
      ensures IsFirstServed(m, i)
      decreases n
    {
      if exists j :: 0 <= j < n - 1 && end.dispersed[m].resolved[j] {
        i := FirstServedAt(m, n - 1);
      } else {
        i := n - 1;
      }
    }

    /** The place the name goes to gets a group. */
    lemma NameGrouped(m: ArmyId, kept: int, t: TerritoryId)
      requires DispersalFits(m) && KeepsName(m, t) && kept >= end.dispersed[m].remaining && SizeOf(c, m) >= 1
      ensures t in Groups(m, kept)
    {
      if NothingSent(m) {
        NoneTrue(end.dispersed[m].resolved);
      } else {
        var i := FirstServedAt(m, |end.dispersed[m].resolved|);
        assert Reaches(c.disperses[m], end.dispersed[m].resolved, c.disperses[m].targets[i]);
      }
    }

    lemma SameDivision(m: ArmyId, kept: int, s: Division, r: Division)
      requires DispersalFits(m) && Divides(s, m, kept, s.original) && Divides(r, m, kept, r.original)
      requires KeepsName(m, s.original) && KeepsName(m, r.original) && r.board == s.board && r.next == s.next
      ensures r == s
    {
      OneNamePlace(m, s.original, r.original);
    }

    lemma GroupedIs(s: Division, next: nat, done: set<TerritoryId>, after: Board)
      requires Linked() && grouped(s, next, done, after)
      ensures Grouped(end, s, next, done, after)
    {
      assert Spread(0);
    }

    lemma SplitIsRight(m: ArmyId, s: Division, before: Board, next: nat, after: Board, later: nat)
      requires Linked() && DispersalFits(m) && m in before
      requires var kept := before[m].size - SizeOf(c, m) + end.dispersed[m].remaining;
               && Divides(s, m, kept, s.original) && KeepsName(m, s.original) && s.board == before - {m} && s.next == next
               && grouped(s, later, Groups(m, kept), after)
      ensures SplitRight(m, before, next, after, later)
    {
      var kept := before[m].size - SizeOf(c, m) + end.dispersed[m].remaining;
      forall r: Division | Divides(r, m, kept, r.original) && KeepsName(m, r.original) && r.board == before - {m} && r.next == next
        ensures Grouped(end, r, later, Groups(m, kept), after)
      {
        SameDivision(m, kept, s, r);
        GroupedIs(s, later, Groups(m, kept), after);
      }
    }

    lemma NameIsRight(m: ArmyId, s: Division, before: Board, after: Board, later: nat)
      requires Linked() && DispersalFits(m) && m in before && SizeOf(c, m) >= 1 && before[m].size >= SizeOf(c, m) && m < s.next
      requires var kept := before[m].size - SizeOf(c, m) + end.dispersed[m].remaining;
               && Divides(s, m, kept, s.original) && KeepsName(m, s.original) && s.board == before - {m}
               && grouped(s, later, Groups(m, kept), after)
      ensures NameRight(m, before, after)
    {
      assert Spread(0);
      var kept := before[m].size - SizeOf(c, m) + end.dispersed[m].remaining;
      NameGrouped(m, kept, s.original);
      assert GroupRight(end, s, later, after, s.original) && NewRight(end, s, later, Groups(m, kept), after, m);
      forall t | KeepsName(m, t) ensures t == s.original {
        OneNamePlace(m, t, s.original);
      }
      assert HostsAt(end, s.board, s.original, s.owner) == {} ==> exists g :: IsGroup(s, later, after, g, s.original);
      assert m in after ==> IsGroup(s, later, after, m, after[m].territory);
    }

    lemma OneMoreGroup(s: Division, m: ArmyId, kept: int, original: TerritoryId, done: set<TerritoryId>, t: TerritoryId,
                       mid: Board, after: Board, next: nat, later: nat, size: int)
      requires Linked() && DispersalFits(m) && Divides(s, m, kept, original) && grouped(s, next, done, mid) && t !in done
      requires t in c.disperses[m].targets || t == c.disperses[m].source
      requires size == CountAt(c.disperses[m].targets, end.dispersed[m].resolved, t) + if t == c.disperses[m].source then kept else 0
      requires added(mid, after, if t == original then m else next, Piece(OwnerOf(c, m), t, size))
      requires s.next <= next && later == next + if t == original then 0 else 1
      ensures grouped(s, later, done + {t}, after)
    {
      assert Spread(0);
      GroupCounted(m, kept, t);
      GroupedNext(end, s, next, later, done, mid, after, if t == original then m else next, t);
    }

    /** Puts the troops of m sent to t on the board, with those it keeps if t is its origin. */
    method SplitTroops(m: ArmyId, kept: int, original: TerritoryId, t: TerritoryId, ghost done: set<TerritoryId>,
                       ghost total: Tally -> int, ghost todo: set<ArmyId>, ghost first: nat) returns (size: int)
      requires DispersalFits(m) && Splitting(m, kept, original, done, total, todo, first) && t !in done
      requires CountAt(c.disperses[m].targets, end.dispersed[m].resolved, t) + (if t == c.disperses[m].source then kept else 0) >= 1
      requires rightful(t, OwnerOf(c, m))
      modifies this`live, this`nextArmy
      ensures Splitting(m, kept, original, done + {t}, total, todo, first)
      ensures size == CountAt(c.disperses[m].targets, end.dispersed[m].resolved, t) + if t == c.disperses[m].source then kept else 0
      ensures nextArmy == old(nextArmy) + if t == original then 0 else 1
      ensures added(old(live), live, if t == original then m else old(nextArmy), Piece(OwnerOf(c, m), t, size))
    {
      size := CountAt(c.disperses[m].targets, end.dispersed[m].resolved, t) + if t == c.disperses[m].source then kept else 0;
      ghost var before := live;
      var name := EnsureGroup(m, Piece(OwnerOf(c, m), t, size), original, todo, first);
      TroopsPut(m, kept, done, t, total, before, live, size);
    }

    /** The counts once the troops sent to t are on the board. */
    lemma TroopsPut(m: ArmyId, kept: int, done: set<TerritoryId>, t: TerritoryId, total: Tally -> int, before: Board, after: Board, size: int)
      requires DispersalFits(m) && t !in done
      requires size == CountAt(c.disperses[m].targets, end.dispersed[m].resolved, t) + if t == c.disperses[m].source then kept else 0
      requires forall q: Tally :: total(q) == Strength(before, q) + Left(m, kept, done, q)
      requires forall q: Tally :: Strength(after, q) == Strength(before, q) + Counted(Piece(OwnerOf(c, m), t, size), q)
      ensures forall q: Tally :: total(q) == Strength(after, q) + Left(m, kept, done + {t}, q)
    {
      forall q: Tally ensures total(q) == Strength(after, q) + Left(m, kept, done + {t}, q) {
        LeftGrouped(m, kept, done, t, q);
      }
    }

    method SplitGroup(m: ArmyId, kept: int, original: TerritoryId, t: TerritoryId, ghost done: set<TerritoryId>,
                      ghost total: Tally -> int, ghost todo: set<ArmyId>, ghost first: nat, ghost s: Division)
      requires DispersalFits(m) && Divides(s, m, kept, original) && grouped(s, nextArmy, done, live) && s.next <= nextArmy
      requires Splitting(m, kept, original, done, total, todo, first) && t !in done
      requires t in c.disperses[m].targets || t == c.disperses[m].source
      requires CountAt(c.disperses[m].targets, end.dispersed[m].resolved, t) + (if t == c.disperses[m].source then kept else 0) >= 1
      requires rightful(t, OwnerOf(c, m))
      modifies this`live, this`nextArmy
      ensures Splitting(m, kept, original, done + {t}, total, todo, first) && old(nextArmy) <= nextArmy
      ensures grouped(s, nextArmy, done + {t}, live)
    {
      ghost var before, next := live, nextArmy;
      var size := SplitTroops(m, kept, original, t, done, total, todo, first);
      OneMoreGroup(s, m, kept, original, done, t, before, live, next, nextArmy, size);
    }

    /** The groups of the targets reached, in the order of the order. */
    method SplitTargets(m: ArmyId, kept: int, original: TerritoryId, placed: set<TerritoryId>,
                        ghost total: Tally -> int, ghost todo: set<ArmyId>, ghost first: nat, ghost s: Division)
      returns (done: set<TerritoryId>)
      requires DispersalFits(m) && Splitting(m, kept, original, placed, total, todo, first) && kept >= 0
      requires Divides(s, m, kept, original) && grouped(s, nextArmy, placed, live) && s.next <= nextArmy
      modifies this`live, this`nextArmy
      ensures grouped(s, nextArmy, done, live)
      ensures forall t :: t in done ==> t in placed || Reaches(c.disperses[m], end.dispersed[m].resolved, t)
      ensures Splitting(m, kept, original, done, total, todo, first) && old(nextArmy) <= nextArmy && placed <= done
      ensures forall i :: 0 <= i < |c.disperses[m].targets| && end.dispersed[m].resolved[i] ==> c.disperses[m].targets[i] in done
    {
      done := placed;
      var targets, resolved := c.disperses[m].targets, end.dispersed[m].resolved;
      var i := 0;
      while i < |targets|
        invariant i <= |targets| && placed <= done && old(nextArmy) <= nextArmy
        invariant Splitting(m, kept, original, done, total, todo, first) && grouped(s, nextArmy, done, live)
        invariant forall t :: t in done ==> t in placed || Reaches(c.disperses[m], resolved, t)
        invariant forall j :: 0 <= j < i && resolved[j] ==> targets[j] in done
      {
        if resolved[i] && targets[i] !in done {
          TargetRightful(m, i);
          SomeAt(targets, resolved, i);
          SplitGroup(m, kept, original, targets[i], done, total, todo, first, s);
          assert Reaches(c.disperses[m], resolved, targets[i]);
          done := done + {targets[i]};
        }
        i := i + 1;
      }
    }

    ghost predicate NothingSent(m: ArmyId)
      requires m in end.dispersed
    {
      forall i :: 0 <= i < |end.dispersed[m].resolved| ==> !end.dispersed[m].resolved[i]
    }

    /** The target whose group keeps the army's name. */
    method OriginalTarget(m: ArmyId) returns (original: TerritoryId)
      requires DispersalFits(m)
      ensures original == c.disperses[m].source || exists i :: 0 <= i < |c.disperses[m].targets| && end.dispersed[m].resolved[i] && c.disperses[m].targets[i] == original
      ensures KeepsName(m, original)
      ensures original == c.disperses[m].source ==>
                NothingSent(m) || end.dispersed[m].remaining > 0
                || Reaches(c.disperses[m], end.dispersed[m].resolved, c.disperses[m].source)
    {
      original := c.disperses[m].source;
      var first := FirstResolved(end.dispersed[m].resolved);
      if first.Some? && (first.value == 0 || end.dispersed[m].remaining == 0) {
        original := c.disperses[m].targets[first.value];
      }
    }

    /** The origin's group: the troops kept, and the allies that arrived before. */
    method SplitOrigin(m: ArmyId, kept: int, original: TerritoryId, ghost done: set<TerritoryId>,
                       ghost total: Tally -> int, ghost todo: set<ArmyId>, ghost first: nat, ghost s: Division)
      requires DispersalFits(m) && Splitting(m, kept, original, done, total, todo, first) && c.disperses[m].source !in done
      requires kept >= end.dispersed[m].remaining && (kept > end.dispersed[m].remaining ==> rightful(c.disperses[m].source, OwnerOf(c, m)))
      requires kept > 0 || Reaches(c.disperses[m], end.dispersed[m].resolved, c.disperses[m].source)
      requires Divides(s, m, kept, original) && grouped(s, nextArmy, done, live) && s.next <= nextArmy
      modifies this`live, this`nextArmy
      ensures grouped(s, nextArmy, done + {c.disperses[m].source}, live)
      ensures Splitting(m, kept, original, done + {c.disperses[m].source}, total, todo, first) && old(nextArmy) <= nextArmy
    {
      if Reaches(c.disperses[m], end.dispersed[m].resolved, c.disperses[m].source) {
        ghost var i :| 0 <= i < |c.disperses[m].targets| && i < |end.dispersed[m].resolved|
                       && c.disperses[m].targets[i] == c.disperses[m].source && end.dispersed[m].resolved[i];
        TargetRightful(m, i);
        SomeAt(c.disperses[m].targets, end.dispersed[m].resolved, i);
      } else if end.dispersed[m].remaining > 0 {
        OriginRightful(m);
      }
      SplitGroup(m, kept, original, c.disperses[m].source, done, total, todo, first, s);
    }

    /** The split of m about to start. */
    ghost function Plan(m: ArmyId, kept: int, original: TerritoryId): (s: Division)
      reads this
      requires m in end.dispersed && m in c.disperses
      ensures Divides(s, m, kept, original) && s.board == live && s.next == nextArmy
    {
      Division(m, OwnerOf(c, m), map t | t in c.disperses[m].targets + [c.disperses[m].source] :: GroupSize(m, kept, t),
               original, live, nextArmy)
    }

    lemma NothingGrouped(s: Division)
      requires Linked() && s.board == live && s.next == nextArmy
      ensures grouped(s, nextArmy, {}, live)
    {
      assert Spread(0);
    }

    /** Puts the groups of m on the board: the origin's first if it keeps the name, and last if some troops stay there. */
    method SplitPlaces(m: ArmyId, kept: int, original: TerritoryId, ghost total: Tally -> int, ghost todo: set<ArmyId>,
                       ghost first: nat, ghost s: Division) returns (done: set<TerritoryId>)
      requires DispersalFits(m) && Splitting(m, kept, original, {}, total, todo, first) && SizeOf(c, m) >= 1
      requires kept >= end.dispersed[m].remaining && (kept > end.dispersed[m].remaining ==> rightful(c.disperses[m].source, OwnerOf(c, m)))
      requires original == c.disperses[m].source ==>
                 NothingSent(m) || end.dispersed[m].remaining > 0 || Reaches(c.disperses[m], end.dispersed[m].resolved, c.disperses[m].source)
      requires Divides(s, m, kept, original) && grouped(s, nextArmy, {}, live) && s.next <= nextArmy
      modifies this`live, this`nextArmy
      ensures Splitting(m, kept, original, done, total, todo, first) && grouped(s, nextArmy, done, live) && old(nextArmy) <= nextArmy
      ensures done == Groups(m, kept)
    {
      var source := c.disperses[m].source;
      done := {};
      if original == source {
        OriginKept(m, kept);
        SplitOrigin(m, kept, original, {}, total, todo, first, s);
        done := {source};
        assert {} + {source} == done;
      }
      done := SplitTargets(m, kept, original, done, total, todo, first, s);
      if kept > 0 && source !in done {
        SplitOrigin(m, kept, original, done, total, todo, first, s);
        done := done + {source};
      }
    }

    /** Splits an army taken off the board into its groups. */
    method Split(m: ArmyId, kept: int, ghost total: Tally -> int, ghost todo: set<ArmyId>, ghost first: nat)
      returns (ghost s: Division, ghost done: set<TerritoryId>)
      requires DispersalFits(m) && Linked() && fair(live, todo, first, nextArmy) && m !in live && SizeOf(c, m) >= 1
      requires kept >= end.dispersed[m].remaining && (kept > end.dispersed[m].remaining ==> rightful(c.disperses[m].source, OwnerOf(c, m)))
      requires forall q: Tally :: total(q) == Strength(live, q) + Left(m, kept, {}, q)
      modifies this`live, this`nextArmy
      ensures Linked() && fair(live, todo, first, nextArmy) && old(nextArmy) <= nextArmy
      ensures forall q: Tally :: Strength(live, q) == total(q)
      ensures Divides(s, m, kept, s.original) && KeepsName(m, s.original) && s.board == old(live) && s.next == old(nextArmy)
      ensures grouped(s, nextArmy, done, live)
      ensures done == Groups(m, kept)
    {
      var original := OriginalTarget(m);
      s := Plan(m, kept, original);
      NothingGrouped(s);
      done := SplitPlaces(m, kept, original, total, todo, first, s);
      forall q: Tally ensures Left(m, kept, done, q) == 0 {
        NothingLeft(m, kept, done, q);
      }
    }

    lemma NothingLeft(m: ArmyId, kept: int, done: set<TerritoryId>, q: Tally)
      requires DispersalFits(m) && kept >= 0
      requires done == Groups(m, kept)
      ensures Left(m, kept, done, q) == 0
    {
      forall i | 0 <= i < |c.disperses[m].targets| && end.dispersed[m].resolved[i] ensures c.disperses[m].targets[i] in done {
        assert Reaches(c.disperses[m], end.dispersed[m].resolved, c.disperses[m].targets[i]);
      }
      OutsideAll(c.disperses[m].targets, end.dispersed[m].resolved, done, (t: TerritoryId) => q(OwnerOf(c, m), t));
    }

    /** An army that splits with its name on its origin leaves troops there. */
    lemma OriginKept(m: ArmyId, kept: int)
      requires DispersalFits(m) && SizeOf(c, m) >= 1 && kept >= end.dispersed[m].remaining
      requires NothingSent(m) || end.dispersed[m].remaining > 0
               || Reaches(c.disperses[m], end.dispersed[m].resolved, c.disperses[m].source)
      ensures kept > 0 || Reaches(c.disperses[m], end.dispersed[m].resolved, c.disperses[m].source)
    {
      if NothingSent(m) {
        NoneTrue(end.dispersed[m].resolved);
      }
    }

    /** The counted troops of a dispersion where they end: on its targets reached, and those it keeps. */
    ghost function Sent(m: ArmyId, q: Tally): int
      requires DispersalFits(m)
    {
      Left(m, end.dispersed[m].remaining, {}, q)
    }

    /** Counted by player alone, a dispersion's troops are its army's. */
    lemma SentWhole(m: ArmyId, q: Tally, p: PlayerId)
      requires DispersalFits(m) && forall o: PlayerId, t: TerritoryId :: q(o, t) <==> o == p
      ensures Sent(m, q) == if OwnerOf(c, m) == p then SizeOf(c, m) else 0
    {
      if OwnerOf(c, m) == p {
        AllSentCounted(c.disperses[m].targets, end.dispersed[m].resolved, (t: TerritoryId) => q(OwnerOf(c, m), t));
      } else {
        NoneSentCounted(c.disperses[m].targets, end.dispersed[m].resolved, (t: TerritoryId) => q(OwnerOf(c, m), t));
      }
    }

    lemma TakenOffBoard(board: Board, m: ArmyId, arrived: int, q: Tally)
      requires DispersalFits(m) && m in board && board[m].owner == OwnerOf(c, m) && board[m].territory == c.disperses[m].source
      requires board[m].size == SizeOf(c, m) + arrived
      ensures Strength(board, q) - Share(OwnerOf(c, m), c.disperses[m].source, SizeOf(c, m), q) + Sent(m, q)
           == Strength(board - {m}, q) + Left(m, end.dispersed[m].remaining + arrived, {}, q)
    {
      StrengthWithout(board, m, q);
    }

    lemma DisperserBefore(m: ArmyId, todo: set<ArmyId>, first: nat, b: Board, next: nat)
      requires Linked() && fair(b, todo, first, next) && m in end.dispersed
      ensures m < first <= next
    {
      assert Unfold(0);
      DisperserOld(c, f, end, b, todo, first, next, m);
    }

    lemma AppliedRight(m: ArmyId, s: Division, before: Board, next: nat, after: Board, later: nat)
      requires Linked() && DispersalFits(m) && m in before && m < next
      requires SizeOf(c, m) >= 1 && before[m].size >= SizeOf(c, m)
      requires var kept := before[m].size - SizeOf(c, m) + end.dispersed[m].remaining;
               && Divides(s, m, kept, s.original) && KeepsName(m, s.original) && s.board == before - {m} && s.next == next
               && grouped(s, later, Groups(m, kept), after)
      ensures SplitRight(m, before, next, after, later) && NameRight(m, before, after)
    {
      SplitIsRight(m, s, before, next, after, later);
      NameIsRight(m, s, before, after, later);
    }

    lemma AllTakenOff(board: Board, m: ArmyId, arrived: int, total: Tally -> int)
      requires DispersalFits(m) && m in board && board[m].owner == OwnerOf(c, m) && board[m].territory == c.disperses[m].source
      requires board[m].size == SizeOf(c, m) + arrived
      requires forall q: Tally ::
                 total(q) == Strength(board, q) - Share(OwnerOf(c, m), c.disperses[m].source, SizeOf(c, m), q) + Sent(m, q)
      ensures forall q: Tally :: total(q) == Strength(board - {m}, q) + Left(m, end.dispersed[m].remaining + arrived, {}, q)
    {
      forall q: Tally ensures total(q) == Strength(board - {m}, q) + Left(m, end.dispersed[m].remaining + arrived, {}, q) {
        TakenOffBoard(board, m, arrived, q);
      }
    }

    /** Takes an army off the board and splits it, with the allies that joined it on its origin. */
    method SplitArmy(m: ArmyId, kept: int, ghost total: Tally -> int, ghost rest: set<ArmyId>, ghost first: nat)
      requires Linked() && DispersalFits(m) && m in live && fair(live - {m}, rest, first, nextArmy) && m < nextArmy
      requires SizeOf(c, m) >= 1 && live[m].size >= SizeOf(c, m) && kept == live[m].size - SizeOf(c, m) + end.dispersed[m].remaining
      requires live[m].size > SizeOf(c, m) ==> rightful(c.disperses[m].source, OwnerOf(c, m))
      requires forall q: Tally :: total(q) == Strength(live - {m}, q) + Left(m, kept, {}, q)
      modifies this`live, this`nextArmy
      ensures fair(live, rest, first, nextArmy) && old(nextArmy) <= nextArmy
      ensures forall q: Tally :: Strength(live, q) == total(q)
      ensures SplitRight(m, old(live), old(nextArmy), live, nextArmy) && NameRight(m, old(live), live)
    {
      ghost var board, next := live, nextArmy;
      live := live - {m};
      ghost var s, done := Split(m, kept, total, rest, first);
      AppliedRight(m, s, board, next, live, nextArmy);
    }

    /** The counts once m is split where its order sends it. */
    ghost function Totals(board: Board, m: ArmyId): Tally -> int
      requires DispersalFits(m)
    {
      (q: Tally) => Strength(board, q) - Share(OwnerOf(c, m), c.disperses[m].source, SizeOf(c, m), q) + Sent(m, q)
    }

    /** Applies one dispersion: its army leaves the board, its groups come onto it. */
    method ApplyDispersion(m: ArmyId, ghost todo: set<ArmyId>, ghost first: nat) returns (status: Status)
      requires Linked() && fair(live, todo, first, nextArmy) && m in todo && DispersalFits(m)
      modifies this`live, this`nextArmy
      ensures status == Done && Linked() && fair(live, todo - {m}, first, nextArmy) && old(nextArmy) <= nextArmy
      ensures forall q: Tally ::
                Strength(live, q) == Strength(old(live), q) - Share(OwnerOf(c, m), c.disperses[m].source, SizeOf(c, m), q) + Sent(m, q)
      ensures m in old(live) && SplitRight(m, old(live), old(nextArmy), live, nextArmy) && NameRight(m, old(live), live)
    {
      OffFair(live, todo, first, nextArmy, m);
      var d := end.dispersed[m];
      if d.invalid { return Done; }
      if m !in live { return MissingArmy(m); }
      var arrived := live[m].size - SizeOf(c, m);
      if arrived < 0 || (CountTrue(d.resolved) == 0 && d.remaining + arrived != live[m].size) { return InconsistentStrength(m); }
      DisperserBefore(m, todo, first, live, nextArmy);
      AllTakenOff(live, m, arrived, Totals(live, m));
      SplitArmy(m, d.remaining + arrived, Totals(live, m), todo - {m}, first);
      return Done;
    }

    // ---------- all dispersions

    /** The armies still on the board when the turn's movements start. */
    ghost function Survivors(): set<ArmyId>
    {
      set b | b in c.armies && !IsDislodged(c, f, b)
    }

    /** The counted troops of an army where its order takes them. */
    ghost function Contribution(b: ArmyId, q: Tally): int
    {
      if b !in c.armies then 0
      else if b in end.dispersed && DispersalFits(b) then Sent(b, q)
      else Share(c.armies[b].owner, FinalPlace(c, f, end, b), c.armies[b].size, q)
    }

    /** The same, with the dispersions in todo still to apply. */
    ghost function Pending(todo: set<ArmyId>, q: Tally): ArmyId -> int
    {
      (b: ArmyId) => if b in todo && b in c.armies then Share(c.armies[b].owner, c.armies[b].territory, c.armies[b].size, q) else Contribution(b, q)
    }

    ghost function Halfway(todo: set<ArmyId>, q: Tally): int
    {
      Sum(Survivors(), Pending(todo, q))
    }

    /** Where every troop of the turn belongs in the end. */
    ghost function Expected(q: Tally): int
    {
      Sum(Survivors(), (b: ArmyId) => Contribution(b, q))
    }

    lemma HalfwayNext(todo: set<ArmyId>, m: ArmyId, q: Tally)
      requires Linked() && m in todo && m in end.dispersed
      ensures DispersalFits(m)
      ensures Halfway(todo - {m}, q) == Halfway(todo, q) - Share(OwnerOf(c, m), c.disperses[m].source, SizeOf(c, m), q) + Sent(m, q)
    {
      SoundFits(m);
      OneApplied(todo, m, q);
      SumChanged(Survivors(), m, Pending(todo, q), Pending(todo - {m}, q));
    }

    /** Applying a dispersion changes what its army counts for, and nothing else. */
    lemma OneApplied(todo: set<ArmyId>, m: ArmyId, q: Tally)
      requires m in todo && m in end.dispersed && DispersalFits(m)
      requires m in c.armies && !IsDislodged(c, f, m) && c.disperses[m].source == c.armies[m].territory
      ensures m in Survivors() && forall b :: b in Survivors() && b != m ==> Pending(todo, q)(b) == Pending(todo - {m}, q)(b)
      ensures Pending(todo, q)(m) == Share(OwnerOf(c, m), c.disperses[m].source, SizeOf(c, m), q)
      ensures Pending(todo - {m}, q)(m) == Sent(m, q)
    {
    }

    // ---------- names in the end

    ghost function At(p: PlayerId, t: TerritoryId): Tally
    {
      (q: PlayerId, u: TerritoryId) => q == p && u == t
    }

    /** No other army of the player ends with troops on t, or starts a dispersion there. */
    ghost predicate Alone(m: ArmyId, t: TerritoryId)
    {
      forall p :: p in Survivors() && p != m && OwnerOf(c, p) == OwnerOf(c, m) ==>
        !Present(c, f, end, p, t) && !(p in end.dispersed && c.armies[p].territory == t)
    }

    /** A dispersion carried out, where it left its name: on the place it goes to, and surely there if no army could take it in. */
    ghost predicate NameKept(m: ArmyId, board: Board)
    {
      m in end.dispersed && m in c.disperses ==>
        forall t :: KeepsName(m, t) ==>
          && (m in board ==> board[m].territory == t && board[m].owner == OwnerOf(c, m))
          && (Alone(m, t) ==> m in board)
    }

    ghost predicate NamesKept(todo: set<ArmyId>, board: Board)
    {
      forall m: ArmyId :: m !in todo ==> NameKept(m, board)
    }

    lemma {:induction false} SentNowhere(targets: seq<TerritoryId>, resolved: seq<bool>, counts: TerritoryId -> bool)
      requires |targets| == |resolved| && forall i :: 0 <= i < |targets| && resolved[i] ==> !counts(targets[i])
      ensures SentOutside(targets, resolved, {}, counts) == 0
    {
      if targets != [] {
        forall i | 0 <= i < |targets[1..]| && resolved[1..][i] ensures !counts(targets[1..][i]) {
          assert resolved[i + 1];
        }
        SentNowhere(targets[1..], resolved[1..], counts);
      }
    }

    /** An army that is not on t in the end contributes nothing there. */
    lemma AbsentContributes(p: ArmyId, t: TerritoryId)
      requires Linked() && p in Survivors() && !Present(c, f, end, p, t) && !(p in end.dispersed && c.armies[p].territory == t)
      ensures Contribution(p, At(OwnerOf(c, p), t)) == 0
    {
      assert Unfold(0);
      var q := At(OwnerOf(c, p), t);
      if p in end.dispersed {
        SoundFits(p);
        assert !Reaches(c.disperses[p], end.dispersed[p].resolved, t);
        SentNowhere(c.disperses[p].targets, end.dispersed[p].resolved, (u: TerritoryId) => q(OwnerOf(c, p), u));
      } else {
        PlacedAnchors(c, f, end, p);
      }
    }

    lemma ForeignContributes(p: ArmyId, o: PlayerId, t: TerritoryId)
      requires Linked() && p in Survivors() && OwnerOf(c, p) != o
      ensures Contribution(p, At(o, t)) == 0
    {
      var q := At(o, t);
      if p in end.dispersed {
        SoundFits(p);
        forall u: TerritoryId ensures !q(OwnerOf(c, p), u) {
        }
        NoneSentCounted(c.disperses[p].targets, end.dispersed[p].resolved, (u: TerritoryId) => q(OwnerOf(c, p), u));
      }
    }

    /** While m is still to disperse, only its own troops count where it is alone. */
    lemma AloneCounts(m: ArmyId, todo: set<ArmyId>, t: TerritoryId)
      requires Linked() && m in todo && todo <= end.dispersed.Keys && m in Survivors() && Alone(m, t)
      ensures Halfway(todo, At(OwnerOf(c, m), t)) == if c.armies[m].territory == t then c.armies[m].size else 0
    {
      var q := At(OwnerOf(c, m), t);
      SumWithout(Survivors(), m, Pending(todo, q));
      forall p | p in Survivors() - {m} ensures Pending(todo, q)(p) == 0 {
        if OwnerOf(c, p) != OwnerOf(c, m) { ForeignContributes(p, OwnerOf(c, m), t); } else { AbsentContributes(p, t); }
      }
      SumZero(Survivors() - {m}, Pending(todo, q));
    }

    lemma {:induction false} SumZero(s: set<ArmyId>, w: ArmyId -> int)
      requires forall k :: k in s ==> w(k) == 0
      ensures Sum(s, w) == 0
      decreases s
    {
      if s != {} { SumZero(s - {Least(s)}, w); }
    }

    lemma {:induction false} SumAtLeast(s: set<ArmyId>, w: ArmyId -> int, k: ArmyId)
      requires k in s && forall j :: j in s ==> w(j) >= 0
      ensures Sum(s, w) >= w(k)
      decreases s
    {
      SumWithout(s, k, w);
      if s != {k} {
        var j :| j in s - {k};
        SumAtLeast(s - {k}, w, j);
      } else {
        assert s - {k} == {};
      }
    }

    lemma SizesFair(b: Board, todo: set<ArmyId>, first: nat, next: nat, x: ArmyId)
      requires Linked() && fair(b, todo, first, next) && x in b
      ensures b[x].size >= 1 && todo <= end.dispersed.Keys
      ensures x in end.dispersed ==> x < first <= next
    {
      assert Unfold(0);
      assert RightAt(c, f, end, b, todo, x);
      if x in end.dispersed { DisperserFacts(c, f, end, x); }
    }

    /** Nobody can take in the group of an army that is alone. */
    lemma AloneUnhosted(m: ArmyId, b: Board, todo: set<ArmyId>, first: nat, next: nat, t: TerritoryId)
      requires Linked() && fair(b, todo, first, next) && m in todo && m in b && m in end.dispersed && Alone(m, t)
      requires Strength(b, At(OwnerOf(c, m), t)) == Halfway(todo, At(OwnerOf(c, m), t))
      requires b[m].owner == OwnerOf(c, m) && b[m].size >= SizeOf(c, m)
      requires DispersalFits(m) && b[m].territory == c.disperses[m].source
      ensures HostsAt(end, b - {m}, t, OwnerOf(c, m)) == {}
    {
      var q := At(OwnerOf(c, m), t);
      SoundFits(m);
      SizesFair(b, todo, first, next, m);
      AloneCounts(m, todo, t);
      StrengthWithout(b, m, q);
      forall x | x in b - {m} ensures (b - {m})[x].size >= 1 {
        SizesFair(b, todo, first, next, x);
      }
      if h :| h in HostsAt(end, b - {m}, t, OwnerOf(c, m)) {
        SumAtLeast((b - {m}).Keys, Weights(b - {m}, q), h);
      }
    }

    /** Splitting m leaves the names of the dispersions before it. */
    lemma OthersKept(m: ArmyId, k: ArmyId, before: Board, next: nat, after: Board, later: nat)
      requires DispersalFits(m) && m in before && SplitRight(m, before, next, after, later) && NameKept(k, before) && k != m && k < next
      requires exists t :: KeepsName(m, t)
      ensures NameKept(k, after)
    {
      var kept := before[m].size - SizeOf(c, m) + end.dispersed[m].remaining;
      var t :| KeepsName(m, t);
      var s := Division(m, OwnerOf(c, m), map u | u in c.disperses[m].targets + [c.disperses[m].source] :: GroupSize(m, kept, u),
                        t, before - {m}, next);
      assert Divides(s, m, kept, t) && Grouped(end, s, later, Groups(m, kept), after);
      assert HostRight(end, s, Groups(m, kept), after, k) && NewRight(end, s, later, Groups(m, kept), after, k);
      assert k in before ==> k in s.board && s.board[k] == before[k];
    }

    lemma SomeNamePlace(m: ArmyId)
      requires DispersalFits(m)
      ensures exists t :: KeepsName(m, t)
    {
      if NothingSent(m) {
        assert KeepsName(m, c.disperses[m].source);
      } else {
        var i := FirstServedAt(m, |end.dispersed[m].resolved|);
        forall j: nat | IsFirstServed(m, j) ensures j == i {
        }
        assert KeepsName(m, if i == 0 || end.dispersed[m].remaining == 0 then c.disperses[m].targets[i] else c.disperses[m].source);
      }
    }

    lemma NamesNext(m: ArmyId, todo: set<ArmyId>, first: nat, before: Board, next: nat, after: Board, later: nat)
      requires Linked() && fair(before, todo, first, next) && m in todo && m in end.dispersed && DispersalFits(m) && m in before
      requires forall q: Tally :: Strength(before, q) == Halfway(todo, q)
      requires SplitRight(m, before, next, after, later) && NameRight(m, before, after) && NamesKept(todo, before)
      ensures NamesKept(todo - {m}, after)
    {
      OffFair(before, todo, first, next, m);
      SomeNamePlace(m);
      forall k: ArmyId | k !in todo - {m} ensures NameKept(k, after) {
        if k == m {
          forall t | KeepsName(m, t) && Alone(m, t) ensures HostsAt(end, before - {m}, t, OwnerOf(c, m)) == {} {
            AloneUnhosted(m, before, todo, first, next, t);
          }
        } else if k in end.dispersed {
          DisperserBefore(k, todo, first, before, next);
          assert NameKept(k, before);
          OthersKept(m, k, before, next, after, later);
        }
      }
    }

    /** From one board to the next, m is split as it should be. */
    ghost predicate SplitStep(m: ArmyId, now: (Board, nat), after: (Board, nat))
    {
      m in end.dispersed && m in c.disperses && m in now.0 && SplitRight(m, now.0, now.1, after.0, after.1) && NameRight(m, now.0, after.0)
    }

    /** The boards, and the next new names, between the first i dispersions, in the order of their armies. */
    ghost predicate Steps(steps: seq<(Board, nat)>, i: nat)
    {
      var order := Sorted(end.dispersed.Keys);
      i <= |order| && |steps| == i + 1 && forall k :: 0 <= k < i ==> SplitStep(order[k], steps[k], steps[k + 1])
    }

    lemma StepNext(steps: seq<(Board, nat)>, i: nat, next: (Board, nat))
      requires Steps(steps, i) && i < |Sorted(end.dispersed.Keys)| && SplitStep(Sorted(end.dispersed.Keys)[i], steps[i], next)
      ensures Steps(steps + [next], i + 1)
    {
    }

    method ApplyNext(m: ArmyId, ghost todo: set<ArmyId>, ghost first: nat) returns (status: Status)
      requires Linked() && fair(live, todo, first, nextArmy) && m in todo && m in end.dispersed
      requires (forall q: Tally :: Strength(live, q) == Halfway(todo, q)) && NamesKept(todo, live)
      modifies this`live, this`nextArmy
      ensures status == Done && Linked() && fair(live, todo - {m}, first, nextArmy) && old(nextArmy) <= nextArmy
      ensures (forall q: Tally :: Strength(live, q) == Halfway(todo - {m}, q)) && NamesKept(todo - {m}, live)
      ensures SplitStep(m, (old(live), old(nextArmy)), (live, nextArmy))
    {
      SoundFits(m);
      forall q: Tally { HalfwayNext(todo, m, q); }
      ghost var before, next := live, nextArmy;
      status := ApplyDispersion(m, todo, first);
      NamesNext(m, todo, first, before, next, live, nextArmy);
    }

    /** The first i dispersions are applied, in the order of their armies. */
    ghost predicate Applied(i: nat, first: nat, steps: seq<(Board, nat)>)
      reads this
    {
      && i <= |Sorted(end.dispersed.Keys)| && fair(live, ToVisit(end.dispersed.Keys, i), first, nextArmy)
      && Steps(steps, i) && steps[i] == (live, nextArmy)
      && NamesKept(ToVisit(end.dispersed.Keys, i), live)
      && forall q: Tally :: Strength(live, q) == Halfway(ToVisit(end.dispersed.Keys, i), q)
    }

    method ApplyStep(m: ArmyId, ghost i: nat, ghost first: nat, ghost steps: seq<(Board, nat)>) returns (status: Status, ghost more: seq<(Board, nat)>)
      requires Linked() && Applied(i, first, steps) && i < |Sorted(end.dispersed.Keys)| && m == Sorted(end.dispersed.Keys)[i]
      modifies this`live, this`nextArmy
      ensures status == Done && Applied(i + 1, first, more) && more[0] == steps[0] && old(nextArmy) <= nextArmy
    {
      VisitLess(end.dispersed.Keys, i);
      status := ApplyNext(m, ToVisit(end.dispersed.Keys, i), first);
      StepNext(steps, i, (live, nextArmy));
      more := steps + [(live, nextArmy)];
    }

    method ApplyDispersions(ghost first: nat) returns (status: Status, ghost steps: seq<(Board, nat)>)
      requires Linked() && fair(live, end.dispersed.Keys, first, nextArmy)
      requires (forall q: Tally :: Strength(live, q) == Halfway(end.dispersed.Keys, q)) && NamesKept(end.dispersed.Keys, live)
      modifies this`live, this`nextArmy
      ensures status == Done && Linked() && fair(live, {}, first, nextArmy) && old(nextArmy) <= nextArmy
      ensures (forall q: Tally :: Strength(live, q) == Halfway({}, q)) && NamesKept({}, live)
      ensures Steps(steps, |end.dispersed.Keys|) && steps[0] == (old(live), old(nextArmy)) && steps[|end.dispersed.Keys|] == (live, nextArmy)
    {
      var order := Sorted(end.dispersed.Keys);
      VisitEnds(end.dispersed.Keys);
      steps := [(live, nextArmy)];
      var i := 0;
      while i < |order|
        invariant i <= |order| && Applied(i, first, steps) && steps[0] == (old(live), old(nextArmy)) && old(nextArmy) <= nextArmy
      {
        status, steps := ApplyStep(order[i], i, first, steps);
        if status != Done { return status, steps; }
        i := i + 1;
      }
      return Done, steps;
    }

    /** Merges one join into its host. */
    method FuseJoin(j: ArmyId, ghost left: set<ArmyId>) returns (status: Status)
      requires Merging(Hosts(end), live, left) && j in left
      modifies this`live
      ensures status == Done && Merging(Hosts(end), live, left - {j}) && live.Keys == old(live).Keys - {j}
      ensures forall b :: b in live ==> live[b].owner == old(live)[b].owner && live[b].territory == old(live)[b].territory
      ensures forall q: Tally :: Strength(live, q) == Strength(old(live), q)
    {
      var h := end.joined[j].host.value;
      MergeNext(Hosts(end), live, left, j);
      if h !in live || j !in live { return MissingArmy(j); }
      forall q: Tally ensures Strength(Merged(live, j, h), q) == Strength(live, q) {
        MergeCounts(live, j, h, q);
      }
      live := Merged(live, j, h);
      return Done;
    }

    /** The board keeps its places, and loses only the armies merged. */
    ghost predicate SamePieces(before: Board, after: Board, merged: set<ArmyId>)
    {
      && after.Keys == before.Keys - merged
      && forall b :: b in after ==> after[b].owner == before[b].owner && after[b].territory == before[b].territory
    }

    lemma FusingLeft(all: set<ArmyId>, i: nat)
      requires all == end.joined.Keys && i < |Sorted(all)|
      ensures ToVisit(all, i) * Hosts(end).Keys - {Sorted(all)[i]} == ToVisit(all, i + 1) * Hosts(end).Keys
      ensures Fuses(end, Sorted(all)[i]) ==> Sorted(all)[i] in ToVisit(all, i) * Hosts(end).Keys
      ensures !Fuses(end, Sorted(all)[i]) ==> ToVisit(all, i) * Hosts(end).Keys == ToVisit(all, i + 1) * Hosts(end).Keys
    {
      VisitLess(all, i);
    }

    /** The joins visited are merged, the others are still to merge. */
    ghost predicate Fusing(before: Board, all: set<ArmyId>, i: nat)
      requires i <= |Sorted(all)|
      reads this
    {
      && Merging(Hosts(end), live, ToVisit(all, i) * Hosts(end).Keys)
      && SamePieces(before, live, Hosts(end).Keys - ToVisit(all, i))
    }

    method FuseNext(j: ArmyId, ghost i: nat, ghost before: Board) returns (status: Status)
      requires i < |Sorted(end.joined.Keys)| && j == Sorted(end.joined.Keys)[i] && Fusing(before, end.joined.Keys, i)
      modifies this`live
      ensures status == Done && Fusing(before, end.joined.Keys, i + 1)
      ensures forall q: Tally :: Strength(live, q) == Strength(old(live), q)
    {
      ghost var all := end.joined.Keys;
      FusingLeft(all, i);
      VisitLess(all, i);
      if !Fuses(end, j) {
        SkippedNext(before, all, i);
        return Done;
      }
      ghost var mid := live;
      status := FuseJoin(j, ToVisit(all, i) * Hosts(end).Keys);
      FusedNext(before, mid, all, i, j);
    }

    /** Merges the joins that have a host into it. */
    method FuseJoins() returns (status: Status)
      requires Merging(Hosts(end), live, Hosts(end).Keys)
      modifies this`live
      ensures status == Done && Merging(Hosts(end), live, {}) && SamePieces(old(live), live, Hosts(end).Keys)
      ensures forall q: Tally :: Strength(live, q) == Strength(old(live), q)
    {
      ghost var all := end.joined.Keys;
      var order := Sorted(end.joined.Keys);
      FusingStarts(all);
      var i := 0;
      while i < |order|
        invariant i <= |order| && Fusing(old(live), all, i)
        invariant forall q: Tally :: Strength(live, q) == Strength(old(live), q)
      {
        status := FuseNext(order[i], i, old(live));
        if status != Done { return status; }
        i := i + 1;
      }
      FusingEnds(old(live), all);
      return Done;
    }

    lemma FusingStarts(all: set<ArmyId>)
      requires all == end.joined.Keys && Merging(Hosts(end), live, Hosts(end).Keys)
      ensures Fusing(live, all, 0)
    {
      AllFusing(all);
      NoneMoved(live);
    }

    lemma NoneMoved(b: Board)
      ensures SamePieces(b, b, {})
    {
      assert b.Keys - {} == b.Keys;
    }

    lemma AllFusing(all: set<ArmyId>)
      requires all == end.joined.Keys
      ensures ToVisit(all, 0) * Hosts(end).Keys == Hosts(end).Keys && Hosts(end).Keys - ToVisit(all, 0) == {}
    {
      VisitEnds(all);
    }

    lemma FusingEnds(before: Board, all: set<ArmyId>)
      requires all == end.joined.Keys && Fusing(before, all, |Sorted(all)|)
      ensures Merging(Hosts(end), live, {}) && SamePieces(before, live, Hosts(end).Keys)
    {
      VisitEnds(all);
      var none := ToVisit(all, |Sorted(all)|);
      assert none * Hosts(end).Keys == {} && Hosts(end).Keys - none == Hosts(end).Keys;
    }

    lemma FusedNext(before: Board, mid: Board, all: set<ArmyId>, i: nat, j: ArmyId)
      requires all == end.joined.Keys && i < |Sorted(all)| && j == Sorted(all)[i] && j in Hosts(end)
      requires SamePieces(before, mid, Hosts(end).Keys - ToVisit(all, i)) && live.Keys == mid.Keys - {j}
      requires forall b :: b in live ==> live[b].owner == mid[b].owner && live[b].territory == mid[b].territory
      requires Merging(Hosts(end), live, ToVisit(all, i) * Hosts(end).Keys - {j})
      ensures Fusing(before, all, i + 1)
    {
      VisitLess(all, i);
      FusingLeft(all, i);
      PiecesNext(before, mid, live, Hosts(end).Keys - ToVisit(all, i), j);
      MoreDone(Hosts(end).Keys, ToVisit(all, i), j);
    }

    lemma SkippedNext(before: Board, all: set<ArmyId>, i: nat)
      requires all == end.joined.Keys && i < |Sorted(all)| && Fusing(before, all, i) && Sorted(all)[i] !in Hosts(end)
      ensures Fusing(before, all, i + 1)
    {
      VisitLess(all, i);
      FusingLeft(all, i);
      MoreDone(Hosts(end).Keys, ToVisit(all, i), Sorted(all)[i]);
    }

    lemma MoreDone(s: set<ArmyId>, left: set<ArmyId>, j: ArmyId)
      requires j in left
      ensures j in s ==> s - left + {j} == s - (left - {j})
      ensures j !in s ==> s - left == s - (left - {j})
    {
    }

    lemma PiecesNext(before: Board, mid: Board, after: Board, merged: set<ArmyId>, j: ArmyId)
      requires SamePieces(before, mid, merged) && after.Keys == mid.Keys - {j}
      requires forall b :: b in after ==> after[b].owner == mid[b].owner && after[b].territory == mid[b].territory
      ensures SamePieces(before, after, merged + {j})
    {
    }

    lemma MergingFair(b: Board, first: nat, next: nat)
      requires Linked() && fair(b, {}, first, next)
      ensures Merging(Hosts(end), b, Hosts(end).Keys)
    {
      assert Unfold(0);
      MergingStarts(c, f, end, b, first, next);
    }

    lemma PieceFair(b: Board, first: nat, next: nat, k: ArmyId)
      requires Linked() && fair(b, {}, first, next)
      ensures k in b ==> (k in Survivors() || first <= k < next) && rightful(b[k].territory, b[k].owner)
      ensures k in Survivors() && k !in end.dispersed ==> k in b && b[k].territory == FinalPlace(c, f, end, k)
    {
      assert Unfold(0);
      PieceFacts(c, f, end, b, first, next, k);
    }

    /** Where the board ends: one army a territory, each where its player's troops belong. */
    ghost predicate Arranged(b: Board, first: nat, next: nat)
    {
      && OnePerTerritory(b)
      && (forall k :: k in b ==> b[k].size >= 1 && rightful(b[k].territory, b[k].owner) && (k in Survivors() || first <= k < next))
      && (forall k :: k in b && k in end.joined && end.joined[k].host.Some? ==> end.joined[k].host.value == k)
      && forall k :: k in Survivors() && k !in end.dispersed && !Fuses(end, k) ==>
           k in b && b[k].territory == FinalPlace(c, f, end, k)
    }

    /** Each army stands where its player's troops belong. */
    lemma ArrangedRightful(b: Board, first: nat, next: nat)
      requires Linked() && Arranged(b, first, next)
      ensures forall k :: k in b ==> Rightful(c, f, end, b[k].territory, b[k].owner)
    {
      assert Unfold(0);
    }

    lemma MergedArranged(before: Board, after: Board, first: nat, next: nat)
      requires Linked() && fair(before, {}, first, next) && Merging(Hosts(end), after, {})
      requires SamePieces(before, after, Hosts(end).Keys)
      ensures Arranged(after, first, next)
    {
      forall i, j | i in after && j in after && after[i].territory == after[j].territory ensures i == j {
        assert MergedApart(after, {}, i, j);
      }
      forall k: ArmyId ensures k in after ==> rightful(after[k].territory, after[k].owner) && (k in Survivors() || first <= k < next) {
        PieceFair(before, first, next, k);
      }
      forall k | k in Survivors() && k !in end.dispersed && !Fuses(end, k) ensures k in after && after[k].territory == FinalPlace(c, f, end, k) {
        PieceFair(before, first, next, k);
      }
    }

    lemma StartFair(first: nat)
      requires Linked() && forall b :: b in c.armies ==> b < first
      ensures var board := Placed(c, f, end, c.attacks.Keys, c.joins.Keys);
              fair(board, end.dispersed.Keys, first, first)
              && forall q: Tally :: Strength(board, q) == Halfway(end.dispersed.Keys, q)
    {
      assert Unfold(0);
      FirstInOrder(c, f, end, first);
      forall q: Tally ensures Strength(Placed(c, f, end, c.attacks.Keys, c.joins.Keys), q) == Halfway(end.dispersed.Keys, q) {
        StartCounted(q);
      }
    }

    lemma WeightPlaced(b: ArmyId, q: Tally)
      requires Linked() && b in Survivors()
      ensures Weights(Placed(c, f, end, c.attacks.Keys, c.joins.Keys), q)(b) == Pending(end.dispersed.Keys, q)(b)
    {
      assert Unfold(0);
      if b in end.dispersed { PlacedDisperser(c, f, end, b); }
    }

    lemma StartCounted(q: Tally)
      requires Linked()
      ensures Strength(Placed(c, f, end, c.attacks.Keys, c.joins.Keys), q) == Halfway(end.dispersed.Keys, q)
    {
      var board := Placed(c, f, end, c.attacks.Keys, c.joins.Keys);
      assert board.Keys == Survivors();
      forall b | b in Survivors() ensures Weights(board, q)(b) == Pending(end.dispersed.Keys, q)(b) {
        WeightPlaced(b, q);
      }
      SumSame(Survivors(), Weights(board, q), Pending(end.dispersed.Keys, q));
    }

    lemma EndExpected(q: Tally)
      ensures Halfway({}, q) == Expected(q)
    {
      SumSame(Survivors(), Pending({}, q), (b: ArmyId) => Contribution(b, q));
    }

    /** No dispersion is merged into a host. */
    lemma NamesMerged(before: Board, after: Board)
      requires Linked() && NamesKept({}, before) && SamePieces(before, after, Hosts(end).Keys)
      ensures forall m :: m in end.dispersed ==> NameKept(m, after)
    {
      assert Unfold(0);
      forall m | m in end.dispersed ensures NameKept(m, after) {
        assert NameKept(m, before);
        if m in Hosts(end) { HostPlaced(c, f, end, m); }
      }
    }

    /**
     Executes the movements of the turn. No army is ever missing; in the end no two
     armies share a territory, every troop is where its order takes it, each army
     stands where its player's troops belong, and new names are fresh.
     */
    method ExecuteNormalMovements() returns (status: Status, ghost steps: seq<(Board, nat)>)
      requires Linked() && IsOutcome(c, f, end) && live == Placed(c, f, end, {}, {})
      requires forall b :: b in c.armies ==> b < nextArmy
      modifies this`live, this`nextArmy
      ensures status == Done && old(nextArmy) <= nextArmy && Arranged(live, old(nextArmy), nextArmy)
      ensures forall m :: m in end.dispersed ==> NameKept(m, live)
      ensures forall q: Tally :: Strength(live, q) == Expected(q)
      ensures Steps(steps, |end.dispersed.Keys|) && steps[0] == (Placed(c, f, end, c.attacks.Keys, c.joins.Keys), old(nextArmy))
      ensures SamePieces(steps[|end.dispersed.Keys|].0, live, Hosts(end).Keys) && steps[|end.dispersed.Keys|].1 == nextArmy
    {
      steps := [];
      ghost var first := nextArmy;
      status := MoveAttacks();
      if status != Done { return status, steps; }
      status := MoveJoins();
      if status != Done { return status, steps; }
      StartFair(first);
      status, steps := ApplyDispersions(first);
      if status != Done { return status, steps; }
      MergingFair(live, first, nextArmy);
      ghost var before := live;
      status := FuseJoins();
      MergedArranged(before, live, first, nextArmy);
      NamesMerged(before, live);
      forall q: Tally { EndExpected(q); }
    }
  }

  // ---------- occupancy

  datatype Occupancy = Occupancy(armyAt: map<TerritoryId, ArmyId>) | MultipleArmies(territory: TerritoryId)

  /** Records which army holds each territory; an error if two armies share one. */
  method RebuildOccupancy(armies: Board) returns (r: Occupancy)
    ensures r.Occupancy? <==> OnePerTerritory(armies)
    ensures r.Occupancy? ==>
              && (forall t :: t in r.armyAt ==> r.armyAt[t] in armies && armies[r.armyAt[t]].territory == t)
              && (forall a :: a in armies ==> armies[a].territory in r.armyAt && r.armyAt[armies[a].territory] == a)
  {
    var order := Sorted(armies.Keys);
    VisitedAll(armies.Keys);
    var at: map<TerritoryId, ArmyId> := map[];
    var i := 0;
    while i < |order|
      invariant i <= |order|
      invariant RecordedFor(armies, at, Visited(order, i))
    {
      VisitNext(order, i);
      var t := armies[order[i]].territory;
      RecordNext(armies, at, Visited(order, i), order[i]);
      if t in at {
        return MultipleArmies(t);
      }
      at := at[t := order[i]];
      i := i + 1;
    }
    AllRecorded(armies, at);
    return Occupancy(at);
  }

  /** The territories recorded are those of the armies seen, each with its army. */
  ghost predicate RecordedFor(armies: Board, at: map<TerritoryId, ArmyId>, seen: set<ArmyId>)
  {
    && (forall t :: t in at ==> at[t] in seen && at[t] in armies && armies[at[t]].territory == t)
    && forall a :: a in seen ==> a in armies && armies[a].territory in at && at[armies[a].territory] == a
  }

  lemma RecordNext(armies: Board, at: map<TerritoryId, ArmyId>, seen: set<ArmyId>, a: ArmyId)
    requires RecordedFor(armies, at, seen) && a in armies && a !in seen
    ensures armies[a].territory in at ==> !OnePerTerritory(armies)
    ensures armies[a].territory !in at ==> RecordedFor(armies, at[armies[a].territory := a], seen + {a})
  {
    var t := armies[a].territory;
    if t in at {
      assert at[t] != a && armies[at[t]].territory == armies[a].territory;
    } else {
      forall b | b in seen ensures armies[b].territory != t {
      }
    }
  }

  lemma AllRecorded(armies: Board, at: map<TerritoryId, ArmyId>)
    requires RecordedFor(armies, at, armies.Keys)
    ensures OnePerTerritory(armies)
  {
  }
}
