/**
 The shared noble deck: its size, and the cards as they go from the draw pile to
 hands, to nobles, to the discard pile and back.
 */
module NobleDecks {
  import opened Wrappers
  import opened SortedIds
  import opened Turn
  import opened Ledger

  // ---------- the size of the deck

  function Max(x: nat, y: nat): nat
  {
    if x >= y then x else y
  }

  /** One card in so many is a dignity. */
  function DignityShare(players: nat): nat
  {
    Max(if players >= 1 then players - 1 else 0, 4)
  }

  function Dignities(players: nat, size: nat): nat
  {
    Max(1, size / DignityShare(players))
  }

  /** One claim card in twice as many, on top of the deck's size. */
  function ClaimCards(players: nat, size: nat): (claims: nat)
    ensures claims >= 1
  {
    Max(1, size / (2 * DignityShare(players)))
  }

  /** The noble cards of one sex, `odd` for the sex that takes the extra one. */
  function HalfOf(nobles: int, odd: bool): int
  {
    nobles / 2 + if nobles % 2 == 1 && odd then 1 else 0
  }

  function Males(players: nat, size: nat, oddMale: bool): int
  {
    HalfOf(size - Dignities(players, size), oddMale)
  }

  function Females(players: nat, size: nat, oddMale: bool): int
  {
    HalfOf(size - Dignities(players, size), !oddMale)
  }

  /** Some card is a noble, and every noble card can take a name of its sex. */
  predicate IsFeasible(players: nat, size: nat, maleNames: nat, femaleNames: nat, oddMale: bool)
  {
    && size > Dignities(players, size)
    && Males(players, size, oddMale) <= maleNames && Females(players, size, oddMale) <= femaleNames
  }

  datatype DeckSize = DeckSize(size: nat, dignities: nat, claims: nat, males: nat, females: nat)

  /** The largest feasible deck, split nearly evenly between the sexes; none if no size is feasible. */
  method NobleDeckSize(players: nat, limitMax: nat, maleNames: nat, femaleNames: nat, oddMale: bool) returns (r: DeckSize)
    ensures r.size > 0 ==> r.size <= players * (limitMax + 1) && IsFeasible(players, r.size, maleNames, femaleNames, oddMale)
    ensures forall s :: r.size < s <= players * (limitMax + 1) ==> !IsFeasible(players, s, maleNames, femaleNames, oddMale)
    ensures r.size > 0 ==> r.males + r.females + r.dignities == r.size
    ensures r.size > 0 ==> r.dignities == Dignities(players, r.size) && r.claims == ClaimCards(players, r.size)
    ensures r.size > 0 ==> r.males <= maleNames && r.females <= femaleNames && -1 <= r.males - r.females <= 1
    ensures r.size > 0 && r.males != r.females ==> (r.males > r.females <==> oddMale)
    ensures r.size == 0 ==> r == DeckSize(0, 0, 0, 0, 0)
  {
    var largest := players * (limitMax + 1);
    var size := largest;
    while size > 0
      invariant 0 <= size <= largest
      invariant forall s :: size < s <= largest ==> !IsFeasible(players, s, maleNames, femaleNames, oddMale)
    {
      var found := TrySize(players, size, maleNames, femaleNames, oddMale);
      if found.Some? { return found.value; }
      size := size - 1;
    }
    return DeckSize(0, 0, 0, 0, 0);
  }

  /** A deck of that size, if it is feasible. */
  method TrySize(players: nat, size: nat, maleNames: nat, femaleNames: nat, oddMale: bool) returns (r: Option<DeckSize>)
    requires size > 0
    ensures r.Some? <==> IsFeasible(players, size, maleNames, femaleNames, oddMale)
    ensures r.Some? ==>
              && r.value.size == size && r.value.males + r.value.females + r.value.dignities == size
              && r.value.dignities == Dignities(players, size) && r.value.claims == ClaimCards(players, size)
              && r.value.males <= maleNames && r.value.females <= femaleNames && -1 <= r.value.males - r.value.females <= 1
              && (r.value.males != r.value.females ==> (r.value.males > r.value.females <==> oddMale))
  {
    var dignities := Max(1, size / DignityShare(players));
    var claims := ClaimCards(players, size);
    var nobles := size - dignities;
    if nobles <= 0 { return None; }
    var males, females := SplitSexes(nobles, oddMale);
    if males <= maleNames && females <= femaleNames {
      return Some(DeckSize(size, dignities, claims, males, females));
    }
    return None;
  }

  method SplitSexes(nobles: nat, oddMale: bool) returns (males: nat, females: nat)
    ensures males == HalfOf(nobles, oddMale) && females == HalfOf(nobles, !oddMale)
    ensures males + females == nobles && -1 <= males - females <= 1
    ensures males != females ==> (males > females <==> oddMale)
  {
    males, females := nobles / 2, nobles / 2;
    if nobles % 2 == 1 {
      if oddMale { males := males + 1; } else { females := females + 1; }
    }
  }

  // ---------- the cards

  type CardId = nat

  datatype Kind = NobleKind | DignityKind | ClaimKind

  datatype Card = Card(kind: Kind, code: nat, male: bool, dignity: nat)

  datatype Play = Play(card: CardId, noble: NobleId)

  datatype Name = Name(code: nat, male: bool)

  /** How often a card is played. */
  ghost function PlayedCount(q: seq<Play>, id: CardId): nat
  {
    if q == [] then 0 else (if q[0].card == id then 1 else 0) + PlayedCount(q[1..], id)
  }

  ghost function HandCount(hands: map<PlayerId, seq<CardId>>, id: CardId): PlayerId -> int
  {
    (p: PlayerId) => if p in hands then multiset(hands[p])[id] else 0
  }

  ghost function InHands(hands: map<PlayerId, seq<CardId>>, id: CardId): int
  {
    Sum(hands.Keys, HandCount(hands, id))
  }

  /** Changing one hand changes the count by as much. */
  lemma HandChanged(hands: map<PlayerId, seq<CardId>>, p: PlayerId, hand: seq<CardId>, id: CardId)
    ensures InHands(hands[p := hand], id)
         == InHands(hands, id) - (if p in hands then multiset(hands[p])[id] else 0) + multiset(hand)[id]
  {
    var more := hands[p := hand];
    if p in hands {
      assert more.Keys == hands.Keys;
      SumChanged(hands.Keys, p, HandCount(hands, id), HandCount(more, id));
    } else {
      SumWithout(more.Keys, p, HandCount(more, id));
      assert more.Keys - {p} == hands.Keys;
      SumSame(hands.Keys, HandCount(hands, id), HandCount(more, id));
    }
  }

  lemma {:induction false} NoneInHands(hands: map<PlayerId, seq<CardId>>, id: CardId)
    requires forall p :: p in hands ==> hands[p] == []
    ensures InHands(hands, id) == 0
  {
    SumZero(hands.Keys, HandCount(hands, id));
  }

  lemma {:induction false} SumZero(s: set<PlayerId>, w: PlayerId -> int)
    requires forall p :: p in s ==> w(p) == 0
    ensures Sum(s, w) == 0
    decreases s
  {
    if s != {} { SumZero(s - {Least(s)}, w); }
  }

  lemma {:induction false} ListedOnce(s: set<CardId>)
    ensures multiset(Sorted(s)) == multiset(s)
    decreases s
  {
    if s != {} {
      ListedOnce(s - {Least(s)});
      assert s == s - {Least(s)} + {Least(s)};
      assert multiset(s) == multiset(s - {Least(s)}) + multiset{Least(s)};
    } else {
      assert Sorted(s) == [];
    }
  }

  lemma NewDeckPlaces(cards: map<CardId, Card>, pile: seq<CardId>, hands: map<PlayerId, seq<CardId>>)
    requires multiset(pile) == multiset(cards.Keys) && forall p :: p in hands ==> hands[p] == []
    ensures forall id :: Places(pile, [], hands, [], id) == if id in cards then 1 else 0
  {
    forall id ensures Places(pile, [], hands, [], id) == if id in cards then 1 else 0 {
      NoneInHands(hands, id);
    }
  }

  lemma RemovedAt(q: seq<CardId>, i: nat)
    requires i < |q|
    ensures multiset(q[..i] + q[i + 1..]) == multiset(q) - multiset{q[i]}
    ensures q[i] in multiset(q)
  {
    assert q == q[..i] + [q[i]] + q[i + 1..];
  }

  lemma {:induction false} PlayedAppend(a: seq<Play>, b: seq<Play>, id: CardId)
    ensures PlayedCount(a + b, id) == PlayedCount(a, id) + PlayedCount(b, id)
  {
    if a == [] {
      assert a + b == b;
    } else {
      PlayedAppend(a[1..], b, id);
      assert (a + b)[1..] == a[1..] + b;
    }
  }

  /** The number of places a card is in. */
  ghost function Places(drawPile: seq<CardId>, discard: seq<CardId>, hands: map<PlayerId, seq<CardId>>, played: seq<Play>, id: CardId): int
  {
    multiset(drawPile)[id] + multiset(discard)[id] + InHands(hands, id) + PlayedCount(played, id)
  }

  /** The first identifier above every one in use. */
  function NextId(cards: map<CardId, Card>): (id: CardId)
    ensures forall k :: k in cards ==> k < id
    ensures id == 1 || id - 1 in cards
  {
    var q := Sorted(cards.Keys);
    if q == [] then EmptyKeys(cards); 1 else LastIsHighest(cards, q); q[|q| - 1] + 1
  }

  lemma EmptyKeys(cards: map<CardId, Card>)
    requires Sorted(cards.Keys) == []
    ensures forall k :: k !in cards
  {
    forall k ensures k !in cards { assert k in cards ==> k in Sorted(cards.Keys); }
  }

  lemma LastIsHighest(cards: map<CardId, Card>, q: seq<CardId>)
    requires q == Sorted(cards.Keys) && q != []
    ensures q[|q| - 1] in cards && forall k :: k in cards ==> k <= q[|q| - 1]
  {
    assert q[|q| - 1] in q;
    forall k | k in cards ensures k <= q[|q| - 1] {
      assert k in q;
      var j :| 0 <= j < |q| && q[j] == k;
      ListedBefore(q, |q| - 1, j);
    }
  }

  method NextNobleCardId(cards: map<CardId, Card>) returns (id: CardId)
    ensures id == NextId(cards)
  {
    var order := Sorted(cards.Keys);
    var highest := 0;
    var i := 0;
    while i < |order|
      invariant i <= |order| && forall j :: 0 <= j < i ==> order[j] <= highest
      invariant if i == 0 then highest == 0 else highest in order[..i] || highest == 0
    {
      highest := Max(highest, order[i]);
      assert order[..i + 1] == order[..i] + [order[i]];
      i := i + 1;
    }
    id := highest + 1;
    assert order[..i] == order;
    if order == [] { EmptyKeys(cards); } else { LastIsHighest(cards, order); }
    assert highest == if order == [] then 0 else order[|order| - 1];
  }

  /** A new identifier is no card's. */
  lemma FreshId(cards: map<CardId, Card>)
    ensures NextId(cards) !in cards
  {
  }

  method FindName(pool: seq<Name>, male: bool) returns (k: nat)
    ensures k == FirstName(pool, male)
  {
    k := 0;
    assert pool[0..] == pool;
    while k < |pool| && pool[k].male != male
      invariant k <= |pool| && k + FirstName(pool[k..], male) == FirstName(pool, male)
    {
      assert pool[k..][1..] == pool[k + 1..];
      k := k + 1;
    }
  }

  // ---------- what a death does to the deck

  datatype Stock = Stock(cards: map<CardId, Card>, discard: seq<CardId>, pool: seq<Name>)

  function FirstName(pool: seq<Name>, male: bool): (k: nat)
    ensures k <= |pool| && (k < |pool| ==> pool[k].male == male) && forall j :: 0 <= j < k ==> pool[j].male != male
  {
    if pool == [] || pool[0].male == male then 0 else 1 + FirstName(pool[1..], male)
  }

  /** A new noble card under the first name of the sex, on the discard pile; none if no name is left. */
  function Replaced(s: Stock, male: bool): Stock
  {
    var k := FirstName(s.pool, male);
    if k == |s.pool| then s
    else
      var id := NextId(s.cards);
      Stock(s.cards[id := Card(NobleKind, s.pool[k].code, s.pool[k].male, 0)], s.discard + [id], s.pool[..k] + s.pool[k + 1..])
  }

  function SettleCard(s: Stock, id: CardId): Stock
  {
    if id in s.cards && s.cards[id].kind == NobleKind then Replaced(s.(cards := s.cards - {id}), s.cards[id].male)
    else s.(discard := s.discard + [id])
  }

  /** The cards played on a noble, settled in the order they were played. */
  function SettleAll(s: Stock, plays: seq<Play>, noble: NobleId): Stock
    decreases |plays|
  {
    if plays == [] then s
    else SettleAll(if plays[0].noble == noble then SettleCard(s, plays[0].card) else s, plays[1..], noble)
  }

  class Deck {
    var cards: map<CardId, Card>
    var drawPile: seq<CardId>
    var discard: seq<CardId>
    var hands: map<PlayerId, seq<CardId>>
    var played: seq<Play>
    var namePool: seq<Name>
    var reshuffles: nat
    /** The names taken by cards, now or before. */
    ghost var taken: set<nat>

    /** Every card of the deck is in exactly one place, and nothing else is anywhere. */
    ghost predicate Valid()
      reads this
    {
      && (forall id :: Places(drawPile, discard, hands, played, id) == if id in cards then 1 else 0)
      && NamesFree(namePool, taken) && AreTaken(cards, taken)
    }

    /** A new deck: every card in the shuffled draw pile, every hand empty. */
    constructor (all: map<CardId, Card>, shuffle: seq<CardId> -> seq<CardId>, players: set<PlayerId>, pool: seq<Name>)
      requires IsShuffle(shuffle)
      requires NamesFree(pool, set id | id in all && all[id].kind == NobleKind :: all[id].code)
      ensures Valid() && cards == all && multiset(drawPile) == multiset(all.Keys) && discard == [] && played == [] && namePool == pool
      ensures hands.Keys == players && forall p :: p in players ==> hands[p] == []
    {
      cards, namePool, discard, played, reshuffles := all, pool, [], [], 0;
      hands := map p | p in players :: [];
      drawPile := shuffle(Sorted(all.Keys));
      taken := set id | id in all && all[id].kind == NobleKind :: all[id].code;
      new;
      ListedOnce(all.Keys);
      assert multiset(shuffle(Sorted(all.Keys))) == multiset(Sorted(all.Keys));
      NewDeckPlaces(cards, drawPile, hands);
    }

    /** Cards handed out again after a shuffle: the same ones, in some order. */
    ghost static predicate IsShuffle(shuffle: seq<CardId> -> seq<CardId>)
    {
      forall q: seq<CardId> :: multiset(shuffle(q)) == multiset(q)
    }

    /** An empty draw pile takes back the discard pile, shuffled. */
    method Reshuffle(shuffle: seq<CardId> -> seq<CardId>)
      requires Valid() && IsShuffle(shuffle) && drawPile == []
      modifies this`drawPile, this`discard, this`reshuffles
      ensures Valid() && drawPile == shuffle(old(discard)) && discard == [] && reshuffles == old(reshuffles) + 1
      ensures |drawPile| == |old(discard)|
    {
      ghost var discard0 := discard;
      assert multiset(shuffle(discard)) == multiset(discard);
      assert |shuffle(discard)| == |multiset(shuffle(discard))|;
      reshuffles := reshuffles + 1;
      drawPile := shuffle(discard);
      discard := [];
      forall id ensures Places(drawPile, discard, hands, played, id) == if id in cards then 1 else 0 {
        assert Places([], discard0, hands, played, id) == if id in cards then 1 else 0;
      }
    }

    /** Takes the top card of the draw pile into a hand. */
    method TakeTop(p: PlayerId)
      requires Valid() && drawPile != []
      modifies this`drawPile, this`hands
      ensures Valid() && drawPile == old(drawPile)[1..]
      ensures hands == old(hands)[p := (if p in old(hands) then old(hands)[p] else []) + [old(drawPile)[0]]]
    {
      ghost var hands0, draw0 := hands, drawPile;
      var hand := if p in hands then hands[p] else [];
      assert draw0 == [draw0[0]] + draw0[1..];
      hands := hands[p := hand + [drawPile[0]]];
      drawPile := drawPile[1..];
      forall id ensures Places(drawPile, discard, hands, played, id) == if id in cards then 1 else 0 {
        HandChanged(hands0, p, hand + [draw0[0]], id);
        assert Places(draw0, discard, hands0, played, id) == if id in cards then 1 else 0;
      }
    }

    /** Takes the top card into a hand; an empty pile first takes back the discard pile, shuffled. */
    method DrawInto(p: PlayerId, shuffle: seq<CardId> -> seq<CardId>) returns (drawn: bool)
      requires Valid() && IsShuffle(shuffle)
      modifies this`drawPile, this`discard, this`hands, this`reshuffles
      ensures Valid() && (drawn <==> old(drawPile) != [] || old(discard) != [])
      ensures !drawn ==> hands == old(hands) && drawPile == old(drawPile) && discard == old(discard)
      ensures drawn ==>
                && var pile := if old(drawPile) != [] then old(drawPile) else shuffle(old(discard));
                && pile != [] && drawPile == pile[1..]
                && hands == old(hands)[p := (if p in old(hands) then old(hands)[p] else []) + [pile[0]]]
                && discard == (if old(drawPile) != [] then old(discard) else [])
    {
      if drawPile == [] {
        if discard == [] { return false; }
        Reshuffle(shuffle);
      }
      TakeTop(p);
      return true;
    }

    /** Takes a card out of a hand. */
    ghost predicate Holds(p: PlayerId, i: nat)
      reads this
    {
      p in hands && i < |hands[p]|
    }

    /** Plays a card from a hand on a noble. */
    method ConsumeNobleCard(p: PlayerId, i: nat, noble: NobleId)
      requires Valid() && Holds(p, i)
      modifies this`hands, this`played
      ensures Valid() && played == old(played) + [Play(old(hands)[p][i], noble)]
      ensures hands == old(hands)[p := old(hands)[p][..i] + old(hands)[p][i + 1..]]
    {
      ghost var hands0, played0 := hands, played;
      var hand := hands[p];
      var play := Play(hand[i], noble);
      hands := hands[p := hand[..i] + hand[i + 1..]];
      played := played + [play];
      RemovedAt(hand, i);
      forall id ensures Places(drawPile, discard, hands, played, id) == if id in cards then 1 else 0 {
        HandChanged(hands0, p, hand[..i] + hand[i + 1..], id);
        PlayedAppend(played0, [play], id);
        assert Places(drawPile, discard, hands0, played0, id) == if id in cards then 1 else 0;
      }
    }

    /** Discards a card from a hand. */
    method DiscardHandCard(p: PlayerId, i: nat)
      requires Valid() && Holds(p, i)
      modifies this`hands, this`discard
      ensures Valid() && discard == old(discard) + [old(hands)[p][i]]
      ensures hands == old(hands)[p := old(hands)[p][..i] + old(hands)[p][i + 1..]]
    {
      ghost var hands0, discard0 := hands, discard;
      var hand := hands[p];
      hands := hands[p := hand[..i] + hand[i + 1..]];
      discard := discard + [hand[i]];
      RemovedAt(hand, i);
      forall id ensures Places(drawPile, discard, hands, played, id) == if id in cards then 1 else 0 {
        HandChanged(hands0, p, hand[..i] + hand[i + 1..], id);
        assert Places(drawPile, discard0, hands0, played, id) == if id in cards then 1 else 0;
      }
    }

    /** Takes a dignity away: its card, if one conferred it, is discarded. */
    method RemoveDignity(noble: NobleId, dignity: nat)
      requires Valid()
      modifies this`played, this`discard
      ensures Valid() && cards == old(cards) && hands == old(hands) && drawPile == old(drawPile)
      ensures if exists k :: 0 <= k < |old(played)| && Confers(old(played)[k], noble, dignity)
              then exists k :: 0 <= k < |old(played)| && Confers(old(played)[k], noble, dignity)
                     && (forall j :: 0 <= j < k ==> !Confers(old(played)[j], noble, dignity))
                     && played == old(played)[..k] + old(played)[k + 1..] && discard == old(discard) + [old(played)[k].card]
              else played == old(played) && discard == old(discard)
    {
      var k := 0;
      while k < |played|
        invariant k <= |played| && played == old(played) && discard == old(discard)
        invariant forall j :: 0 <= j < k ==> !Confers(played[j], noble, dignity)
      {
        if Confers(played[k], noble, dignity) {
          DiscardPlayed(k);
          return;
        }
        k := k + 1;
      }
    }

    predicate Confers(play: Play, noble: NobleId, dignity: nat)
      reads this`cards
    {
      play.noble == noble && play.card in cards && cards[play.card].kind == DignityKind && cards[play.card].dignity == dignity
    }

    method DiscardPlayed(k: nat)
      requires Valid() && k < |played|
      modifies this`played, this`discard
      ensures Valid() && played == old(played)[..k] + old(played)[k + 1..] && discard == old(discard) + [old(played)[k].card]
    {
      ghost var played0, discard0 := played, discard;
      discard := discard + [played[k].card];
      played := played[..k] + played[k + 1..];
      forall id ensures Places(drawPile, discard, hands, played, id) == if id in cards then 1 else 0 {
        PlayedWithout(played0, k, id);
        assert Places(drawPile, discard0, hands, played0, id) == if id in cards then 1 else 0;
      }
    }

    // ---------- the death of a noble

    /** While a noble's cards are settled: those kept and those still to look at count as played. */
    ghost predicate Settling(kept: seq<Play>, rest: seq<Play>)
      reads this
    {
      && (forall id :: Places(drawPile, discard, hands, kept + rest, id) == if id in cards then 1 else 0)
      && NamesFree(namePool, taken) && AreTaken(cards, taken)
    }

    /** A played card out of its place, on the way to the discard pile. */
    method SettleDignity(kept: seq<Play>, rest: seq<Play>)
      requires Settling(kept, rest) && rest != []
      modifies this`discard
      ensures Settling(kept, rest[1..]) && discard == old(discard) + [rest[0].card]
    {
      ghost var discard0 := discard;
      discard := discard + [rest[0].card];
      forall id ensures Places(drawPile, discard, hands, kept + rest[1..], id) == if id in cards then 1 else 0 {
        FirstSettled(kept, rest, id);
        assert Places(drawPile, discard0, hands, kept + rest, id) == if id in cards then 1 else 0;
      }
    }

    lemma FirstSettled(kept: seq<Play>, rest: seq<Play>, id: CardId)
      requires rest != []
      ensures PlayedCount(kept + rest, id) == PlayedCount(kept + rest[1..], id) + if rest[0].card == id then 1 else 0
    {
      PlayedAppend(kept, rest, id);
      PlayedAppend(kept, rest[1..], id);
    }

    /** A noble card leaves the deck for good. */
    method RemoveCard(kept: seq<Play>, rest: seq<Play>)
      requires Settling(kept, rest) && rest != [] && rest[0].card in cards
      modifies this`cards
      ensures Settling(kept, rest[1..]) && cards == old(cards) - {rest[0].card}
    {
      ghost var cards0 := cards;
      cards := cards - {rest[0].card};
      forall id ensures Places(drawPile, discard, hands, kept + rest[1..], id) == if id in cards then 1 else 0 {
        FirstSettled(kept, rest, id);
        assert Places(drawPile, discard, hands, kept + rest, id) == if id in cards0 then 1 else 0;
      }
    }

    function Stocked(): Stock
      reads this
    {
      Stock(cards, discard, namePool)
    }

    /** A new noble card, under a name of the same sex nobody bears or bore, goes to the discard pile. */
    method AddReplacementNobleCard(male: bool, ghost kept: seq<Play>, ghost rest: seq<Play>) returns (added: Option<CardId>)
      requires Settling(kept, rest)
      modifies this`cards, this`discard, this`namePool, this`taken
      ensures Settling(kept, rest) && old(taken) <= taken
      ensures Stocked() == Replaced(old(Stocked()), male)
      ensures added.None? <==> Stocked() == old(Stocked())
      ensures added.Some? ==> added.value in cards && cards[added.value].code !in old(taken) && cards[added.value].code in taken
    {
      var k := FindName(namePool, male);
      if k == |namePool| { return None; }
      var id := NextNobleCardId(cards);
      AddCard(id, k, kept, rest);
      return Some(id);
    }

    method AddCard(id: CardId, k: nat, ghost kept: seq<Play>, ghost rest: seq<Play>)
      requires Settling(kept, rest) && k < |namePool| && id == NextId(cards)
      modifies this`cards, this`discard, this`namePool, this`taken
      ensures Settling(kept, rest) && taken == old(taken) + {old(namePool)[k].code} && old(namePool)[k].code !in old(taken)
      ensures cards == old(cards)[id := Card(NobleKind, old(namePool)[k].code, old(namePool)[k].male, 0)]
      ensures discard == old(discard) + [id] && namePool == old(namePool)[..k] + old(namePool)[k + 1..]
    {
      var name := namePool[k];
      var card := Card(NobleKind, name.code, name.male, 0);
      NameTaken(namePool, taken, k);
      CardAdded(id, card, kept + rest);
      CodesTaken(cards, cards[id := card], taken, id, card);
      namePool := namePool[..k] + namePool[k + 1..];
      taken := taken + {name.code};
      cards := cards[id := card];
      discard := discard + [id];
    }

    lemma CardAdded(id: CardId, card: Card, plays: seq<Play>)
      requires id == NextId(cards) && forall x :: Places(drawPile, discard, hands, plays, x) == if x in cards then 1 else 0
      ensures forall x :: Places(drawPile, discard + [id], hands, plays, x) == if x in cards[id := card] then 1 else 0
    {
      FreshId(cards);
      forall x ensures Places(drawPile, discard + [id], hands, plays, x) == if x in cards[id := card] then 1 else 0 {
        assert Places(drawPile, discard, hands, plays, x) == if x in cards then 1 else 0;
      }
    }

    /** Settles one played card. */
    method ReleaseOne(kept: seq<Play>, rest: seq<Play>, noble: NobleId) returns (more: seq<Play>)
      requires Settling(kept, rest) && rest != []
      modifies this`cards, this`discard, this`namePool, this`taken
      ensures Settling(more, rest[1..]) && old(taken) <= taken
      ensures more == if rest[0].noble != noble then kept + [rest[0]] else kept
      ensures Stocked() == if rest[0].noble == noble then SettleCard(old(Stocked()), rest[0].card) else old(Stocked())
    {
      var play := rest[0];
      more := kept;
      if play.noble != noble {
        assert kept + rest == (kept + [play]) + rest[1..];
        more := kept + [play];
      } else if play.card !in cards || cards[play.card].kind != NobleKind {
        SettleDignity(kept, rest);
      } else {
        var male := cards[play.card].male;
        RemoveCard(kept, rest);
        var added := AddReplacementNobleCard(male, kept, rest[1..]);
      }
    }

    /**
     Settles the cards played on a noble that died: its noble card is replaced by a
     new one in the discard pile, while names last, and its dignities are discarded.
     */
    method ReleaseNobleCards(noble: NobleId)
      requires Valid()
      modifies this`cards, this`discard, this`namePool, this`taken, this`played
      ensures Valid() && old(taken) <= taken && played == KeptPlays(old(played), noble)
      ensures Stocked() == SettleAll(old(Stocked()), old(played), noble)
    {
      var kept: seq<Play> := [];
      var all := played;
      ghost var start := Stocked();
      ReleaseStarts(all, noble, start);
      var i := 0;
      while i < |all|
        invariant i <= |all| && Settling(kept, all[i..]) && old(taken) <= taken
        invariant Releasing(all, noble, start, i, kept, Stocked())
      {
        ghost var kept0, stock0 := kept, Stocked();
        kept := ReleaseOne(kept, all[i..], noble);
        ReleaseNext(all, noble, start, i, kept0, stock0);
        i := i + 1;
      }
      assert all[i..] == [] && kept + all[i..] == kept;
      played := kept;
    }
  }

  /** The first i plays are settled, those of other nobles kept. */
  ghost predicate Releasing(all: seq<Play>, noble: NobleId, start: Stock, i: nat, kept: seq<Play>, stock: Stock)
  {
    && i <= |all| && kept + KeptPlays(all[i..], noble) == KeptPlays(all, noble)
    && SettleAll(stock, all[i..], noble) == SettleAll(start, all, noble)
  }

  lemma ReleaseStarts(all: seq<Play>, noble: NobleId, start: Stock)
    ensures Releasing(all, noble, start, 0, [], start) && [] + all[0..] == all
  {
    assert all[0..] == all;
    assert [] + KeptPlays(all, noble) == KeptPlays(all, noble);
  }

  lemma ReleaseNext(all: seq<Play>, noble: NobleId, start: Stock, i: nat, kept: seq<Play>, stock: Stock)
    requires Releasing(all, noble, start, i, kept, stock) && i < |all|
    ensures var p := all[i..][0];
            Releasing(all, noble, start, i + 1, if p.noble != noble then kept + [p] else kept,
                      if p.noble == noble then SettleCard(stock, p.card) else stock)
    ensures all[i..][1..] == all[i + 1..]
  {
    var rest := all[i..];
    assert rest[1..] == all[i + 1..];
    if rest[0].noble != noble {
      assert (kept + [rest[0]]) + KeptPlays(rest[1..], noble) == kept + ([rest[0]] + KeptPlays(rest[1..], noble));
    }
  }

  function KeptPlays(q: seq<Play>, noble: NobleId): seq<Play>
  {
    if q == [] then []
    else (if q[0].noble != noble then [q[0]] else []) + KeptPlays(q[1..], noble)
  }

  lemma PlayedWithout(q: seq<Play>, k: nat, id: CardId)
    requires k < |q|
    ensures PlayedCount(q, id) == PlayedCount(q[..k] + q[k + 1..], id) + if q[k].card == id then 1 else 0
  {
    assert q == q[..k] + q[k..] && q[k..][1..] == q[k + 1..];
    PlayedAppend(q[..k], q[k..], id);
    PlayedAppend(q[..k], q[k + 1..], id);
  }

  /** The codes of the noble cards are taken. */
  ghost predicate AreTaken(cards: map<CardId, Card>, taken: set<nat>)
  {
    forall id :: id in cards && cards[id].kind == NobleKind ==> cards[id].code in taken
  }

  lemma CodesTaken(cards: map<CardId, Card>, more: map<CardId, Card>, taken: set<nat>, id: CardId, card: Card)
    requires AreTaken(cards, taken) && more == cards[id := card]
    ensures AreTaken(more, taken + {card.code})
  {
  }

  /** A name taken from the pool stays out of it. */
  lemma NameTaken(pool: seq<Name>, taken: set<nat>, k: nat)
    requires NamesFree(pool, taken) && k < |pool|
    ensures NamesFree(pool[..k] + pool[k + 1..], taken + {pool[k].code}) && pool[k].code !in taken
  {
    var less := pool[..k] + pool[k + 1..];
    forall i | 0 <= i < |less| ensures less[i].code !in taken && less[i].code != pool[k].code {
      assert less[i] == pool[if i < k then i else i + 1];
    }
    forall i, j | 0 <= i < j < |less| ensures less[i].code != less[j].code {
      assert less[i] == pool[if i < k then i else i + 1] && less[j] == pool[if j < k then j else j + 1];
    }
  }

  /** The names left are distinct, and no card has one. */
  ghost predicate NamesFree(pool: seq<Name>, taken: set<nat>)
  {
    && (forall i, j :: 0 <= i < j < |pool| ==> pool[i].code != pool[j].code)
    && forall i :: 0 <= i < |pool| ==> pool[i].code !in taken
  }
}
