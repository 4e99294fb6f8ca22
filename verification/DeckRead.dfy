/** The shares of the deck and the settling of a dead noble's cards, read off the cards. */
module DeckRead {
  import opened Wrappers
  import opened SortedIds
  import opened Turn
  import opened NobleDecks

  /** One card in as many as there are other players, but no more than one in four, and one at least. */
  lemma SharesAre(players: nat, size: nat)
    ensures exists share: nat ::
              && share >= 4 && share >= players - 1 && (share == 4 || share == players - 1)
              && IsShare(Dignities(players, size), size, share) && IsShare(ClaimCards(players, size), size, 2 * share)
  {
    var share := DignityShare(players);
    assert IsShare(Dignities(players, size), size, share) && IsShare(ClaimCards(players, size), size, 2 * share);
  }

  /** n is one in so many of size, rounded down, and at least one. */
  ghost predicate IsShare(n: nat, size: nat, share: nat)
  {
    n >= 1 && size < share * (n + 1) && (n > 1 ==> share * n <= size)
  }

  /** A size is feasible when nobles are left beside the dignities, and each sex has names for its half, the extra one included. */
  lemma FeasibleIs(players: nat, size: nat, maleNames: nat, femaleNames: nat, oddMale: bool)
    ensures IsFeasible(players, size, maleNames, femaleNames, oddMale) <==>
              var nobles := size - Dignities(players, size);
              && nobles > 0 && nobles <= 2 * maleNames + (if oddMale then 0 else 1) && nobles <= 2 * femaleNames + if oddMale then 1 else 0
  {
  }

  /** A play confers a dignity on a noble when it is on that noble, of a card of that dignity. */
  lemma ConfersIs(d: Deck, play: Play, noble: NobleId, dignity: nat)
    ensures d.Confers(play, noble, dignity) <==>
              play.noble == noble && play.card in d.cards && d.cards[play.card].kind == DignityKind && d.cards[play.card].dignity == dignity
  {
  }

  /** The first name of the sex in the pool. */
  ghost predicate IsFirstName(pool: seq<Name>, male: bool, k: nat)
  {
    k < |pool| && pool[k].male == male && forall j :: 0 <= j < k ==> pool[j].male != male
  }

  /** A card goes to the discard pile as it is. */
  ghost predicate Discarded(s: Stock, t: Stock, id: CardId)
  {
    t.cards == s.cards && t.pool == s.pool && t.discard == s.discard + [id]
  }

  /** A noble's card leaves the deck, and no name of its sex is left. */
  ghost predicate Lost(s: Stock, t: Stock, id: CardId)
    requires id in s.cards
  {
    && (forall k :: 0 <= k < |s.pool| ==> s.pool[k].male != s.cards[id].male)
    && t.pool == s.pool && t.discard == s.discard && t.cards == map x | x in s.cards && x != id :: s.cards[x]
  }

  /** A noble's card leaves the deck for a new one of its sex, under the first name left, on the discard pile. */
  ghost predicate Succeeded(s: Stock, t: Stock, id: CardId, k: nat, added: CardId)
    requires id in s.cards
  {
    && IsFirstName(s.pool, s.cards[id].male, k) && t.pool == s.pool[..k] + s.pool[k + 1..]
    && (forall x :: x in s.cards && x != id ==> x < added) && (added == 1 || (added - 1 in s.cards && added - 1 != id))
    && t.discard == s.discard + [added]
    && t.cards == (map x | x in s.cards && x != id :: s.cards[x])[added := Card(NobleKind, s.pool[k].code, s.cards[id].male, 0)]
  }

  /** What settling one card does. */
  lemma CardSettled(s: Stock, id: CardId)
    ensures id !in s.cards || s.cards[id].kind != NobleKind ==> Discarded(s, SettleCard(s, id), id)
    ensures id in s.cards && s.cards[id].kind == NobleKind ==>
              Lost(s, SettleCard(s, id), id) || exists k: nat, added :: Succeeded(s, SettleCard(s, id), id, k, added)
  {
    if id in s.cards && s.cards[id].kind == NobleKind {
      var rest := s.cards - {id};
      assert rest == map x | x in s.cards && x != id :: s.cards[x];
      var k := FirstName(s.pool, s.cards[id].male);
      if k < |s.pool| {
        forall x | x in s.cards && x != id ensures x < NextId(rest) {
          assert x in rest;
        }
        assert Succeeded(s, SettleCard(s, id), id, k, NextId(rest));
      }
    }
  }

  /** The play is settled if it was on the noble, and left alone otherwise. */
  ghost predicate SettledPlay(s: Stock, t: Stock, play: Play, noble: NobleId)
  {
    if play.noble != noble then t == s
    else if play.card in s.cards && s.cards[play.card].kind == NobleKind then
      Lost(s, t, play.card) || exists k: nat, added :: Succeeded(s, t, play.card, k, added)
    else Discarded(s, t, play.card)
  }

  /** The cards of a dead noble are settled one by one, in the order they were played. */
  lemma {:induction false} SettledInOrder(s: Stock, plays: seq<Play>, noble: NobleId) returns (steps: seq<Stock>)
    ensures |steps| == |plays| + 1 && steps[0] == s && steps[|plays|] == SettleAll(s, plays, noble)
    ensures forall i :: 0 <= i < |plays| ==> SettledPlay(steps[i], steps[i + 1], plays[i], noble)
    decreases |plays|
  {
    if plays == [] {
      steps := [s];
    } else {
      var next := if plays[0].noble == noble then SettleCard(s, plays[0].card) else s;
      CardSettled(s, plays[0].card);
      assert SettledPlay(s, next, plays[0], noble);
      var rest := SettledInOrder(next, plays[1..], noble);
      steps := [s] + rest;
      forall i | 0 <= i < |plays| ensures SettledPlay(steps[i], steps[i + 1], plays[i], noble) {
        if i > 0 { assert SettledPlay(rest[i - 1], rest[i], plays[1..][i - 1], noble); }
      }
    }
  }

  /** The places, before the n-th, of plays on other nobles. */
  ghost function OthersBefore(q: seq<Play>, noble: NobleId, n: nat): set<nat>
    requires n <= |q|
  {
    set j: nat | j < n && q[j].noble != noble
  }

  lemma {:induction false} KeptAppend(q: seq<Play>, p: Play, noble: NobleId)
    ensures KeptPlays(q + [p], noble) == KeptPlays(q, noble) + if p.noble != noble then [p] else []
  {
    if q == [] {
      assert (q + [p])[1..] == [];
    } else {
      KeptAppend(q[1..], p, noble);
      assert (q + [p])[1..] == q[1..] + [p];
    }
  }

  /** The cards played on other nobles stay, in their order. */
  lemma {:induction false} KeptInOrder(q: seq<Play>, noble: NobleId)
    ensures |KeptPlays(q, noble)| == |OthersBefore(q, noble, |q|)|
    ensures forall i :: 0 <= i < |q| && q[i].noble != noble ==>
              var at := |OthersBefore(q, noble, i)|; at < |KeptPlays(q, noble)| && KeptPlays(q, noble)[at] == q[i]
    decreases |q|
  {
    if q != [] {
      var n := |q| - 1;
      var rest := q[..n];
      assert q == rest + [q[n]];
      KeptInOrder(rest, noble);
      KeptAppend(rest, q[n], noble);
      KeptGrows(q, rest, noble, KeptPlays(rest, noble), KeptPlays(q, noble));
    }
  }

  lemma OthersEarlier(q: seq<Play>, rest: seq<Play>, noble: NobleId, k: nat)
    requires rest <= q && k <= |rest|
    ensures OthersBefore(q, noble, k) == OthersBefore(rest, noble, k)
  {
  }

  lemma OthersNext(q: seq<Play>, rest: seq<Play>, noble: NobleId)
    requires rest <= q && |q| == |rest| + 1
    ensures |OthersBefore(q, noble, |q|)| == |OthersBefore(rest, noble, |rest|)| + if q[|rest|].noble != noble then 1 else 0
  {
    var n := |rest|;
    OthersEarlier(q, rest, noble, n);
    assert OthersBefore(q, noble, n + 1)
        == if q[n].noble != noble then OthersBefore(q, noble, n) + {n} else OthersBefore(q, noble, n);
  }

  lemma KeptGrows(q: seq<Play>, rest: seq<Play>, noble: NobleId, before: seq<Play>, after: seq<Play>)
    requires |q| == |rest| + 1 && rest <= q && after == before + if q[|rest|].noble != noble then [q[|rest|]] else []
    requires |before| == |OthersBefore(rest, noble, |rest|)|
    requires forall i :: 0 <= i < |rest| && rest[i].noble != noble ==>
               var at := |OthersBefore(rest, noble, i)|; at < |before| && before[at] == rest[i]
    ensures |after| == |OthersBefore(q, noble, |q|)|
    ensures forall i :: 0 <= i < |q| && q[i].noble != noble ==>
              var at := |OthersBefore(q, noble, i)|; at < |after| && after[at] == q[i]
  {
    OthersNext(q, rest, noble);
    forall i | 0 <= i < |q| && q[i].noble != noble
      ensures var at := |OthersBefore(q, noble, i)|; at < |after| && after[at] == q[i]
    {
      OthersEarlier(q, rest, noble, i);
      if i < |rest| { assert rest[i] == q[i]; }
    }
  }
}
