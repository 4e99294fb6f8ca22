/**
 The nobles a dispersion sends along: those an order names, each once, and all the
 others where the order says so. An order that names a noble who is not there, or
 twice, is invalid.
 */
module Escorts {
  import opened Wrappers
  import opened SortedIds
  import opened Turn

  /** An order names a noble, or all those it does not name. */
  datatype Escort = Named(noble: NobleId) | AllOthers

  type Assignments = map<TerritoryId, seq<Escort>>

  function NamesIn(q: seq<Escort>): set<NobleId>
  {
    set e | e in q && e.Named? :: e.noble
  }

  /** The nobles named for some destinations. */
  function NamesAt(q: Assignments, s: set<TerritoryId>): set<NobleId>
  {
    set t, e | t in s && t in q && e in q[t] && e.Named? :: e.noble
  }

  ghost predicate NamedOnceIn(q: seq<Escort>)
  {
    forall i, j :: 0 <= i < j < |q| && q[i].Named? ==> q[i] != q[j]
  }

  /** Everyone named for these destinations is there, and named once. */
  ghost predicate MayGo(q: Assignments, here: set<NobleId>, s: set<TerritoryId>)
    requires s <= q.Keys
  {
    && (forall t :: t in s ==> NamesIn(q[t]) <= here && NamedOnceIn(q[t]))
    && forall t, u :: t in s && u in s && t != u ==> NamesIn(q[t]) !! NamesIn(q[u])
  }

  /** The order is valid for the nobles there. */
  ghost predicate IsValid(q: Assignments, here: set<NobleId>)
  {
    MayGo(q, here, q.Keys)
  }

  /** The last of some destinations, in order, that asks for the others. */
  ghost predicate IsForOthers(q: Assignments, s: set<TerritoryId>, t: TerritoryId)
    requires s <= q.Keys
  {
    t in s && AllOthers in q[t] && forall u: TerritoryId :: u in s && AllOthers in q[u] ==> u <= t
  }

  ghost function SentTo(q: Assignments, here: set<NobleId>, t: TerritoryId): set<NobleId>
    requires t in q
  {
    NamesIn(q[t]) + if IsForOthers(q, q.Keys, t) then here - NamesAt(q, q.Keys) else {}
  }

  /** Without the destinations nobody goes to. */
  function NonEmpty(all: map<TerritoryId, set<NobleId>>): map<TerritoryId, set<NobleId>>
  {
    map t | t in all && all[t] != {} :: all[t]
  }

  ghost function AllSent(q: Assignments, here: set<NobleId>): map<TerritoryId, set<NobleId>>
  {
    map t | t in q :: SentTo(q, here, t)
  }

  /** Who goes where. */
  ghost function Sent(q: Assignments, here: set<NobleId>): map<TerritoryId, set<NobleId>>
  {
    NonEmpty(AllSent(q, here))
  }

  /** No noble goes to two places, and nobody goes who is not there. */
  lemma SentOnce(q: Assignments, here: set<NobleId>, t: TerritoryId, u: TerritoryId)
    requires IsValid(q, here) && t in Sent(q, here) && u in Sent(q, here)
    ensures Sent(q, here)[t] <= here && (t != u ==> Sent(q, here)[t] !! Sent(q, here)[u])
  {
    if t != u {
      forall n | n in NamesIn(q[t]) ensures n in NamesAt(q, q.Keys) {
        assert Named(n) in q[t];
      }
      forall n | n in NamesIn(q[u]) ensures n in NamesAt(q, q.Keys) {
        assert Named(n) in q[u];
      }
    }
  }

  /** If some destination asks for the others, nobody is left behind unassigned. */
  lemma OthersLeaveNobody(q: Assignments, here: set<NobleId>, t: TerritoryId, n: NobleId)
    requires t in q && AllOthers in q[t] && n in here
    ensures exists u :: u in Sent(q, here) && n in Sent(q, here)[u]
  {
    if n in NamesAt(q, q.Keys) {
      var u, e :| u in q.Keys && e in q[u] && e.Named? && e.noble == n;
      assert n in SentTo(q, here, u);
      assert u in Sent(q, here);
    } else {
      var asking := set u: TerritoryId | u in q && AllOthers in q[u];
      assert t in asking;
      var last := Greatest(asking);
      assert forall u: TerritoryId :: u in q && AllOthers in q[u] ==> u in asking;
      assert IsForOthers(q, q.Keys, last);
      assert n in SentTo(q, here, last);
      assert last in Sent(q, here);
    }
  }

  lemma {:induction false} Greatest(s: set<TerritoryId>) returns (m: TerritoryId)
    requires s != {}
    ensures m in s && forall x :: x in s ==> x <= m
    decreases |s|
  {
    var first :| first in s;
    var rest := s - {first};
    assert forall x :: x in s ==> x == first || x in rest;
    if rest == {} {
      m := first;
    } else {
      var other := Greatest(rest);
      m := if other > first then other else first;
    }
  }

  // ---------- validateDisperse

  /** The names in one list, if they are there and not named before. */
  method TakeNames(q: seq<Escort>, here: set<NobleId>, before: set<NobleId>) returns (ok: bool, names: set<NobleId>, others: bool)
    ensures ok <==> NamesIn(q) <= here && NamedOnceIn(q) && NamesIn(q) !! before
    ensures ok ==> names == NamesIn(q) && (others <==> AllOthers in q)
  {
    names, others := {}, false;
    var i := 0;
    while i < |q|
      invariant i <= |q| && names == NamesIn(q[..i]) && (others <==> AllOthers in q[..i])
      invariant names <= here && NamedOnceIn(q[..i]) && names !! before
    {
      assert q[..i + 1] == q[..i] + [q[i]];
      match q[i] {
        case AllOthers => others := true;
        case Named(n) =>
          if n !in here || n in before || n in names {
            Misnamed(q, i, here, before);
            return false, names, others;
          }
          names := names + {n};
      }
      i := i + 1;
    }
    assert q[..i] == q;
    return true, names, others;
  }

  lemma Misnamed(q: seq<Escort>, i: nat, here: set<NobleId>, before: set<NobleId>)
    requires i < |q| && q[i].Named? && (q[i].noble !in here || q[i].noble in before || q[i].noble in NamesIn(q[..i]))
    ensures !(NamesIn(q) <= here && NamedOnceIn(q) && NamesIn(q) !! before)
  {
    assert q[i].noble in NamesIn(q);
    if q[i].noble in NamesIn(q[..i]) {
      var j :| 0 <= j < i && q[..i][j] == q[i];
      assert q[j] == q[i];
    }
  }

  /** The destinations seen are read: nobody misnamed so far, and the last that asks for the others is known. */
  ghost predicate Reading(q: Assignments, here: set<NobleId>, seen: set<TerritoryId>, names: set<NobleId>,
                          named: map<TerritoryId, set<NobleId>>, others: Option<TerritoryId>)
  {
    && seen <= q.Keys && names == NamesAt(q, seen) && named == (map t | t in seen :: NamesIn(q[t]))
    && MayGo(q, here, seen)
    && (others.None? <==> forall t :: t in seen ==> AllOthers !in q[t])
    && (others.Some? ==> IsForOthers(q, seen, others.value))
  }

  lemma ReadingNext(q: Assignments, here: set<NobleId>, seen: set<TerritoryId>, names: set<NobleId>,
                    named: map<TerritoryId, set<NobleId>>, others: Option<TerritoryId>, t: TerritoryId)
    requires Reading(q, here, seen, names, named, others) && t in q && t !in seen && forall u :: u in seen ==> u < t
    requires NamesIn(q[t]) <= here && NamedOnceIn(q[t]) && NamesIn(q[t]) !! names
    ensures Reading(q, here, seen + {t}, names + NamesIn(q[t]), named[t := NamesIn(q[t])], if AllOthers in q[t] then Some(t) else others)
  {
    forall u | u in seen ensures NamesIn(q[u]) <= names {
      NamesBelow(q, seen, u);
    }
    assert NamesAt(q, seen + {t}) == names + NamesIn(q[t]);
  }

  lemma NamesBelow(q: Assignments, seen: set<TerritoryId>, u: TerritoryId)
    requires u in seen && u in q
    ensures NamesIn(q[u]) <= NamesAt(q, seen)
  {
    forall n | n in NamesIn(q[u]) ensures n in NamesAt(q, seen) {
      assert Named(n) in q[u];
    }
  }

  lemma ReadingFails(q: Assignments, here: set<NobleId>, seen: set<TerritoryId>, t: TerritoryId)
    requires seen <= q.Keys && t in q && t !in seen
    requires !(NamesIn(q[t]) <= here && NamedOnceIn(q[t]) && NamesIn(q[t]) !! NamesAt(q, seen))
    ensures !IsValid(q, here)
  {
    if NamesIn(q[t]) <= here && NamedOnceIn(q[t]) {
      var n :| n in NamesIn(q[t]) && n in NamesAt(q, seen);
      var u, e :| u in seen && e in q[u] && e.Named? && e.noble == n;
      assert n in NamesIn(q[u]);
    }
  }

  /** Reads one more destination. */
  method ReadNext(q: Assignments, here: set<NobleId>, order: seq<TerritoryId>, i: nat, names: set<NobleId>,
                  named: map<TerritoryId, set<NobleId>>, others: Option<TerritoryId>)
    returns (ok: bool, names': set<NobleId>, named': map<TerritoryId, set<NobleId>>, others': Option<TerritoryId>)
    requires order == Sorted(q.Keys) && i < |order| && Reading(q, here, Visited(order, i), names, named, others)
    ensures ok ==> Reading(q, here, Visited(order, i + 1), names', named', others')
    ensures !ok ==> !IsValid(q, here)
  {
    names', named', others' := names, named, others;
    var t := order[i];
    VisitNext(order, i);
    SeenBelow(order, i);
    var more, asks;
    ok, more, asks := TakeNames(q[t], here, names);
    if !ok {
      ReadingFails(q, here, Visited(order, i), t);
      return;
    }
    ReadingNext(q, here, Visited(order, i), names, named, others, t);
    names', named' := names + more, named[t := more];
    if asks { others' := Some(t); }
  }

  /** Reads every destination in order; the nobles named nowhere go to the last one that asks for them. */
  method ValidateDisperse(q: Assignments, here: set<NobleId>) returns (sent: Option<map<TerritoryId, set<NobleId>>>)
    ensures sent.Some? <==> IsValid(q, here)
    ensures sent.Some? ==> sent.value == Sent(q, here)
  {
    var order := Sorted(q.Keys);
    VisitedAll(q.Keys);
    var names: set<NobleId> := {};
    var named: map<TerritoryId, set<NobleId>> := map[];
    var others: Option<TerritoryId> := None;
    var i := 0;
    while i < |order|
      invariant i <= |order| && Reading(q, here, Visited(order, i), names, named, others)
    {
      var ok;
      ok, names, named, others := ReadNext(q, here, order, i, names, named, others);
      if !ok { return None; }
      i := i + 1;
    }
    assert Visited(order, i) == q.Keys;
    ReadingEnds(q, here, names, named, others);
    return Some(NonEmpty(Together(here, names, named, others)));
  }

  function Together(here: set<NobleId>, names: set<NobleId>, named: map<TerritoryId, set<NobleId>>, others: Option<TerritoryId>): map<TerritoryId, set<NobleId>>
  {
    map t | t in named :: named[t] + if others == Some(t) then here - names else {}
  }

  lemma SeenBelow(order: seq<nat>, i: nat)
    requires Ascending(order) && i < |order|
    ensures forall u :: u in Visited(order, i) ==> u < order[i]
  {
    forall u | u in Visited(order, i) ensures u < order[i] {
      var j :| 0 <= j < i && order[j] == u;
      ListedBefore(order, i, j);
    }
  }

  lemma EndsAt(q: Assignments, here: set<NobleId>, names: set<NobleId>, named: map<TerritoryId, set<NobleId>>, others: Option<TerritoryId>, t: TerritoryId)
    requires Reading(q, here, q.Keys, names, named, others) && t in q
    ensures t in named && SentTo(q, here, t) == named[t] + if others == Some(t) then here - names else {}
  {
    if others.Some? && IsForOthers(q, q.Keys, t) { assert t == others.value; }
  }

  lemma ReadingEnds(q: Assignments, here: set<NobleId>, names: set<NobleId>, named: map<TerritoryId, set<NobleId>>, others: Option<TerritoryId>)
    requires Reading(q, here, q.Keys, names, named, others)
    ensures IsValid(q, here) && Together(here, names, named, others) == AllSent(q, here)
  {
    var all, sent := Together(here, names, named, others), AllSent(q, here);
    forall t | t in q ensures t in all && all[t] == sent[t] {
      EndsAt(q, here, names, named, others, t);
    }
    assert all.Keys == sent.Keys;
  }
}
