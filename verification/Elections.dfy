/**
 The winter's elections: bishoprics, then the conclave, then the throne. Each
 election files its candidacies, casts its votes and counts; the titles won are
 conferred at the investiture.
 */
module Elections {
  import opened Wrappers
  import opened Turn

  type RegionId = nat

  datatype Kind = BishopElection(region: RegionId) | PopeElection | KingElection

  datatype Bishop = Bishop(region: RegionId, noble: NobleId)

  /** `common` are the free, unmarried, unexcommunicated men, `crownable` those fit for the crown. */
  datatype Realm = Realm(
    owner: map<NobleId, PlayerId>,
    common: set<NobleId>,
    crownable: set<NobleId>,
    bishops: seq<Bishop>,
    cardinals: set<NobleId>,
    pope: Option<NobleId>,
    king: Option<NobleId>,
    excommunicated: set<NobleId>)

  /** Won at an election, conferred at the investiture. */
  datatype Title = Title(noble: NobleId, kind: Kind)

  predicate IsBishop(r: Realm, n: NobleId)
  {
    exists i :: 0 <= i < |r.bishops| && r.bishops[i].noble == n
  }

  predicate HasBishop(r: Realm, region: RegionId)
  {
    exists i :: 0 <= i < |r.bishops| && r.bishops[i].region == region
  }

  /** A title of that sort is already won this winter. */
  predicate WonBishopric(pending: seq<Title>, n: NobleId)
  {
    exists i :: 0 <= i < |pending| && pending[i].noble == n && pending[i].kind.BishopElection?
  }

  predicate WonTiara(pending: seq<Title>, n: NobleId)
  {
    exists i :: 0 <= i < |pending| && pending[i].noble == n && pending[i].kind.PopeElection?
  }

  /** The candidate rejections. */
  predicate IsEligible(r: Realm, pending: seq<Title>, kind: Kind, n: NobleId)
  {
    match kind
    case BishopElection(_) => n in r.common && !IsBishop(r, n) && !WonBishopric(pending, n)
    case PopeElection => n in r.common && (IsBishop(r, n) || n in r.cardinals) && r.king != Some(n)
    case KingElection => n in r.crownable && r.pope != Some(n) && !WonTiara(pending, n)
  }

  // ---------- one election

  /** An open election; an absolute majority is of the denominator's voices. */
  datatype Opening = Opening(kind: Kind, absolute: bool, denominator: nat, minVotes: nat, anointed: bool)

  /** One reason a player has voices; `bishop` and `high` tell the clergy's. */
  datatype VoiceSource = VoiceSource(votes: nat, bishop: bool, high: bool)

  datatype Entry = Entry(noble: NobleId, votes: nat, clergyVotes: nat, highClergy: bool)

  datatype Ballot = Candidacy(player: PlayerId, noble: NobleId) | Vote(player: PlayerId, noble: NobleId)

  const ROYAL_MIN_VOTES: nat := 3
  const ROYAL_MIN_BISHOPS: nat := 2

  predicate IsAnointed(e: Entry)
  {
    e.highClergy || e.clergyVotes >= ROYAL_MIN_BISHOPS
  }

  function VoiceOf(q: seq<VoiceSource>): nat
  {
    if q == [] then 0 else VoiceOf(q[..|q| - 1]) + q[|q| - 1].votes
  }

  function ClergyOf(q: seq<VoiceSource>): nat
  {
    if q == [] then 0 else ClergyOf(q[..|q| - 1]) + if q[|q| - 1].bishop then q[|q| - 1].votes else 0
  }

  lemma {:induction false} ClergyWithinVoice(q: seq<VoiceSource>)
    ensures ClergyOf(q) <= VoiceOf(q)
  {
    if q != [] { ClergyWithinVoice(q[..|q| - 1]); }
  }

  function CastFor(q: seq<Entry>): nat
  {
    if q == [] then 0 else CastFor(q[..|q| - 1]) + q[|q| - 1].votes
  }

  lemma {:induction false} CastChanged(q: seq<Entry>, i: nat, e: Entry)
    requires i < |q|
    ensures CastFor(q[i := e]) == CastFor(q) - q[i].votes + e.votes
  {
    var last := |q| - 1;
    if i == last {
      assert q[i := e][..last] == q[..last];
    } else {
      CastChanged(q[..last], i, e);
      assert q[i := e][..last] == q[..last][i := e];
    }
  }

  ghost predicate AreDistinct(q: seq<Entry>)
  {
    forall i, j :: 0 <= i < j < |q| ==> q[i].noble != q[j].noble
  }

  /** Changing what one candidate has leaves the candidates, and changes what is cast by as much. */
  lemma EntryChanged(q: seq<Entry>, i: nat, e: Entry)
    requires i < |q| && e.noble == q[i].noble && AreDistinct(q)
    ensures AreDistinct(q[i := e])
    ensures forall j :: 0 <= j < |q| ==> q[i := e][j] == if q[j].noble == e.noble then e else q[j]
    ensures CastFor(q[i := e]) == CastFor(q) - q[i].votes + e.votes
  {
    CastChanged(q, i, e);
    assert forall j :: 0 <= j < |q| ==> q[i := e][j].noble == q[j].noble;
  }

  function SourcesOf(sources: map<PlayerId, seq<VoiceSource>>, p: PlayerId): seq<VoiceSource>
  {
    if p in sources then sources[p] else []
  }

  predicate HasHigh(q: seq<VoiceSource>)
  {
    exists k :: 0 <= k < |q| && q[k].high
  }

  /** What some players weigh together. */
  ghost function Gathered(weight: PlayerId -> nat, voters: set<PlayerId>): nat
    decreases voters
  {
    if voters == {} then 0 else
      var p :| p in voters;
      weight(p) + Gathered(weight, voters - {p})
  }

  ghost function Voice(sources: map<PlayerId, seq<VoiceSource>>): PlayerId -> nat
  {
    (p: PlayerId) => VoiceOf(SourcesOf(sources, p))
  }

  /** The part of a player's voices given by bishops and above. */
  ghost function Clergy(sources: map<PlayerId, seq<VoiceSource>>): PlayerId -> nat
  {
    (p: PlayerId) => ClergyOf(SourcesOf(sources, p))
  }

  lemma {:induction false} OneMoreVoter(weight: PlayerId -> nat, voters: set<PlayerId>, p: PlayerId)
    requires p in voters
    ensures Gathered(weight, voters) == weight(p) + Gathered(weight, voters - {p})
    decreases voters
  {
    var q :| q in voters && Gathered(weight, voters) == weight(q) + Gathered(weight, voters - {q});
    if q != p {
      OneMoreVoter(weight, voters - {q}, p);
      OneMoreVoter(weight, voters - {p}, q);
      assert voters - {q} - {p} == voters - {p} - {q};
    }
  }

  lemma NewVoter(weight: PlayerId -> nat, voters: set<PlayerId>, p: PlayerId)
    requires p !in voters
    ensures Gathered(weight, voters + {p}) == Gathered(weight, voters) + weight(p)
  {
    OneMoreVoter(weight, voters + {p}, p);
    assert voters + {p} - {p} == voters;
  }

  lemma {:induction false} FewerVoters(weight: PlayerId -> nat, some: set<PlayerId>, all: set<PlayerId>)
    requires some <= all
    ensures Gathered(weight, some) <= Gathered(weight, all)
    decreases some
  {
    if some != {} {
      var p :| p in some;
      OneMoreVoter(weight, some, p);
      OneMoreVoter(weight, all, p);
      FewerVoters(weight, some - {p}, all - {p});
    }
  }

  // ---------- what the ballots of an election say

  /** A player files its own noble, eligible. */
  predicate Files(r: Realm, pending: seq<Title>, kind: Kind, b: Ballot)
  {
    b.Candidacy? && b.noble in r.owner && r.owner[b.noble] == b.player && IsEligible(r, pending, kind, b.noble)
  }

  ghost function Filers(r: Realm, pending: seq<Title>, kind: Kind, q: seq<Ballot>): set<PlayerId>
  {
    if q == [] then {}
    else Filers(r, pending, kind, q[..|q| - 1]) + if Files(r, pending, kind, q[|q| - 1]) then {q[|q| - 1].player} else {}
  }

  /** The nobles that stand: the first each player files. */
  ghost function Standing(r: Realm, pending: seq<Title>, kind: Kind, q: seq<Ballot>): set<NobleId>
  {
    if q == [] then {} else
      var rest, last := q[..|q| - 1], q[|q| - 1];
      Standing(r, pending, kind, rest)
      + if Files(r, pending, kind, last) && last.player !in Filers(r, pending, kind, rest) then {last.noble} else {}
  }

  /** A player with voices votes for a noble that stands. */
  predicate IsVote(sources: map<PlayerId, seq<VoiceSource>>, standing: set<NobleId>, b: Ballot)
  {
    b.Vote? && b.noble in standing && VoiceOf(SourcesOf(sources, b.player)) > 0
  }

  ghost function Voters(sources: map<PlayerId, seq<VoiceSource>>, standing: set<NobleId>, q: seq<Ballot>): set<PlayerId>
  {
    if q == [] then {}
    else Voters(sources, standing, q[..|q| - 1]) + if IsVote(sources, standing, q[|q| - 1]) then {q[|q| - 1].player} else {}
  }

  /** The players whose first vote is for n. */
  ghost function Supporters(sources: map<PlayerId, seq<VoiceSource>>, standing: set<NobleId>, q: seq<Ballot>, n: NobleId): set<PlayerId>
  {
    if q == [] then {} else
      var rest, last := q[..|q| - 1], q[|q| - 1];
      Supporters(sources, standing, rest, n)
      + if IsVote(sources, standing, last) && last.noble == n && last.player !in Voters(sources, standing, rest) then {last.player} else {}
  }

  ghost predicate IsFirstFiling(r: Realm, pending: seq<Title>, kind: Kind, q: seq<Ballot>, i: nat)
    requires i < |q|
  {
    Files(r, pending, kind, q[i]) && forall j :: 0 <= j < i && Files(r, pending, kind, q[j]) ==> q[j].player != q[i].player
  }

  ghost predicate IsFirstVote(sources: map<PlayerId, seq<VoiceSource>>, standing: set<NobleId>, q: seq<Ballot>, i: nat)
    requires i < |q|
  {
    IsVote(sources, standing, q[i]) && forall j :: 0 <= j < i && IsVote(sources, standing, q[j]) ==> q[j].player != q[i].player
  }

  lemma {:induction false} FilersFiled(r: Realm, pending: seq<Title>, kind: Kind, q: seq<Ballot>, p: PlayerId)
    ensures p in Filers(r, pending, kind, q) <==> exists i :: 0 <= i < |q| && Files(r, pending, kind, q[i]) && q[i].player == p
  {
    if q != [] {
      var rest := q[..|q| - 1];
      FilersFiled(r, pending, kind, rest, p);
      assert forall i :: 0 <= i < |rest| ==> rest[i] == q[i];
    }
  }

  /** A noble stands exactly when it is the first its player files. */
  lemma {:induction false} StandsIff(r: Realm, pending: seq<Title>, kind: Kind, q: seq<Ballot>, n: NobleId)
    ensures n in Standing(r, pending, kind, q) <==>
              exists i :: 0 <= i < |q| && IsFirstFiling(r, pending, kind, q, i) && q[i].noble == n
    ensures n in Standing(r, pending, kind, q) ==>
              n in r.owner && r.owner[n] in Filers(r, pending, kind, q) && IsEligible(r, pending, kind, n)
  {
    if q != [] {
      var rest, last := q[..|q| - 1], q[|q| - 1];
      StandsIff(r, pending, kind, rest, n);
      FilersFiled(r, pending, kind, rest, last.player);
      assert forall i :: 0 <= i < |rest| ==> rest[i] == q[i];
      forall i | 0 <= i < |rest|
        ensures IsFirstFiling(r, pending, kind, rest, i) <==> IsFirstFiling(r, pending, kind, q, i)
      {
      }
      assert IsFirstFiling(r, pending, kind, q, |rest|) <==>
             Files(r, pending, kind, last) && last.player !in Filers(r, pending, kind, rest);
    }
  }

  lemma {:induction false} VotersVoted(sources: map<PlayerId, seq<VoiceSource>>, standing: set<NobleId>, q: seq<Ballot>, p: PlayerId)
    ensures p in Voters(sources, standing, q) <==> exists i :: 0 <= i < |q| && IsVote(sources, standing, q[i]) && q[i].player == p
  {
    if q != [] {
      var rest := q[..|q| - 1];
      VotersVoted(sources, standing, rest, p);
      assert forall i :: 0 <= i < |rest| ==> rest[i] == q[i];
    }
  }

  /** A player supports exactly the candidate of its first vote. */
  lemma {:induction false} SupportsIff(sources: map<PlayerId, seq<VoiceSource>>, standing: set<NobleId>, q: seq<Ballot>, n: NobleId, p: PlayerId)
    ensures p in Supporters(sources, standing, q, n) <==>
              exists i :: 0 <= i < |q| && IsFirstVote(sources, standing, q, i) && q[i].player == p && q[i].noble == n
  {
    if q != [] {
      var rest, last := q[..|q| - 1], q[|q| - 1];
      SupportsIff(sources, standing, rest, n, p);
      VotersVoted(sources, standing, rest, last.player);
      assert forall i :: 0 <= i < |rest| ==> rest[i] == q[i];
      forall i | 0 <= i < |rest|
        ensures IsFirstVote(sources, standing, rest, i) <==> IsFirstVote(sources, standing, q, i)
      {
      }
      assert IsFirstVote(sources, standing, q, |rest|) <==>
             IsVote(sources, standing, last) && last.player !in Voters(sources, standing, rest);
    }
  }

  /** What a candidate's supporters give it: their voices, and the blessing of their clergy where it counts. */
  ghost function EntryOf(o: Opening, sources: map<PlayerId, seq<VoiceSource>>, n: NobleId, supporters: set<PlayerId>): Entry
  {
    Entry(n, Gathered(Voice(sources), supporters),
          if o.anointed then Gathered(Clergy(sources), supporters) else 0,
          o.anointed && exists p :: p in supporters && HasHigh(SourcesOf(sources, p)))
  }

  /** One more vote for the candidate. */
  function WithVote(o: Opening, e: Entry, q: seq<VoiceSource>): Entry
  {
    Entry(e.noble, e.votes + VoiceOf(q),
          if o.anointed then e.clergyVotes + ClergyOf(q) else e.clergyVotes,
          e.highClergy || (o.anointed && HasHigh(q)))
  }

  lemma NewSupporter(o: Opening, sources: map<PlayerId, seq<VoiceSource>>, n: NobleId, supporters: set<PlayerId>, p: PlayerId)
    requires p !in supporters
    ensures EntryOf(o, sources, n, supporters + {p}) == WithVote(o, EntryOf(o, sources, n, supporters), SourcesOf(sources, p))
  {
    NewVoter(Voice(sources), supporters, p);
    NewVoter(Clergy(sources), supporters, p);
  }

  // ---------- the count

  /** The count's requirement on the leading candidate. */
  predicate Suffices(o: Opening, e: Entry)
  {
    && e.votes > 0 && e.votes >= o.minVotes && (o.absolute ==> 2 * e.votes > o.denominator)
    && (o.anointed ==> IsAnointed(e))
  }

  /** The candidate at i has strictly more voices than every other, and enough of them. */
  ghost predicate Wins(o: Opening, q: seq<Entry>, i: nat)
    requires i < |q|
  {
    Suffices(o, q[i]) && forall j :: 0 <= j < |q| && j != i ==> q[j].votes < q[i].votes
  }

  class Election {
    const opening: Opening
    const sources: map<PlayerId, seq<VoiceSource>>
    var candidates: seq<Entry>
    var filed: set<PlayerId>
    var voted: set<PlayerId>

    constructor (opening: Opening, sources: map<PlayerId, seq<VoiceSource>>)
      ensures this.opening == opening && this.sources == sources && candidates == [] && filed == {} && voted == {}
    {
      this.opening, this.sources := opening, sources;
      candidates, filed, voted := [], {}, {};
    }

    /** Candidates are distinct and eligible, one a player, and every voice cast is some voter's. */
    ghost predicate Valid(r: Realm, pending: seq<Title>)
      reads this
    {
      && (forall i :: 0 <= i < |candidates| ==> Stands(r, pending, candidates[i]))
      && AreDistinct(candidates) && voted <= sources.Keys
      && CastFor(candidates) == Gathered(Voice(sources), voted)
    }

    ghost predicate Stands(r: Realm, pending: seq<Title>, e: Entry)
      reads this`filed
    {
      && e.noble in r.owner && r.owner[e.noble] in filed && IsEligible(r, pending, opening.kind, e.noble)
      && e.clergyVotes <= e.votes
    }

    /** Files a candidacy: the player's own noble, eligible, the first it files here. */
    method FileCandidacy(r: Realm, pending: seq<Title>, p: PlayerId, n: NobleId) returns (accepted: bool)
      requires Valid(r, pending)
      modifies this`candidates, this`filed
      ensures Valid(r, pending)
      ensures accepted <==> n in r.owner && r.owner[n] == p && IsEligible(r, pending, opening.kind, n) && p !in old(filed)
      ensures accepted ==> candidates == old(candidates) + [Entry(n, 0, 0, false)] && filed == old(filed) + {p}
      ensures !accepted ==> candidates == old(candidates) && filed == old(filed)
    {
      if n !in r.owner || r.owner[n] != p || !IsEligible(r, pending, opening.kind, n) || p in filed { return false; }
      ghost var before := candidates;
      filed := filed + {p};
      candidates := candidates + [Entry(n, 0, 0, false)];
      assert candidates[..|candidates| - 1] == before;
      return true;
    }

    method FindCandidate(n: NobleId) returns (i: nat)
      ensures i <= |candidates| && (i < |candidates| ==> candidates[i].noble == n)
      ensures i == |candidates| ==> forall j :: 0 <= j < |candidates| ==> candidates[j].noble != n
    {
      i := 0;
      while i < |candidates| && candidates[i].noble != n
        invariant i <= |candidates| && forall j :: 0 <= j < i ==> candidates[j].noble != n
      {
        i := i + 1;
      }
    }

    /** Casts all the voices of a player on one candidate, once. */
    method CastVote(ghost r: Realm, ghost pending: seq<Title>, p: PlayerId, n: NobleId) returns (accepted: bool)
      requires Valid(r, pending)
      modifies this`candidates, this`voted
      ensures Valid(r, pending)
      ensures accepted <==> (exists i :: 0 <= i < |old(candidates)| && old(candidates)[i].noble == n)
                            && VoiceOf(SourcesOf(sources, p)) > 0 && p !in old(voted)
      ensures !accepted ==> candidates == old(candidates) && voted == old(voted)
      ensures accepted ==> voted == old(voted) + {p} && |candidates| == |old(candidates)|
      ensures accepted ==> forall i :: 0 <= i < |candidates| ==>
                candidates[i] == if old(candidates)[i].noble == n then WithVote(opening, old(candidates)[i], SourcesOf(sources, p))
                                 else old(candidates)[i]
    {
      var i := FindCandidate(n);
      if i == |candidates| { return false; }
      var q := SourcesOf(sources, p);
      if VoiceOf(q) == 0 || p in voted { return false; }
      var e := Reinforced(candidates[i], q);
      ClergyWithinVoice(q);
      EntryChanged(candidates, i, e);
      NewVoter(Voice(sources), voted, p);
      voted := voted + {p};
      candidates := candidates[i := e];
      return true;
    }

    /** The candidate with one more player's voices. */
    method Reinforced(e: Entry, q: seq<VoiceSource>) returns (more: Entry)
      ensures more == WithVote(opening, e, q)
    {
      var clergy, high := e.clergyVotes, e.highClergy;
      if opening.anointed {
        clergy := clergy + ClergyOf(q);
        high := high || HasHigh(q);
      }
      more := Entry(e.noble, e.votes + VoiceOf(q), clergy, high);
    }

    /** The voices cast never exceed those the players have. */
    lemma CastWithinVoices(r: Realm, pending: seq<Title>)
      requires Valid(r, pending)
      ensures CastFor(candidates) <= Gathered(Voice(sources), sources.Keys)
    {
      FewerVoters(Voice(sources), voted, sources.Keys);
    }

    /** Counts: the winner, if one has the most voices alone, enough of them, and the blessing required. */
    method Conclude() returns (winner: Option<NobleId>)
      ensures winner.Some? <==> exists i :: 0 <= i < |candidates| && Wins(opening, candidates, i)
      ensures winner.Some? ==> exists i :: 0 <= i < |candidates| && Wins(opening, candidates, i) && candidates[i].noble == winner.value
    {
      var top: nat := |candidates|;
      var tied := false;
      var i := 0;
      while i < |candidates|
        invariant i <= |candidates| && (top == |candidates| <==> i == 0) && (i > 0 ==> top < i)
        invariant i > 0 ==> forall j :: 0 <= j < i ==> candidates[j].votes <= candidates[top].votes
        invariant i > 0 ==> (tied <==> exists j :: 0 <= j < i && j != top && candidates[j].votes == candidates[top].votes)
      {
        if top == |candidates| || candidates[i].votes > candidates[top].votes {
          top, tied := i, false;
        } else if candidates[i].votes == candidates[top].votes {
          tied := true;
        }
        i := i + 1;
      }
      if top == |candidates| { return None; }
      var e := candidates[top];
      var required := if opening.absolute then opening.denominator / 2 + 1 else 0;
      assert opening.absolute ==> (e.votes >= required <==> 2 * e.votes > opening.denominator);
      if tied || e.votes == 0 || e.votes < opening.minVotes || (opening.absolute && e.votes < required) || (opening.anointed && !IsAnointed(e)) {
        return None;
      }
      assert Wins(opening, candidates, top);
      return Some(e.noble);
    }
  }

  // ---------- the winter

  /** No region has two bishops, no noble two bishoprics, and the king is not the pope. */
  ghost predicate IsSound(r: Realm)
  {
    && (forall i, j :: 0 <= i < j < |r.bishops| ==>
          r.bishops[i].region != r.bishops[j].region && r.bishops[i].noble != r.bishops[j].noble)
    && (r.pope.Some? ==> r.king != r.pope)
  }

  /** The elections of a winter: vacant bishoprics, each once, then the conclave, then the throne, if vacant. */
  ghost predicate AreOpenings(r: Realm, q: seq<Opening>)
  {
    && (forall i :: 0 <= i < |q| ==>
          match q[i].kind
          case BishopElection(region) => !HasBishop(r, region)
          case PopeElection => r.pope.None?
          case KingElection => r.king.None?)
    && forall i, j :: 0 <= i < j < |q| ==> q[i].kind != q[j].kind && !q[i].kind.KingElection?
  }

  /** The bishoprics among some regions that are open to election, one opening each. */
  ghost predicate OpenBishoprics(r: Realm, seen: seq<RegionId>, fullyHeld: set<RegionId>, q: seq<Opening>)
  {
    && AreOpenings(r, q)
    && (forall k :: 0 <= k < |q| ==> q[k].kind.BishopElection? && q[k].kind.region in seen && q[k].kind.region in fullyHeld
                                      && !q[k].absolute && q[k].minVotes == 0 && !q[k].anointed)
    && forall region :: region in seen && region in fullyHeld && !HasBishop(r, region) ==> IsOpen(q, BishopElection(region))
  }

  ghost predicate IsOpen(q: seq<Opening>, kind: Kind)
  {
    exists k :: 0 <= k < |q| && q[k].kind == kind
  }

  lemma OpenMore(q: seq<Opening>, o: Opening, kind: Kind)
    ensures IsOpen(q + [o], kind) <==> IsOpen(q, kind) || o.kind == kind
  {
    var more := q + [o];
    if IsOpen(q, kind) {
      var k :| 0 <= k < |q| && q[k].kind == kind;
      assert more[k].kind == kind;
    }
    assert more[|q|] == o;
  }

  lemma NextBishopric(r: Realm, seen: seq<RegionId>, fullyHeld: set<RegionId>, q: seq<Opening>, region: RegionId)
    requires OpenBishoprics(r, seen, fullyHeld, q) && region !in seen && !HasBishop(r, region) && region in fullyHeld
    ensures OpenBishoprics(r, seen + [region], fullyHeld, q + [Opening(BishopElection(region), false, 0, 0, false)])
  {
    var o := Opening(BishopElection(region), false, 0, 0, false);
    forall x | x in seen + [region] && x in fullyHeld && !HasBishop(r, x) ensures IsOpen(q + [o], BishopElection(x)) {
      OpenMore(q, o, BishopElection(x));
    }
  }

  /** One region comes before another. */
  ghost predicate ComesBefore(regions: seq<RegionId>, x: RegionId, y: RegionId)
  {
    exists i, j :: 0 <= i < j < |regions| && regions[i] == x && regions[j] == y
  }

  /** The bishoprics come before the other elections, in the order of their regions. */
  ghost predicate InOrderOf(regions: seq<RegionId>, q: seq<Opening>)
  {
    forall k, l :: 0 <= k < l < |q| && q[l].kind.BishopElection? ==>
      q[k].kind.BishopElection? && ComesBefore(regions, q[k].kind.region, q[l].kind.region)
  }

  lemma StillBefore(regions: seq<RegionId>, region: RegionId, x: RegionId, y: RegionId)
    ensures ComesBefore(regions, x, y) ==> ComesBefore(regions + [region], x, y)
    ensures x in regions ==> ComesBefore(regions + [region], x, region)
  {
    var more := regions + [region];
    if i, j :| 0 <= i < j < |regions| && regions[i] == x && regions[j] == y { assert more[i] == x && more[j] == y; }
    if i :| 0 <= i < |regions| && regions[i] == x { assert more[i] == x && more[|regions|] == region; }
  }

  lemma NextInOrder(regions: seq<RegionId>, region: RegionId, q: seq<Opening>, o: Opening)
    requires InOrderOf(regions, q) && o.kind == BishopElection(region)
    requires forall k :: 0 <= k < |q| ==> q[k].kind.BishopElection? && q[k].kind.region in regions
    ensures InOrderOf(regions + [region], q + [o])
  {
    var more := q + [o];
    forall k, l | 0 <= k < l < |more| && more[l].kind.BishopElection?
      ensures more[k].kind.BishopElection? && ComesBefore(regions + [region], more[k].kind.region, more[l].kind.region)
    {
      assert more[k] == q[k];
      StillBefore(regions, region, q[k].kind.region, more[l].kind.region);
    }
  }

  lemma OthersInOrder(regions: seq<RegionId>, q: seq<Opening>, o: Opening)
    requires InOrderOf(regions, q) && !o.kind.BishopElection?
    ensures InOrderOf(regions, q + [o])
  {
  }

  lemma SkippedInOrder(regions: seq<RegionId>, region: RegionId, q: seq<Opening>)
    requires InOrderOf(regions, q)
    ensures InOrderOf(regions + [region], q)
  {
    forall k, l | 0 <= k < l < |q| && q[l].kind.BishopElection?
      ensures q[k].kind.BishopElection? && ComesBefore(regions + [region], q[k].kind.region, q[l].kind.region)
    {
      StillBefore(regions, region, q[k].kind.region, q[l].kind.region);
    }
  }

  method OpenBishopElections(r: Realm, regions: seq<RegionId>, fullyHeld: set<RegionId>) returns (q: seq<Opening>)
    requires forall i, j :: 0 <= i < j < |regions| ==> regions[i] != regions[j]
    ensures OpenBishoprics(r, regions, fullyHeld, q) && InOrderOf(regions, q)
  {
    q := [];
    var i := 0;
    while i < |regions|
      invariant i <= |regions| && OpenBishoprics(r, regions[..i], fullyHeld, q) && InOrderOf(regions[..i], q)
    {
      assert regions[..i + 1] == regions[..i] + [regions[i]];
      if !HasBishop(r, regions[i]) && regions[i] in fullyHeld {
        NextBishopric(r, regions[..i], fullyHeld, q, regions[i]);
        NextInOrder(regions[..i], regions[i], q, Opening(BishopElection(regions[i]), false, 0, 0, false));
        q := q + [Opening(BishopElection(regions[i]), false, 0, 0, false)];
      } else {
        SkippedInOrder(regions[..i], regions[i], q);
      }
      i := i + 1;
    }
    assert regions[..i] == regions;
  }

  /** Whether the conclave and the royal election open. */
  predicate ConclaveOpens(r: Realm)
  {
    r.pope.None? && |r.cardinals| >= 2
  }

  predicate ThroneOpens(r: Realm, titleVoices: nat, bishopVoices: nat, cardinalVoice: bool)
  {
    r.king.None? && titleVoices >= ROYAL_MIN_VOTES && (bishopVoices >= ROYAL_MIN_BISHOPS || cardinalVoice)
  }

  /** Opens the elections of a winter: bishoprics fully held and without bishop, the conclave, the throne. */
  method OpenWinterElections(r: Realm, regions: seq<RegionId>, fullyHeld: set<RegionId>, titleVoices: nat, bishopVoices: nat, cardinalVoice: bool)
    returns (q: seq<Opening>)
    requires forall i, j :: 0 <= i < j < |regions| ==> regions[i] != regions[j]
    ensures AreOpenings(r, q) && InOrderOf(regions, q)
    ensures forall region :: IsOpen(q, BishopElection(region)) <==> region in regions && region in fullyHeld && !HasBishop(r, region)
    ensures IsOpen(q, PopeElection) <==> ConclaveOpens(r)
    ensures IsOpen(q, KingElection) <==> ThroneOpens(r, titleVoices, bishopVoices, cardinalVoice)
    ensures forall k :: 0 <= k < |q| ==>
              match q[k].kind
              case BishopElection(_) => !q[k].absolute && q[k].minVotes == 0 && !q[k].anointed
              case PopeElection => q[k].absolute && q[k].denominator == |r.cardinals| && !q[k].anointed
              case KingElection => !q[k].absolute && q[k].minVotes == ROYAL_MIN_VOTES && q[k].anointed
  {
    var bishoprics := OpenBishopElections(r, regions, fullyHeld);
    q := bishoprics;
    var conclave := Opening(PopeElection, true, |r.cardinals|, 0, false);
    var throne := Opening(KingElection, false, 0, ROYAL_MIN_VOTES, true);
    if ConclaveOpens(r) {
      forall kind { OpenMore(q, conclave, kind); }
      OthersInOrder(regions, q, conclave);
      q := q + [conclave];
    }
    if ThroneOpens(r, titleVoices, bishopVoices, cardinalVoice) {
      forall kind { OpenMore(q, throne, kind); }
      OthersInOrder(regions, q, throne);
      q := q + [throne];
    }
  }

  /** What the titles won so far respect. */
  ghost predicate AreWon(r: Realm, q: seq<Opening>, k: nat, pending: seq<Title>)
  {
    && k <= |q|
    && (forall i :: 0 <= i < |pending| ==> WonAt(r, q, k, pending[i]))
    && forall i, j :: 0 <= i < j < |pending| ==> Compatible(pending[i], pending[j])
  }

  /** A title of one of the first k elections, whose winner may hold it in this realm. */
  ghost predicate WonAt(r: Realm, q: seq<Opening>, k: nat, t: Title)
    requires k <= |q|
  {
    && (exists i :: 0 <= i < k && q[i].kind == t.kind)
    && match t.kind
       case BishopElection(region) => !IsBishop(r, t.noble) && !HasBishop(r, region)
       case PopeElection => r.king != Some(t.noble)
       case KingElection => r.pope != Some(t.noble)
  }

  /** Two titles of different elections that one noble never wins both of. */
  ghost predicate Compatible(s: Title, t: Title)
  {
    && s.kind != t.kind
    && (s.noble == t.noble ==> !(s.kind.BishopElection? && t.kind.BishopElection?))
    && (s.noble == t.noble ==> !(s.kind.PopeElection? && t.kind.KingElection?) && !(s.kind.KingElection? && t.kind.PopeElection?))
  }

  lemma WinnerCompatible(r: Realm, q: seq<Opening>, k: nat, pending: seq<Title>, n: NobleId)
    requires AreOpenings(r, q) && AreWon(r, q, k, pending) && k < |q| && IsEligible(r, pending, q[k].kind, n)
    ensures AreWon(r, q, k + 1, pending + [Title(n, q[k].kind)])
  {
    var more := pending + [Title(n, q[k].kind)];
    var t := Title(n, q[k].kind);
    assert WonAt(r, q, k + 1, t);
    forall i | 0 <= i < |pending| ensures WonAt(r, q, k + 1, pending[i]) && Compatible(pending[i], t) {
      assert WonAt(r, q, k, pending[i]);
      var j :| 0 <= j < k && q[j].kind == pending[i].kind;
      assert q[j].kind != q[k].kind && !q[j].kind.KingElection?;
    }
    forall i, j | 0 <= i < j < |more| ensures Compatible(more[i], more[j]) {
      if j < |pending| { assert Compatible(pending[i], pending[j]); }
    }
  }

  lemma NoWinner(r: Realm, q: seq<Opening>, k: nat, pending: seq<Title>)
    requires AreWon(r, q, k, pending) && k < |q|
    ensures AreWon(r, q, k + 1, pending)
  {
    forall i | 0 <= i < |pending| ensures WonAt(r, q, k + 1, pending[i]) {
      assert WonAt(r, q, k, pending[i]);
    }
  }

  /** The candidates are the nobles that stand, each with what the votes counted so far give it. */
  ghost predicate Tallied(o: Opening, sources: map<PlayerId, seq<VoiceSource>>, standing: set<NobleId>, votes: seq<Ballot>, candidates: seq<Entry>)
  {
    && (forall n: NobleId :: n in standing <==> exists k :: 0 <= k < |candidates| && candidates[k].noble == n)
    && forall k :: 0 <= k < |candidates| ==>
         candidates[k] == EntryOf(o, sources, candidates[k].noble, Supporters(sources, standing, votes, candidates[k].noble))
  }

  /** The noble stands and outvotes every other that does, with what the election requires. */
  ghost predicate IsElected(o: Opening, sources: map<PlayerId, seq<VoiceSource>>, standing: set<NobleId>, votes: seq<Ballot>, n: NobleId)
  {
    && n in standing && Suffices(o, EntryOf(o, sources, n, Supporters(sources, standing, votes, n)))
    && forall m :: m in standing && m != n ==>
         Gathered(Voice(sources), Supporters(sources, standing, votes, m)) < Gathered(Voice(sources), Supporters(sources, standing, votes, n))
  }

  lemma ElectedIff(o: Opening, sources: map<PlayerId, seq<VoiceSource>>, standing: set<NobleId>, votes: seq<Ballot>, candidates: seq<Entry>, n: NobleId)
    requires Tallied(o, sources, standing, votes, candidates)
    requires AreDistinct(candidates)
    ensures IsElected(o, sources, standing, votes, n) <==>
              exists i :: 0 <= i < |candidates| && Wins(o, candidates, i) && candidates[i].noble == n
  {
    if IsElected(o, sources, standing, votes, n) {
      var k :| 0 <= k < |candidates| && candidates[k].noble == n;
      assert Wins(o, candidates, k);
    }
    if i :| 0 <= i < |candidates| && Wins(o, candidates, i) && candidates[i].noble == n {
      forall m | m in standing && m != n
        ensures Gathered(Voice(sources), Supporters(sources, standing, votes, m)) < Gathered(Voice(sources), Supporters(sources, standing, votes, n))
      {
        var j :| 0 <= j < |candidates| && candidates[j].noble == m;
      }
    }
  }

  /** The candidacies of q are taken, no vote yet. */
  ghost predicate Filing(r: Realm, pending: seq<Title>, election: Election, q: seq<Ballot>)
    reads election
  {
    && election.Valid(r, pending) && election.voted == {} && election.filed == Filers(r, pending, election.opening.kind, q)
    && Tallied(election.opening, election.sources, Standing(r, pending, election.opening.kind, q), [], election.candidates)
  }

  /** The votes of q are taken. */
  ghost predicate Counting(r: Realm, pending: seq<Title>, election: Election, standing: set<NobleId>, q: seq<Ballot>)
    reads election
  {
    && election.Valid(r, pending) && election.voted == Voters(election.sources, standing, q)
    && Tallied(election.opening, election.sources, standing, q, election.candidates)
  }

  method TakeCandidacy(r: Realm, pending: seq<Title>, election: Election, ballots: seq<Ballot>, i: nat)
    requires i < |ballots| && Filing(r, pending, election, ballots[..i])
    modifies election
    ensures Filing(r, pending, election, ballots[..i + 1])
  {
    assert ballots[..i + 1][..i] == ballots[..i];
    ghost var before := election.candidates;
    if ballots[i].Candidacy? {
      var accepted := election.FileCandidacy(r, pending, ballots[i].player, ballots[i].noble);
      if accepted {
        CandidacyTallied(election.opening, election.sources, Standing(r, pending, election.opening.kind, ballots[..i]), before, ballots[i].noble);
      }
    }
  }

  /** The candidacies of an election, in the order given. */
  method TakeCandidacies(r: Realm, pending: seq<Title>, election: Election, ballots: seq<Ballot>)
    requires Filing(r, pending, election, [])
    modifies election
    ensures Filing(r, pending, election, ballots)
  {
    var i := 0;
    assert ballots[..0] == [];
    while i < |ballots|
      invariant i <= |ballots| && Filing(r, pending, election, ballots[..i])
    {
      TakeCandidacy(r, pending, election, ballots, i);
      i := i + 1;
    }
    assert ballots[..i] == ballots;
  }

  lemma CandidacyTallied(o: Opening, sources: map<PlayerId, seq<VoiceSource>>, standing: set<NobleId>, before: seq<Entry>, n: NobleId)
    requires Tallied(o, sources, standing, [], before)
    ensures Tallied(o, sources, standing + {n}, [], before + [Entry(n, 0, 0, false)])
  {
    var after := before + [Entry(n, 0, 0, false)];
    assert after[|before|].noble == n;
    forall m | m in standing ensures exists k :: 0 <= k < |after| && after[k].noble == m {
      var k :| 0 <= k < |before| && before[k].noble == m;
      assert after[k].noble == m;
    }
  }

  method TakeVote(ghost r: Realm, ghost pending: seq<Title>, election: Election, ballots: seq<Ballot>, i: nat, ghost standing: set<NobleId>)
    requires i < |ballots| && Counting(r, pending, election, standing, ballots[..i])
    modifies election`candidates, election`voted
    ensures Counting(r, pending, election, standing, ballots[..i + 1])
  {
    assert ballots[..i + 1][..i] == ballots[..i];
    ghost var before := election.candidates;
    if ballots[i].Vote? {
      var accepted := election.CastVote(r, pending, ballots[i].player, ballots[i].noble);
      VoteTallied(election.opening, election.sources, standing, ballots, i, before, election.candidates, accepted);
    } else {
      SameSupporters(election.sources, standing, ballots, i);
    }
  }

  /** The votes of an election, in the order given. */
  method TakeVotes(ghost r: Realm, ghost pending: seq<Title>, election: Election, ballots: seq<Ballot>, ghost standing: set<NobleId>)
    requires Counting(r, pending, election, standing, [])
    modifies election`candidates, election`voted
    ensures Counting(r, pending, election, standing, ballots)
  {
    var i := 0;
    assert ballots[..0] == [];
    while i < |ballots|
      invariant i <= |ballots| && Counting(r, pending, election, standing, ballots[..i])
    {
      TakeVote(r, pending, election, ballots, i, standing);
      i := i + 1;
    }
    assert ballots[..i] == ballots;
  }

  lemma SameSupporters(sources: map<PlayerId, seq<VoiceSource>>, standing: set<NobleId>, q: seq<Ballot>, i: nat)
    requires i < |q| && (!IsVote(sources, standing, q[i]) || q[i].player in Voters(sources, standing, q[..i]))
    ensures forall n: NobleId :: Supporters(sources, standing, q[..i + 1], n) == Supporters(sources, standing, q[..i], n)
    ensures Voters(sources, standing, q[..i + 1]) == Voters(sources, standing, q[..i])
  {
    assert q[..i + 1][..i] == q[..i];
  }

  /** An accepted vote adds its player to the supporters of the noble it names. */
  lemma SupportersNext(o: Opening, sources: map<PlayerId, seq<VoiceSource>>, standing: set<NobleId>, q: seq<Ballot>, i: nat, n: NobleId)
    requires i < |q| && IsVote(sources, standing, q[i]) && q[i].player !in Voters(sources, standing, q[..i])
    ensures var supporters, p := Supporters(sources, standing, q[..i], n), q[i].player;
            EntryOf(o, sources, n, Supporters(sources, standing, q[..i + 1], n))
            == if q[i].noble == n then WithVote(o, EntryOf(o, sources, n, supporters), SourcesOf(sources, p))
               else EntryOf(o, sources, n, supporters)
  {
    var supporters := Supporters(sources, standing, q[..i], n);
    assert q[..i + 1][..i] == q[..i];
    SupportersVoted(sources, standing, q[..i], n);
    if q[i].noble == n {
      NewSupporter(o, sources, n, supporters, q[i].player);
    } else {
      assert Supporters(sources, standing, q[..i + 1], n) == supporters;
    }
  }

  lemma VoteTallied(o: Opening, sources: map<PlayerId, seq<VoiceSource>>, standing: set<NobleId>, q: seq<Ballot>, i: nat,
                    before: seq<Entry>, after: seq<Entry>, accepted: bool)
    requires i < |q| && q[i].Vote? && Tallied(o, sources, standing, q[..i], before) && |after| == |before|
    requires accepted <==> IsVote(sources, standing, q[i]) && q[i].player !in Voters(sources, standing, q[..i])
    requires !accepted ==> after == before
    requires accepted ==> forall k :: 0 <= k < |after| ==>
               after[k] == if before[k].noble == q[i].noble then WithVote(o, before[k], SourcesOf(sources, q[i].player)) else before[k]
    ensures Tallied(o, sources, standing, q[..i + 1], after)
  {
    assert q[..i + 1][..i] == q[..i];
    if !accepted {
      SameSupporters(sources, standing, q, i);
    } else {
      forall k | 0 <= k < |after|
        ensures after[k] == EntryOf(o, sources, after[k].noble, Supporters(sources, standing, q[..i + 1], after[k].noble))
      {
        SupportersNext(o, sources, standing, q, i, before[k].noble);
      }
      assert forall k :: 0 <= k < |after| ==> after[k].noble == before[k].noble;
    }
  }

  lemma {:induction false} SupportersVoted(sources: map<PlayerId, seq<VoiceSource>>, standing: set<NobleId>, q: seq<Ballot>, n: NobleId)
    ensures Supporters(sources, standing, q, n) <= Voters(sources, standing, q)
  {
    if q != [] {
      SupportersVoted(sources, standing, q[..|q| - 1], n);
    }
  }

  /**
   One election from its candidacies to its count. The nobles that stand are the
   first each player files; each voter counts once, for the candidate of its first
   vote; and the winner is the one noble the ballots elect.
   */
  method HoldElection(r: Realm, pending: seq<Title>, o: Opening, sources: map<PlayerId, seq<VoiceSource>>, ballots: seq<Ballot>)
    returns (winner: Option<NobleId>, election: Election)
    ensures fresh(election) && election.opening == o && election.sources == sources && election.Valid(r, pending)
    ensures election.voted == Voters(sources, Standing(r, pending, o.kind, ballots), ballots)
    ensures forall n: NobleId :: winner == Some(n) <==> IsElected(o, sources, Standing(r, pending, o.kind, ballots), ballots, n)
  {
    election := new Election(o, sources);
    TakeCandidacies(r, pending, election, ballots);
    ghost var standing := Standing(r, pending, o.kind, ballots);
    TakeVotes(r, pending, election, ballots, standing);
    winner := election.Conclude();
    forall n: NobleId ensures winner == Some(n) <==> IsElected(o, sources, standing, ballots, n) {
      ElectedIff(o, sources, standing, ballots, election.candidates, n);
    }
  }

  /** The noble the ballots elect, if they elect one: two nobles never outvote each other. */
  ghost function ElectedBy(r: Realm, pending: seq<Title>, o: Opening, sources: map<PlayerId, seq<VoiceSource>>, ballots: seq<Ballot>): (w: Option<NobleId>)
    ensures forall n: NobleId :: w == Some(n) <==> IsElected(o, sources, Standing(r, pending, o.kind, ballots), ballots, n)
  {
    var standing := Standing(r, pending, o.kind, ballots);
    if exists n: NobleId :: IsElected(o, sources, standing, ballots, n)
    then var n: NobleId :| IsElected(o, sources, standing, ballots, n); Some(n)
    else None
  }

  /** The titles won at the first k elections, each counted with those won before. */
  ghost function TitlesWon(r: Realm, q: seq<Opening>, sources: seq<map<PlayerId, seq<VoiceSource>>>, ballots: seq<seq<Ballot>>, k: nat): seq<Title>
    requires k <= |q| == |sources| == |ballots|
  {
    if k == 0 then [] else
      var before := TitlesWon(r, q, sources, ballots, k - 1);
      match ElectedBy(r, before, q[k - 1], sources[k - 1], ballots[k - 1])
      case None => before
      case Some(n) => before + [Title(n, q[k - 1].kind)]
  }

  /** The orders and the voices of every election, by its place in the list. */
  method ResolveWinterElections(r: Realm, q: seq<Opening>, sources: seq<map<PlayerId, seq<VoiceSource>>>, ballots: seq<seq<Ballot>>)
    returns (pending: seq<Title>)
    requires AreOpenings(r, q) && |sources| == |q| == |ballots|
    ensures pending == TitlesWon(r, q, sources, ballots, |q|)
    ensures AreWon(r, q, |q|, pending)
  {
    pending := [];
    var k := 0;
    while k < |q|
      invariant k <= |q| && pending == TitlesWon(r, q, sources, ballots, k)
      invariant AreWon(r, q, k, pending)
    {
      var winner, election := HoldElection(r, pending, q[k], sources[k], ballots[k]);
      assert winner == ElectedBy(r, pending, q[k], sources[k], ballots[k]) by {
        assert winner.Some? ==> winner == Some(winner.value);
        assert ElectedBy(r, pending, q[k], sources[k], ballots[k]).Some? ==>
               ElectedBy(r, pending, q[k], sources[k], ballots[k]) == Some(ElectedBy(r, pending, q[k], sources[k], ballots[k]).value);
      }
      if winner.Some? {
        StandsIff(r, pending, q[k].kind, ballots[k], winner.value);
        WinnerCompatible(r, q, k, pending, winner.value);
        pending := pending + [Title(winner.value, q[k].kind)];
      } else {
        NoWinner(r, q, k, pending);
      }
      k := k + 1;
    }
  }

  // ---------- the investiture

  /** Between the count and the investiture titles are only lost: by death, or excommunication. */
  ghost predicate OnlyLost(before: Realm, after: Realm)
  {
    && IsSound(after)
    && (forall b :: b in after.bishops ==> b in before.bishops)
    && (after.pope.Some? ==> after.pope == before.pope) && (after.king.Some? ==> after.king == before.king)
  }

  /** Confers one title; who left play or was excommunicated gets nothing. */
  function Invested(r: Realm, t: Title): Realm
  {
    if t.noble !in r.owner || t.noble in r.excommunicated then r
    else
      match t.kind
      case BishopElection(region) => r.(bishops := r.bishops + [Bishop(region, t.noble)])
      case PopeElection => r.(pope := Some(t.noble))
      case KingElection => if r.king.Some? then r else r.(king := Some(t.noble))
  }

  /** The realm after some titles: each office is held as before, or by one of them. */
  ghost predicate Conferred(before: Realm, pending: seq<Title>, k: nat, r: Realm)
  {
    && k <= |pending| && IsSound(r)
    && (forall b :: b in r.bishops ==> b in before.bishops || exists i :: 0 <= i < k && pending[i] == Title(b.noble, BishopElection(b.region)))
    && (r.pope.Some? ==> r.pope == before.pope || exists i :: 0 <= i < k && pending[i] == Title(r.pope.value, PopeElection))
    && (r.king.Some? ==> r.king == before.king || exists i :: 0 <= i < k && pending[i] == Title(r.king.value, KingElection))
  }

  lemma NewBishop(before: Realm, q: seq<Opening>, pending: seq<Title>, k: nat, r: Realm, region: RegionId)
    requires AreWon(before, q, |q|, pending) && Conferred(before, pending, k, r) && k < |pending| && pending[k].kind == BishopElection(region)
    ensures Conferred(before, pending, k + 1, r.(bishops := r.bishops + [Bishop(region, pending[k].noble)]))
  {
    var b := Bishop(region, pending[k].noble);
    var more := r.(bishops := r.bishops + [b]);
    assert WonAt(before, q, |q|, pending[k]);
    forall i | 0 <= i < |r.bishops| ensures r.bishops[i].region != b.region && r.bishops[i].noble != b.noble {
      var held := r.bishops[i];
      assert held in r.bishops;
      if held in before.bishops {
        var j :| 0 <= j < |before.bishops| && before.bishops[j] == held;
      } else {
        var j :| 0 <= j < k && pending[j] == Title(held.noble, BishopElection(held.region));
        assert Compatible(pending[j], pending[k]);
      }
    }
    forall x | x in more.bishops
      ensures x in before.bishops || exists i :: 0 <= i < k + 1 && pending[i] == Title(x.noble, BishopElection(x.region))
    {
      if x in r.bishops {
        if i :| 0 <= i < k && pending[i] == Title(x.noble, BishopElection(x.region)) { assert i < k + 1; }
      } else {
        assert x == b && pending[k] == Title(x.noble, BishopElection(x.region));
      }
    }
  }

  lemma NewPope(before: Realm, q: seq<Opening>, pending: seq<Title>, k: nat, r: Realm)
    requires AreWon(before, q, |q|, pending) && Conferred(before, pending, k, r) && k < |pending| && pending[k].kind.PopeElection?
    ensures r.king != Some(pending[k].noble)
  {
    assert WonAt(before, q, |q|, pending[k]);
    if r.king.Some? && r.king != before.king {
      var i :| 0 <= i < k && pending[i] == Title(r.king.value, KingElection);
      assert Compatible(pending[i], pending[k]);
    }
  }

  lemma NewKing(before: Realm, q: seq<Opening>, pending: seq<Title>, k: nat, r: Realm)
    requires AreWon(before, q, |q|, pending) && Conferred(before, pending, k, r) && k < |pending| && pending[k].kind.KingElection?
    ensures r.pope != Some(pending[k].noble)
  {
    assert WonAt(before, q, |q|, pending[k]);
    if r.pope.Some? && r.pope != before.pope {
      var i :| 0 <= i < k && pending[i] == Title(r.pope.value, PopeElection);
      assert Compatible(pending[i], pending[k]);
    }
  }

  lemma InvestedSound(before: Realm, q: seq<Opening>, pending: seq<Title>, k: nat, r: Realm)
    requires AreWon(before, q, |q|, pending) && Conferred(before, pending, k, r) && k < |pending|
    ensures Conferred(before, pending, k + 1, Invested(r, pending[k]))
  {
    var t := pending[k];
    match t.kind
    case BishopElection(region) => NewBishop(before, q, pending, k, r, region);
    case PopeElection => NewPope(before, q, pending, k, r); assert t == Title(t.noble, PopeElection);
    case KingElection => NewKing(before, q, pending, k, r); assert t == Title(t.noble, KingElection);
  }

  /** Whoever won the title may still get it. */
  predicate IsLive(r: Realm, t: Title)
  {
    t.noble in r.owner && t.noble !in r.excommunicated
  }

  /** The realm with the first k titles conferred: every live one is held, and nothing else changed. */
  ghost predicate Holding(now: Realm, pending: seq<Title>, k: nat, r: Realm)
  {
    && k <= |pending| && r == now.(bishops := r.bishops, pope := r.pope, king := r.king)
    && (forall b :: b in r.bishops <==> b in now.bishops || ConferredBy(now, pending, k, b.noble, BishopElection(b.region)))
    && (forall n: NobleId :: ConferredBy(now, pending, k, n, PopeElection) ==> r.pope == Some(n))
    && ((forall n: NobleId :: !ConferredBy(now, pending, k, n, PopeElection)) ==> r.pope == now.pope)
    && (forall n: NobleId :: ConferredBy(now, pending, k, n, KingElection) ==> r.king == if now.king.Some? then now.king else Some(n))
    && ((forall n: NobleId :: !ConferredBy(now, pending, k, n, KingElection)) ==> r.king == now.king)
  }

  ghost predicate ConferredBy(now: Realm, pending: seq<Title>, k: nat, n: NobleId, kind: Kind)
    requires k <= |pending|
  {
    exists i :: 0 <= i < k && pending[i] == Title(n, kind) && IsLive(now, pending[i])
  }

  lemma ConferredNext(now: Realm, pending: seq<Title>, k: nat, n: NobleId, kind: Kind)
    requires k < |pending|
    ensures ConferredBy(now, pending, k + 1, n, kind)
       <==> ConferredBy(now, pending, k, n, kind) || (pending[k] == Title(n, kind) && IsLive(now, pending[k]))
  {
  }

  lemma HoldingNext(now: Realm, q: seq<Opening>, before: Realm, pending: seq<Title>, k: nat, r: Realm)
    requires AreWon(before, q, |q|, pending) && Holding(now, pending, k, r) && k < |pending|
    ensures Holding(now, pending, k + 1, Invested(r, pending[k]))
  {
    var t := pending[k];
    forall n: NobleId, kind: Kind
      ensures ConferredBy(now, pending, k + 1, n, kind)
         <==> ConferredBy(now, pending, k, n, kind) || (t == Title(n, kind) && IsLive(now, t))
      ensures ConferredBy(now, pending, k, n, kind) ==> kind != t.kind
    {
      ConferredNext(now, pending, k, n, kind);
      assert forall i :: 0 <= i < k ==> Compatible(pending[i], pending[k]);
    }
  }

  /**
   Confers the titles won by nobles still in play and not excommunicated, the crown
   only if no king is left. Two bishoprics for one noble, two bishops in one region
   or a crowned pope never come of it.
   */
  method InvestWinterTitles(before: Realm, now: Realm, q: seq<Opening>, pending: seq<Title>) returns (r: Realm)
    requires AreWon(before, q, |q|, pending) && OnlyLost(before, now)
    ensures IsSound(r) && Conferred(before, pending, |pending|, r) && Holding(now, pending, |pending|, r)
  {
    r := now;
    var k := 0;
    while k < |pending|
      invariant Conferred(before, pending, k, r) && Holding(now, pending, k, r)
    {
      InvestedSound(before, q, pending, k, r);
      HoldingNext(now, q, before, pending, k, r);
      r := Invested(r, pending[k]);
      k := k + 1;
    }
  }
}
