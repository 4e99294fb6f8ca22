/**
 Who is elected, read off the realm and the ballots alone: who may stand, who backs
 whom with how many voices, and what each election asks of its winner.
 */
module ElectionRead {
  import opened Wrappers
  import opened SortedIds
  import opened Turn
  import L = Ledger
  import opened Elections

  type Voices = map<PlayerId, seq<VoiceSource>>

  ghost predicate BearsMitre(r: Realm, n: NobleId)
  {
    exists b :: b in r.bishops && b.noble == n
  }

  ghost predicate WonAlready(pending: seq<Title>, n: NobleId, tiara: bool)
  {
    exists t :: t in pending && t.noble == n && if tiara then t.kind.PopeElection? else t.kind.BishopElection?
  }

  /** Bishops come from free men without a see, popes from bishops and cardinals, kings from those fit for the crown. */
  ghost predicate MayStand(r: Realm, pending: seq<Title>, kind: Kind, n: NobleId)
  {
    || (kind.BishopElection? && n in r.common && !BearsMitre(r, n) && !WonAlready(pending, n, false))
    || (kind.PopeElection? && n in r.common && (BearsMitre(r, n) || n in r.cardinals) && r.king != Some(n))
    || (kind.KingElection? && n in r.crownable && r.pope != Some(n) && !WonAlready(pending, n, true))
  }

  lemma EligibleIs(r: Realm, pending: seq<Title>, kind: Kind, n: NobleId)
    ensures IsEligible(r, pending, kind, n) <==> MayStand(r, pending, kind, n)
  {
    if BearsMitre(r, n) {
      var b :| b in r.bishops && b.noble == n;
      var i :| 0 <= i < |r.bishops| && r.bishops[i] == b;
    }
    if i :| 0 <= i < |r.bishops| && r.bishops[i].noble == n { assert r.bishops[i] in r.bishops; }
    forall tiara ensures WonAlready(pending, n, tiara) <==> if tiara then WonTiara(pending, n) else WonBishopric(pending, n) {
      WonIs(pending, n, tiara);
    }
  }

  lemma WonIs(pending: seq<Title>, n: NobleId, tiara: bool)
    ensures WonAlready(pending, n, tiara) <==> if tiara then WonTiara(pending, n) else WonBishopric(pending, n)
  {
    if WonAlready(pending, n, tiara) {
      var t :| t in pending && t.noble == n && if tiara then t.kind.PopeElection? else t.kind.BishopElection?;
      var i :| 0 <= i < |pending| && pending[i] == t;
    }
    if tiara && WonTiara(pending, n) {
      var i :| 0 <= i < |pending| && pending[i].noble == n && pending[i].kind.PopeElection?;
      assert pending[i] in pending;
    }
    if !tiara && WonBishopric(pending, n) {
      var i :| 0 <= i < |pending| && pending[i].noble == n && pending[i].kind.BishopElection?;
      assert pending[i] in pending;
    }
  }

  /** The ballot files a noble of its player who may stand. */
  ghost predicate Filed(r: Realm, pending: seq<Title>, kind: Kind, b: Ballot)
  {
    b.Candidacy? && b.noble in r.owner && r.owner[b.noble] == b.player && MayStand(r, pending, kind, b.noble)
  }

  /** The noble is the first its player files. */
  ghost predicate IsCandidate(r: Realm, pending: seq<Title>, kind: Kind, q: seq<Ballot>, n: NobleId)
  {
    exists i :: 0 <= i < |q| && Filed(r, pending, kind, q[i]) && q[i].noble == n
                && forall j :: 0 <= j < i ==> !(Filed(r, pending, kind, q[j]) && q[j].player == q[i].player)
  }

  lemma CandidateIs(r: Realm, pending: seq<Title>, kind: Kind, q: seq<Ballot>, n: NobleId)
    ensures n in Standing(r, pending, kind, q) <==> IsCandidate(r, pending, kind, q, n)
  {
    StandsIff(r, pending, kind, q, n);
    forall i | 0 <= i < |q| ensures Files(r, pending, kind, q[i]) <==> Filed(r, pending, kind, q[i]) {
      if q[i].Candidacy? { EligibleIs(r, pending, kind, q[i].noble); }
    }
    if i :| 0 <= i < |q| && Filed(r, pending, kind, q[i]) && q[i].noble == n
            && forall j :: 0 <= j < i ==> !(Filed(r, pending, kind, q[j]) && q[j].player == q[i].player) {
      assert IsFirstFiling(r, pending, kind, q, i);
    }
  }

  // ---------- voices

  ghost function Sources(sources: Voices, p: PlayerId): seq<VoiceSource>
  {
    if p in sources then sources[p] else []
  }

  ghost function Votes(q: seq<VoiceSource>): nat -> int
  {
    (k: nat) => if k < |q| then q[k].votes else 0
  }

  /** All a player's voices. */
  ghost function VoicesOf(q: seq<VoiceSource>): int
  {
    L.Sum((set k: nat | k < |q| && q[k].votes > 0), Votes(q))
  }

  /** Those its bishops give. */
  ghost function BishopVoicesOf(q: seq<VoiceSource>): int
  {
    L.Sum((set k: nat | k < |q| && q[k].bishop), Votes(q))
  }

  lemma SumWith(s: set<nat>, k: nat, w: nat -> int, u: nat -> int)
    requires k !in s && forall j :: j in s ==> w(j) == u(j)
    ensures L.Sum(s + {k}, w) == L.Sum(s, u) + w(k)
  {
    L.SumWithout(s + {k}, k, w);
    assert s + {k} - {k} == s;
    L.SumSame(s, w, u);
  }

  lemma {:induction false} VoicesAre(q: seq<VoiceSource>)
    ensures VoiceOf(q) == VoicesOf(q) && ClergyOf(q) == BishopVoicesOf(q)
    decreases |q|
  {
    if q != [] {
      var n := |q| - 1;
      var rest := q[..n];
      VoicesAre(rest);
      VoicesGrow(q, rest);
      BishopVoicesGrow(q, rest);
    }
  }

  lemma VoicesGrow(q: seq<VoiceSource>, rest: seq<VoiceSource>)
    requires rest <= q && |q| == |rest| + 1
    ensures VoicesOf(q) == VoicesOf(rest) + q[|rest|].votes
  {
    var n := |rest|;
    var all := set k: nat | k < |rest| && rest[k].votes > 0;
    SumWith(all, n, Votes(q), Votes(rest));
    assert (set k: nat | k < |q| && q[k].votes > 0) == if q[n].votes > 0 then all + {n} else all;
    L.SumSame(all, Votes(q), Votes(rest));
  }

  lemma BishopVoicesGrow(q: seq<VoiceSource>, rest: seq<VoiceSource>)
    requires rest <= q && |q| == |rest| + 1
    ensures BishopVoicesOf(q) == BishopVoicesOf(rest) + if q[|rest|].bishop then q[|rest|].votes else 0
  {
    var n := |rest|;
    var bishops := set k: nat | k < |rest| && rest[k].bishop;
    SumWith(bishops, n, Votes(q), Votes(rest));
    assert (set k: nat | k < |q| && q[k].bishop) == if q[n].bishop then bishops + {n} else bishops;
    L.SumSame(bishops, Votes(q), Votes(rest));
  }

  lemma {:induction false} GatheredIs(weight: PlayerId -> nat, w: PlayerId -> int, voters: set<PlayerId>)
    requires forall p :: p in voters ==> weight(p) == w(p)
    ensures Gathered(weight, voters) == L.Sum(voters, w)
    decreases voters
  {
    if voters != {} {
      var p := Least(voters);
      OneMoreVoter(weight, voters, p);
      GatheredIs(weight, w, voters - {p});
    }
  }

  // ---------- who backs whom

  /** The ballot is a vote, by a player with voices, for a candidate. */
  ghost predicate Voted(sources: Voices, candidates: set<NobleId>, b: Ballot)
  {
    b.Vote? && b.noble in candidates && VoicesOf(Sources(sources, b.player)) > 0
  }

  /** The players whose first vote is for the candidate. */
  ghost predicate Backs(sources: Voices, candidates: set<NobleId>, q: seq<Ballot>, n: NobleId, p: PlayerId)
  {
    exists i :: 0 <= i < |q| && Voted(sources, candidates, q[i]) && q[i].player == p && q[i].noble == n
                && forall j :: 0 <= j < i ==> !(Voted(sources, candidates, q[j]) && q[j].player == p)
  }

  ghost function Backers(sources: Voices, candidates: set<NobleId>, q: seq<Ballot>, n: NobleId): set<PlayerId>
  {
    set p | p in sources && Backs(sources, candidates, q, n, p)
  }

  lemma BackersAre(sources: Voices, candidates: set<NobleId>, q: seq<Ballot>, n: NobleId)
    ensures Supporters(sources, candidates, q, n) == Backers(sources, candidates, q, n)
  {
    forall i | 0 <= i < |q| ensures IsVote(sources, candidates, q[i]) <==> Voted(sources, candidates, q[i]) {
      VoicesAre(Sources(sources, q[i].player));
    }
    forall p: PlayerId ensures p in Supporters(sources, candidates, q, n) <==> p in Backers(sources, candidates, q, n) {
      SupportsIff(sources, candidates, q, n, p);
      BackerIs(sources, candidates, q, n, p);
    }
  }

  lemma BackerIs(sources: Voices, candidates: set<NobleId>, q: seq<Ballot>, n: NobleId, p: PlayerId)
    requires forall i :: 0 <= i < |q| ==> (IsVote(sources, candidates, q[i]) <==> Voted(sources, candidates, q[i]))
    ensures (exists i :: 0 <= i < |q| && IsFirstVote(sources, candidates, q, i) && q[i].player == p && q[i].noble == n)
       <==> p in sources && Backs(sources, candidates, q, n, p)
  {
    if i :| 0 <= i < |q| && IsFirstVote(sources, candidates, q, i) && q[i].player == p && q[i].noble == n {
      assert p in sources;
    }
    if Backs(sources, candidates, q, n, p) {
      var i :| 0 <= i < |q| && Voted(sources, candidates, q[i]) && q[i].player == p && q[i].noble == n
               && forall j :: 0 <= j < i ==> !(Voted(sources, candidates, q[j]) && q[j].player == p);
      assert IsFirstVote(sources, candidates, q, i);
    }
  }

  ghost function VoicesWith(sources: Voices): PlayerId -> int
  {
    (p: PlayerId) => VoicesOf(Sources(sources, p))
  }

  ghost function BishopVoicesWith(sources: Voices): PlayerId -> int
  {
    (p: PlayerId) => BishopVoicesOf(Sources(sources, p))
  }

  /** The voices cast for the candidate. */
  ghost function VoicesFor(sources: Voices, candidates: set<NobleId>, q: seq<Ballot>, n: NobleId): int
  {
    L.Sum(Backers(sources, candidates, q, n), VoicesWith(sources))
  }

  /** Its backers hold the voice of high clergy, or two voices of bishops. */
  ghost predicate Blessed(sources: Voices, candidates: set<NobleId>, q: seq<Ballot>, n: NobleId)
  {
    || (exists p, k :: p in Backers(sources, candidates, q, n) && p in sources && 0 <= k < |sources[p]| && sources[p][k].high)
    || L.Sum(Backers(sources, candidates, q, n), BishopVoicesWith(sources)) >= 2
  }

  /** What the election asks of a candidate with the most voices. */
  ghost predicate Satisfies(o: Opening, sources: Voices, candidates: set<NobleId>, q: seq<Ballot>, n: NobleId)
  {
    var voices := VoicesFor(sources, candidates, q, n);
    voices > 0 && voices >= o.minVotes && (o.absolute ==> voices > o.denominator - voices) && (o.anointed ==> Blessed(sources, candidates, q, n))
  }

  lemma EntryIs(o: Opening, sources: Voices, candidates: set<NobleId>, q: seq<Ballot>, n: NobleId)
    ensures var e := EntryOf(o, sources, n, Supporters(sources, candidates, q, n));
            && e.votes == VoicesFor(sources, candidates, q, n)
            && (o.anointed ==> e.clergyVotes == L.Sum(Backers(sources, candidates, q, n), BishopVoicesWith(sources)))
            && (o.anointed ==> (e.highClergy <==>
                  exists p, k :: p in Backers(sources, candidates, q, n) && p in sources && 0 <= k < |sources[p]| && sources[p][k].high))
  {
    BackersAre(sources, candidates, q, n);
    var backers := Backers(sources, candidates, q, n);
    forall p: PlayerId ensures Voice(sources)(p) == VoicesWith(sources)(p) && Clergy(sources)(p) == BishopVoicesWith(sources)(p) {
      VoicesAre(Sources(sources, p));
    }
    GatheredIs(Voice(sources), VoicesWith(sources), backers);
    GatheredIs(Clergy(sources), BishopVoicesWith(sources), backers);
    HighIs(sources, backers);
  }

  lemma HighIs(sources: Voices, backers: set<PlayerId>)
    ensures (exists p :: p in backers && HasHigh(SourcesOf(sources, p))) <==>
              exists p, k :: p in backers && p in sources && 0 <= k < |sources[p]| && sources[p][k].high
  {
    if p :| p in backers && HasHigh(SourcesOf(sources, p)) {
      var k :| 0 <= k < |sources[p]| && sources[p][k].high;
    }
    if p, k :| p in backers && p in sources && 0 <= k < |sources[p]| && sources[p][k].high {
      assert SourcesOf(sources, p)[k].high;
    }
  }

  /** The candidate satisfies the election, and has more voices than every other. */
  ghost predicate Prevails(r: Realm, pending: seq<Title>, o: Opening, sources: Voices, candidates: set<NobleId>, q: seq<Ballot>, n: NobleId)
  {
    && IsCandidate(r, pending, o.kind, q, n) && Satisfies(o, sources, candidates, q, n)
    && forall m: NobleId :: IsCandidate(r, pending, o.kind, q, m) && m != n ==>
         VoicesFor(sources, candidates, q, m) < VoicesFor(sources, candidates, q, n)
  }

  /** A noble is elected exactly when it prevails among the candidates. */
  lemma ElectedIs(r: Realm, pending: seq<Title>, o: Opening, sources: Voices, q: seq<Ballot>, candidates: set<NobleId>, n: NobleId)
    requires forall m: NobleId :: m in candidates <==> IsCandidate(r, pending, o.kind, q, m)
    ensures IsElected(o, sources, Standing(r, pending, o.kind, q), q, n) <==> Prevails(r, pending, o, sources, candidates, q, n)
  {
    forall m: NobleId
      ensures m in Standing(r, pending, o.kind, q) <==> m in candidates
      ensures Gathered(Voice(sources), Supporters(sources, candidates, q, m)) == VoicesFor(sources, candidates, q, m)
    {
      CandidateIs(r, pending, o.kind, q, m);
      EntryIs(o, sources, candidates, q, m);
    }
    assert Standing(r, pending, o.kind, q) == candidates;
    EntryIs(o, sources, candidates, q, n);
  }

  // ---------- which elections open, and what they ask

  /** The elections opened are these, and a bishop needs a voice, a pope most of the cardinals', a king three and a blessing. */
  lemma OpeningsAsk(r: Realm, titleVoices: nat, bishopVoices: nat, cardinalVoice: bool)
    ensures ConclaveOpens(r) <==> r.pope == None && |r.cardinals| >= 2
    ensures ThroneOpens(r, titleVoices, bishopVoices, cardinalVoice) <==>
              r.king == None && titleVoices >= 3 && (cardinalVoice || bishopVoices >= 2)
    ensures forall region: RegionId :: HasBishop(r, region) <==> exists b :: b in r.bishops && b.region == region
    ensures ROYAL_MIN_VOTES == 3
  {
    forall region: RegionId ensures HasBishop(r, region) <==> exists b :: b in r.bishops && b.region == region {
      if b :| b in r.bishops && b.region == region {
        var i :| 0 <= i < |r.bishops| && r.bishops[i] == b;
      }
      if i :| 0 <= i < |r.bishops| && r.bishops[i].region == region { assert r.bishops[i] in r.bishops; }
    }
  }
}
