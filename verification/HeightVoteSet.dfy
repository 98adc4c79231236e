// consensus/types/height_vote_set.go: one pair of tallies for each round of a height.
//
// Rounds 0..round are always present.  Rounds above come into being when a peer
// sends a vote for them, at most two a peer.
module HeightVoteSets {
  import opened Types
  import opened Power
  import opened VoteSets

  datatype RoundVotes = RoundVotes(prevotes: Tally, precommits: Tally)

  datatype HeightVotes = HeightVotes(
    chain: ChainID, height: int, vals: seq<Validator>,
    round: int, sets: map<int, RoundVotes>, catchup: map<Peer, seq<int>>)
  {
    // HeightVoteSet.getVoteSet
    function Get(r: int, kind: VoteType): Option<Tally> {
      if r !in sets then None
      else if kind.Prevote? then Some(sets[r].prevotes)
      else if kind.Precommit? then Some(sets[r].precommits)
      else None
    }

    // Prevotes(r).TwoThirdsMajority() and Precommits(r).TwoThirdsMajority();
    // an absent round has no majority.
    function Polka(r: int): Option<BlockID> {
      if r in sets then sets[r].prevotes.maj23 else None
    }

    function Decision(r: int): Option<BlockID> {
      if r in sets then sets[r].precommits.maj23 else None
    }
  }

  datatype HeightError = OfVote(e: VoteError) | UnwantedRound

  datatype HeightResult = HeightResult(votes: HeightVotes, added: bool, err: HeightError)

  function NewRoundVotes(chain: ChainID, height: int, r: int, vals: seq<Validator>): RoundVotes {
    RoundVotes(NewTally(chain, height, r, Prevote, vals), NewTally(chain, height, r, Precommit, vals))
  }

  function NewHeightVotes(chain: ChainID, height: int, vals: seq<Validator>): HeightVotes {
    HeightVotes(chain, height, vals, 0, map[0 := NewRoundVotes(chain, height, 0, vals)], map[])
  }

  // SetRound panics when it would not move a non-zero round forward.
  predicate SetRoundPanics(h: HeightVotes, round: int) {
    h.round != 0 && round < h.round + 1
  }

  function SetRound(h: HeightVotes, round: int): HeightVotes {
    Filled(h, round).(round := round)
  }

  // Every missing round above the current one, up to `upto`, made present.
  function Filled(h: HeightVotes, upto: int): HeightVotes {
    h.(sets := (map r | h.round < r <= upto :: NewRoundVotes(h.chain, h.height, r, h.vals)) + h.sets)
  }

  function WithTally(h: HeightVotes, r: int, kind: VoteType, t: Tally): HeightVotes
    requires r in h.sets
  {
    if kind.Prevote? then h.(sets := h.sets[r := h.sets[r].(prevotes := t)])
    else h.(sets := h.sets[r := h.sets[r].(precommits := t)])
  }

  // HeightVoteSet.addRound, guarded as its callers guard it.
  function AddRound(h: HeightVotes, r: int): HeightVotes {
    h.(sets := h.sets[r := NewRoundVotes(h.chain, h.height, r, h.vals)])
  }

  function CatchupRounds(h: HeightVotes, peer: Peer): seq<int> {
    if peer in h.catchup then h.catchup[peer] else []
  }

  // HeightVoteSet.AddVote
  function AddVoteTo(h: HeightVotes, v: Vote, peer: Peer): HeightResult
    requires ShapeAll(h)
  {
    if v.kind.UnknownType? then HeightResult(h, false, OfVote(NoError))
    else if v.round in h.sets then AddToRound(h, v)
    else if |CatchupRounds(h, peer)| < 2 then
      var h1 := AddRound(h, v.round);
      AddToRound(h1.(catchup := h1.catchup[peer := CatchupRounds(h, peer) + [v.round]]), v)
    else HeightResult(h, false, UnwantedRound)
  }

  function AddToRound(h: HeightVotes, v: Vote): HeightResult
    requires ShapeAll(h) && !v.kind.UnknownType? && v.round in h.sets
  {
    var r := AddVote(h.Get(v.round, v.kind).value, v);
    HeightResult(WithTally(h, v.round, v.kind, r.tally), r.added, OfVote(r.err))
  }

  // HeightVoteSet.SetPeerMaj23
  function SetPeerMaj23In(h: HeightVotes, r: int, kind: VoteType, peer: Peer, b: BlockID): HeightVotes {
    var t := h.Get(r, kind);
    if t.None? then h else WithTally(h, r, kind, SetPeerMaj23(t.value, peer, b).0)
  }

  // HeightVoteSet.POLInfo, scanning down from round `r`.
  function POLInfo(h: HeightVotes, r: int): (int, BlockID)
    decreases if r < 0 then 0 else r + 1
  {
    if r < 0 then (-1, NilBlock)
    else if h.Polka(r).Some? then (r, h.Polka(r).value)
    else POLInfo(h, r - 1)
  }

  predicate ShapeAll(h: HeightVotes) {
    forall r :: r in h.sets ==> Shape(h.sets[r].prevotes) && Shape(h.sets[r].precommits)
  }

  // ---- The representation invariant ----

  predicate Tagged(h: HeightVotes, r: int, kind: VoteType, t: Tally) {
    t.chain == h.chain && t.height == h.height && t.round == r && t.kind == kind && t.vals == h.vals
  }

  ghost predicate RoundInv(h: HeightVotes, r: int, rv: RoundVotes) {
    && TallyInv(rv.prevotes) && Tagged(h, r, Prevote, rv.prevotes)
    && TallyInv(rv.precommits) && Tagged(h, r, Precommit, rv.precommits)
  }

  ghost predicate SetsInv(h: HeightVotes) {
    forall r :: r in h.sets ==> RoundInv(h, r, h.sets[r])
  }

  predicate Contiguous(h: HeightVotes) {
    0 <= h.round && forall r :: 0 <= r <= h.round ==> r in h.sets
  }

  ghost predicate HeightInv(h: HeightVotes) {
    && ExactPowers(h.vals) && SetsInv(h) && Contiguous(h)
    && forall p :: p in h.catchup ==> |h.catchup[p]| <= 2
  }

  // Everything recorded before is still there: rounds, and majorities.
  ghost predicate Grows(h: HeightVotes, h': HeightVotes) {
    && h'.chain == h.chain && h'.height == h.height && h'.vals == h.vals
    && h.sets.Keys <= h'.sets.Keys
    && (forall r :: h.Polka(r).Some? ==> h'.Polka(r) == h.Polka(r))
    && (forall r :: h.Decision(r).Some? ==> h'.Decision(r) == h.Decision(r))
  }

  lemma NewRoundInv(h: HeightVotes, r: int)
    requires ExactPowers(h.vals)
    ensures RoundInv(h, r, NewRoundVotes(h.chain, h.height, r, h.vals))
  {
    NewTallyInv(h.chain, h.height, r, Prevote, h.vals);
    NewTallyInv(h.chain, h.height, r, Precommit, h.vals);
  }

  lemma NewHeightInv(chain: ChainID, height: int, vals: seq<Validator>)
    requires ExactPowers(vals)
    ensures HeightInv(NewHeightVotes(chain, height, vals))
  {
    NewRoundInv(NewHeightVotes(chain, height, vals), 0);
  }

  // A round added by SetRound has no majority yet.
  lemma SetRoundKeeps(h: HeightVotes, round: int)
    ensures forall r :: SetRound(h, round).Polka(r) == h.Polka(r)
    ensures forall r :: SetRound(h, round).Decision(r) == h.Decision(r)
  {
    var h' := SetRound(h, round);
    forall r ensures h'.Polka(r) == h.Polka(r) && h'.Decision(r) == h.Decision(r) {
      if r in h'.sets && r !in h.sets { assert h'.sets[r] == NewRoundVotes(h.chain, h.height, r, h.vals); }
    }
  }

  // Moving the round on keeps every tally and adds empty ones.
  lemma SetRoundInv(h: HeightVotes, round: int)
    requires HeightInv(h) && h.round <= round
    ensures HeightInv(SetRound(h, round)) && Grows(h, SetRound(h, round))
  {
    hide TallyInv;
    SetRoundKeeps(h, round);
    var h' := SetRound(h, round);
    forall r | r in h'.sets ensures RoundInv(h', r, h'.sets[r]) {
      NewRoundInv(h, r);
      assert r in h.sets ==> RoundInv(h, r, h.sets[r]);
    }
  }

  lemma WithTallyInv(h: HeightVotes, r: int, kind: VoteType, t: Tally)
    requires HeightInv(h) && r in h.sets && !kind.UnknownType?
    requires TallyInv(t) && Tagged(h, r, kind, t)
    requires h.Get(r, kind).value.maj23.Some? ==> t.maj23 == h.Get(r, kind).value.maj23
    ensures HeightInv(WithTally(h, r, kind, t)) && Grows(h, WithTally(h, r, kind, t))
  {
    hide TallyInv;
    var h' := WithTally(h, r, kind, t);
    forall q | q in h'.sets ensures RoundInv(h', q, h'.sets[q]) {
      assert RoundInv(h, q, h.sets[q]);
    }
  }

  lemma AddToRoundInv(h: HeightVotes, v: Vote)
    requires HeightInv(h) && !v.kind.UnknownType? && v.round in h.sets
    ensures HeightInv(AddToRound(h, v).votes) && Grows(h, AddToRound(h, v).votes)
  {
    assert RoundInv(h, v.round, h.sets[v.round]);
    var t := h.Get(v.round, v.kind).value;
    AddVoteInv(t, v);
    AddVoteEffect(t, v, v.block);
    if t.maj23.Some? { MajorityIsWriteOnce(t, v, 0, v.block); }
    WithTallyInv(h, v.round, v.kind, AddVote(t, v).tally);
  }

  lemma AddRoundInv(h: HeightVotes, r: int)
    requires HeightInv(h) && r !in h.sets
    ensures HeightInv(AddRound(h, r)) && Grows(h, AddRound(h, r))
  {
    hide TallyInv;
    var h' := AddRound(h, r);
    NewRoundInv(h, r);
    forall q | q in h'.sets ensures RoundInv(h', q, h'.sets[q]) {
      assert q != r ==> RoundInv(h, q, h.sets[q]);
    }
  }

  lemma ShapeOfInv(h: HeightVotes)
    requires SetsInv(h)
    ensures ShapeAll(h)
  {
    forall r | r in h.sets ensures Shape(h.sets[r].prevotes) && Shape(h.sets[r].precommits) {
      assert RoundInv(h, r, h.sets[r]);
    }
  }

  lemma CatchupInv(h: HeightVotes, peer: Peer, r: int)
    requires HeightInv(h) && |CatchupRounds(h, peer)| < 2
    ensures HeightInv(h.(catchup := h.catchup[peer := CatchupRounds(h, peer) + [r]]))
  {
    hide TallyInv;
    var h' := h.(catchup := h.catchup[peer := CatchupRounds(h, peer) + [r]]);
    forall q | q in h'.sets ensures RoundInv(h', q, h'.sets[q]) { assert RoundInv(h, q, h.sets[q]); }
  }

  lemma AddedMatches(h: HeightVotes, v: Vote)
    requires HeightInv(h) && !v.kind.UnknownType? && v.round in h.sets && ShapeAll(h)
    ensures AddToRound(h, v).added ==> v.height == h.height
    ensures AddToRound(h, v).votes.round == h.round
  {
  }

  // Any vote from any peer keeps the invariant and every majority.
  lemma AddVoteToInv(h: HeightVotes, v: Vote, peer: Peer)
    requires HeightInv(h)
    ensures ShapeAll(h)
    ensures HeightInv(AddVoteTo(h, v, peer).votes) && Grows(h, AddVoteTo(h, v, peer).votes)
    ensures AddVoteTo(h, v, peer).votes.round == h.round
    ensures AddVoteTo(h, v, peer).added ==>
      v.round in AddVoteTo(h, v, peer).votes.sets && !v.kind.UnknownType? && v.height == h.height
  {
    hide TallyInv;
    ShapeOfInv(h);
    if v.kind.UnknownType? {
    } else if v.round in h.sets {
      AddToRoundInv(h, v);
      AddedMatches(h, v);
    } else if |CatchupRounds(h, peer)| < 2 {
      AddRoundInv(h, v.round);
      var h1 := AddRound(h, v.round);
      CatchupInv(h1, peer, v.round);
      var h2 := h1.(catchup := h1.catchup[peer := CatchupRounds(h, peer) + [v.round]]);
      AddToRoundInv(h2, v);
      ShapeOfInv(h2);
      AddedMatches(h2, v);
    }
  }

  lemma SetPeerMaj23InInv(h: HeightVotes, r: int, kind: VoteType, peer: Peer, b: BlockID)
    requires HeightInv(h)
    ensures HeightInv(SetPeerMaj23In(h, r, kind, peer, b)) && Grows(h, SetPeerMaj23In(h, r, kind, peer, b))
    ensures SetPeerMaj23In(h, r, kind, peer, b).round == h.round
  {
    if h.Get(r, kind).Some? {
      assert RoundInv(h, r, h.sets[r]);
      var t := h.Get(r, kind).value;
      SetPeerMaj23Inv(t, peer, b);
      WithTallyInv(h, r, kind, SetPeerMaj23(t, peer, b).0);
    }
  }

  // POLInfo finds the highest round, up to where it starts, with a polka.
  lemma {:induction false} POLInfoIsHighest(h: HeightVotes, r: int)
    ensures var (pol, b) := POLInfo(h, r);
      && -1 <= pol && (pol >= 0 ==> pol <= r && h.Polka(pol) == Some(b))
      && forall q :: pol < q <= r && 0 <= q ==> h.Polka(q).None?
    decreases if r < 0 then 0 else r + 1
  {
    if r >= 0 && h.Polka(r).None? { POLInfoIsHighest(h, r - 1); }
  }
}
