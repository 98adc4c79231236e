// types/vote_set.go: the tally of one (height, round, kind) of votes.
//
// `Tally` is the value a VoteSet holds.  The canonical `votes` keep one vote a
// validator; `byBlock` keeps the votes of each tracked block, so that a
// double-signing validator may appear under several blocks.
module VoteSets {
  import opened Types
  import opened Power

  datatype BlockVotes = BlockVotes(peerMaj23: bool, bits: seq<bool>, votes: seq<Option<Vote>>, sum: int)
  {
    // blockVotes.addVerifiedVote
    function Add(v: Vote, power: int): BlockVotes
      requires 0 <= v.index < |votes| == |bits|
    {
      if votes[v.index].Some? then this
      else this.(bits := bits[v.index := true], votes := votes[v.index := Some(v)], sum := sum + power)
    }
  }

  datatype Tally = Tally(
    chain: ChainID, height: int, round: int, kind: VoteType, vals: seq<Validator>,
    bits: seq<bool>, votes: seq<Option<Vote>>, sum: int, maj23: Option<BlockID>,
    byBlock: map<BlockID, BlockVotes>, peers: map<Peer, BlockID>)
  {
    predicate HasTwoThirdsMajority() { maj23.Some? }
    predicate HasTwoThirdsAny() { sum > Threshold(vals) }
    predicate HasAll() { sum == TotalVotingPower(vals) }
  }

  datatype VoteError =
    | NoError | InvalidIndex | InvalidAddress | UnexpectedStep
    | NonDeterministicSignature | InvalidSignature | ConflictingVotes(other: Vote)
    | PanicDuplicate | PanicNotAdded

  datatype AddResult = AddResult(tally: Tally, added: bool, err: VoteError)

  function NewBlockVotes(peerMaj23: bool, n: nat): BlockVotes {
    BlockVotes(peerMaj23, seq(n, _ => false), seq(n, _ => None), 0)
  }

  function NewTally(chain: ChainID, height: int, round: int, kind: VoteType, vals: seq<Validator>): Tally {
    Tally(chain, height, round, kind, vals, seq(|vals|, _ => false), seq(|vals|, _ => None), 0, None, map[], map[])
  }

  predicate Shape(t: Tally) {
    && |t.bits| == |t.votes| == |t.vals|
    && forall b :: b in t.byBlock ==> |t.byBlock[b].bits| == |t.byBlock[b].votes| == |t.vals|
  }

  // VoteSet.getVote
  function GetVote(t: Tally, i: int, b: BlockID): Option<Vote>
    requires Shape(t) && 0 <= i < |t.vals|
  {
    if t.votes[i].Some? && t.votes[i].value.block == b then t.votes[i]
    else if b in t.byBlock then t.byBlock[b].votes[i]
    else None
  }

  // VoteSet.addVote
  function AddVote(t: Tally, v: Vote): AddResult
    requires Shape(t)
  {
    var i := v.index;
    if i < 0 then AddResult(t, false, InvalidIndex)
    else if v.addr == 0 then AddResult(t, false, InvalidAddress)
    else if v.height != t.height || v.round != t.round || v.kind != t.kind then AddResult(t, false, UnexpectedStep)
    else if i >= |t.vals| then AddResult(t, false, InvalidIndex)
    else if v.addr != t.vals[i].addr then AddResult(t, false, InvalidAddress)
    else
      var existing := GetVote(t, i, v.block);
      if existing.Some? then
        AddResult(t, false, if existing.value.sig == v.sig then NoError else NonDeterministicSignature)
      else if !v.Verify(t.chain, t.vals[i].key) then AddResult(t, false, InvalidSignature)
      else
        var r := AddVerified(t, v);
        if r.err == NoError && !r.added then r.(err := PanicNotAdded) else r
  }

  // The canonical votes after a verified vote: a first vote is kept, a conflicting
  // one replaces it only when it is for the majority block.
  function Canonical(t: Tally, v: Vote): Tally
    requires Shape(t) && 0 <= v.index < |t.vals|
  {
    if t.votes[v.index].None? then
      t.(votes := t.votes[v.index := Some(v)], bits := t.bits[v.index := true],
         sum := t.sum + t.vals[v.index].power)
    else if t.maj23 == Some(v.block) then
      t.(votes := t.votes[v.index := Some(v)], bits := t.bits[v.index := true])
    else t
  }

  function Overlay(votes: seq<Option<Vote>>, over: seq<Option<Vote>>): seq<Option<Vote>>
    requires |votes| == |over|
  {
    seq(|votes|, i requires 0 <= i < |votes| => if over[i].Some? then over[i] else votes[i])
  }

  // VoteSet.addVerifiedVote once the block is known to be tracked.
  function Track(t: Tally, v: Vote, bv: BlockVotes): Tally
    requires Shape(t) && 0 <= v.index < |t.vals| == |bv.votes| == |bv.bits|
  {
    var quorum := Threshold(t.vals) + 1;
    var bv' := bv.Add(v, t.vals[v.index].power);
    var t' := t.(byBlock := t.byBlock[v.block := bv']);
    if bv.sum < quorum <= bv'.sum && t.maj23.None? then
      t'.(maj23 := Some(v.block), votes := Overlay(t.votes, bv'.votes))
    else t'
  }

  // VoteSet.addVerifiedVote
  function AddVerified(t: Tally, v: Vote): AddResult
    requires Shape(t) && 0 <= v.index < |t.vals|
  {
    var conflicting := t.votes[v.index];
    if conflicting.Some? && conflicting.value.block == v.block then AddResult(t, false, PanicDuplicate)
    else
      var t1 := Canonical(t, v);
      var tracked := v.block in t.byBlock;
      if conflicting.Some? && !(tracked && t.byBlock[v.block].peerMaj23) then
        AddResult(t1, false, ConflictingVotes(conflicting.value))
      else
        var bv := if tracked then t.byBlock[v.block] else NewBlockVotes(false, |t.vals|);
        AddResult(Track(t1, v, bv), true,
                  if conflicting.Some? then ConflictingVotes(conflicting.value) else NoError)
  }

  // VoteSet.SetPeerMaj23; the flag says whether the claim was accepted.
  function SetPeerMaj23(t: Tally, peer: Peer, b: BlockID): (Tally, bool) {
    if peer in t.peers then (t, t.peers[peer] == b)
    else
      var bv := if b in t.byBlock then t.byBlock[b].(peerMaj23 := true) else NewBlockVotes(true, |t.vals|);
      (t.(peers := t.peers[peer := b], byBlock := t.byBlock[b := bv]), true)
  }

  // ---- The representation invariant ----

  function Voters(votes: seq<Option<Vote>>): set<int> {
    set i | 0 <= i < |votes| && votes[i].Some?
  }

  // A vote that validator `i` signed for this height, round and kind.
  predicate Good(t: Tally, i: int, v: Vote)
    requires 0 <= i < |t.vals|
  {
    && v.index == i && v.addr == t.vals[i].addr
    && v.height == t.height && v.round == t.round && v.kind == t.kind
    && v.Verify(t.chain, t.vals[i].key)
  }

  // Canonical votes are good, and their blocks are tracked or among `pending`.
  ghost predicate VotesInv(t: Tally, pending: set<BlockID>)
    requires Shape(t)
  {
    && (forall i :: 0 <= i < |t.vals| ==> (t.bits[i] <==> t.votes[i].Some?))
    && (forall i :: 0 <= i < |t.vals| && t.votes[i].Some? ==>
          && Good(t, i, t.votes[i].value)
          && (t.votes[i].value.block in t.byBlock || t.votes[i].value.block in pending))
  }

  ghost predicate CanonicalInv(t: Tally)
    requires Shape(t)
  {
    VotesInv(t, {}) && t.sum == Weight(t.vals, Voters(t.votes))
  }

  ghost predicate BlockInv(t: Tally, b: BlockID, bv: BlockVotes)
    requires |bv.votes| == |bv.bits| == |t.vals| == |t.votes|
  {
    && (forall i :: 0 <= i < |t.vals| ==> (bv.bits[i] <==> bv.votes[i].Some?))
    && (forall i :: 0 <= i < |t.vals| && bv.votes[i].Some? ==>
          Good(t, i, bv.votes[i].value) && bv.votes[i].value.block == b && t.votes[i].Some?)
    && bv.sum == Weight(t.vals, Voters(bv.votes))
  }

  ghost predicate BlocksInv(t: Tally)
    requires Shape(t)
  {
    forall b :: b in t.byBlock ==> BlockInv(t, b, t.byBlock[b])
  }

  // The majority is the first block to reach the quorum, and its votes are the canonical ones.
  ghost predicate MajorityInv(t: Tally)
    requires Shape(t)
  {
    match t.maj23
    case None => forall b :: b in t.byBlock ==> t.byBlock[b].sum <= Threshold(t.vals)
    case Some(m) =>
      && m in t.byBlock && t.byBlock[m].sum > Threshold(t.vals)
      && forall i :: 0 <= i < |t.vals| && t.byBlock[m].votes[i].Some? ==> t.votes[i] == t.byBlock[m].votes[i]
  }

  ghost predicate TallyInv(t: Tally) {
    && ExactPowers(t.vals)
    && Shape(t) && CanonicalInv(t) && BlocksInv(t) && MajorityInv(t)
  }

  // ---- Every operation keeps it ----

  lemma NewTallyInv(chain: ChainID, height: int, round: int, kind: VoteType, vals: seq<Validator>)
    requires ExactPowers(vals)
    ensures TallyInv(NewTally(chain, height, round, kind, vals))
  {
    var t := NewTally(chain, height, round, kind, vals);
    WeightEmpty(vals, Voters(t.votes));
  }

  lemma NewBlockVotesInv(t: Tally, b: BlockID, peerMaj23: bool)
    requires Shape(t)
    ensures BlockInv(t, b, NewBlockVotes(peerMaj23, |t.vals|))
  {
    WeightEmpty(t.vals, Voters(NewBlockVotes(peerMaj23, |t.vals|).votes));
  }

  lemma VotersInsert(votes: seq<Option<Vote>>, i: int, v: Vote)
    requires 0 <= i < |votes|
    ensures Voters(votes[i := Some(v)]) == Voters(votes) + {i}
  {
  }

  // A vote fit to be added: signed by its validator, and not yet known.
  ghost predicate Fresh(t: Tally, v: Vote) {
    && Shape(t) && 0 <= v.index < |t.vals| && Good(t, v.index, v)
    && GetVote(t, v.index, v.block).None?
  }

  // What putting a vote on the canonical list leaves for `Track` to repair:
  // only the new vote's own block may still lack an entry.
  ghost predicate HalfAdded(t: Tally, v: Vote) {
    && ExactPowers(t.vals) && Shape(t) && BlocksInv(t)
    && 0 <= v.index < |t.vals| && Good(t, v.index, v) && t.votes[v.index].Some?
    && VotesInv(t, {v.block}) && t.sum == Weight(t.vals, Voters(t.votes))
    && MajorityInv(t)
    && (t.maj23 == Some(v.block) ==> t.votes[v.index] == Some(v))
  }

  lemma CanonicalWeight(t: Tally, v: Vote)
    requires Shape(t) && 0 <= v.index < |t.vals| && t.sum == Weight(t.vals, Voters(t.votes))
    ensures Canonical(t, v).sum == Weight(t.vals, Voters(Canonical(t, v).votes))
  {
    VotersInsert(t.votes, v.index, v);
    if t.votes[v.index].None? {
      WeightInsert(t.vals, Voters(t.votes), v.index);
    } else {
      assert Voters(t.votes) + {v.index} == Voters(t.votes);
    }
  }

  lemma CanonicalBlocks(t: Tally, v: Vote)
    requires Shape(t) && BlocksInv(t) && 0 <= v.index < |t.vals|
    ensures Shape(Canonical(t, v)) && BlocksInv(Canonical(t, v))
  {
    var t1 := Canonical(t, v);
    forall b | b in t1.byBlock ensures BlockInv(t1, b, t1.byBlock[b]) {
      assert BlockInv(t, b, t.byBlock[b]);
    }
  }

  lemma CanonicalMajority(t: Tally, v: Vote)
    requires TallyInv(t) && Fresh(t, v)
    ensures Shape(Canonical(t, v)) && MajorityInv(Canonical(t, v))
  {
    if t.maj23.Some? { assert BlockInv(t, t.maj23.value, t.byBlock[t.maj23.value]); }
  }

  lemma CanonicalVotes(t: Tally, v: Vote)
    requires Shape(t) && VotesInv(t, {}) && 0 <= v.index < |t.vals| && Good(t, v.index, v)
    ensures Shape(Canonical(t, v)) && VotesInv(Canonical(t, v), {v.block})
  {
    var t1 := Canonical(t, v);
    forall i | 0 <= i < |t.vals| && t1.votes[i].Some? ensures Good(t1, i, t1.votes[i].value) {
      assert i != v.index ==> t1.votes[i] == t.votes[i];
    }
  }

  lemma CanonicalIsHalfAdded(t: Tally, v: Vote)
    requires TallyInv(t) && Fresh(t, v)
    ensures HalfAdded(Canonical(t, v), v)
  {
    CanonicalVotes(t, v);
    CanonicalWeight(t, v);
    CanonicalBlocks(t, v);
    CanonicalMajority(t, v);
  }

  lemma BlockAddInv(t: Tally, v: Vote, bv: BlockVotes)
    requires Shape(t) && 0 <= v.index < |t.vals| && Good(t, v.index, v) && t.votes[v.index].Some?
    requires |bv.votes| == |bv.bits| == |t.vals| && BlockInv(t, v.block, bv) && bv.votes[v.index].None?
    ensures BlockInv(t, v.block, bv.Add(v, t.vals[v.index].power))
  {
    VotersInsert(bv.votes, v.index, v);
    WeightInsert(t.vals, Voters(bv.votes), v.index);
  }

  // Copying the majority's votes over the canonical ones leaves the set of voters alone.
  lemma OverlayVoters(t: Tally, over: seq<Option<Vote>>)
    requires |t.votes| == |over|
    requires forall i :: 0 <= i < |over| && over[i].Some? ==> t.votes[i].Some?
    ensures Voters(Overlay(t.votes, over)) == Voters(t.votes)
  {
  }

  // A block's votes stay in order while the set keeps its tag and its voters.
  lemma BlockInvFrame(t: Tally, t': Tally, b: BlockID, bv: BlockVotes)
    requires SameTag(t, t') && |bv.votes| == |bv.bits| == |t.vals| == |t.votes| == |t'.votes|
    requires forall i :: 0 <= i < |t.votes| && t.votes[i].Some? ==> t'.votes[i].Some?
    requires BlockInv(t, b, bv)
    ensures BlockInv(t', b, bv)
  {
  }

  lemma TrackFrame(t: Tally, v: Vote, bv: BlockVotes)
    requires Shape(t) && 0 <= v.index < |t.vals| == |bv.votes| == |bv.bits|
    ensures var t' := Track(t, v, bv);
      && SameTag(t, t') && Shape(t') && t'.byBlock == t.byBlock[v.block := bv.Add(v, t.vals[v.index].power)]
      && forall i :: 0 <= i < |t.votes| && t.votes[i].Some? ==> t'.votes[i].Some?
  {
  }

  lemma TrackKeepsBlocks(t: Tally, v: Vote, bv: BlockVotes)
    requires Shape(t) && BlocksInv(t) && 0 <= v.index < |t.vals| && Good(t, v.index, v) && t.votes[v.index].Some?
    requires |bv.votes| == |bv.bits| == |t.vals| && BlockInv(t, v.block, bv) && bv.votes[v.index].None?
    ensures Shape(Track(t, v, bv)) && BlocksInv(Track(t, v, bv))
  {
    hide BlockInv, Track, Good;
    var t' := Track(t, v, bv);
    TrackFrame(t, v, bv);
    BlockAddInv(t, v, bv);
    forall b | b in t'.byBlock ensures BlockInv(t', b, t'.byBlock[b]) {
      if b != v.block { assert BlockInv(t, b, t.byBlock[b]); }
      BlockInvFrame(t, t', b, t'.byBlock[b]);
    }
  }

  lemma GoodFrame(t: Tally, t': Tally, i: int, v: Vote)
    requires SameTag(t, t') && 0 <= i < |t.vals| && Good(t, i, v)
    ensures Good(t', i, v)
  {
  }

  lemma TrackKeepsCanonical(t: Tally, v: Vote, bv: BlockVotes)
    requires HalfAdded(t, v)
    requires |bv.votes| == |bv.bits| == |t.vals| && BlockInv(t, v.block, bv) && bv.votes[v.index].None?
    ensures Shape(Track(t, v, bv)) && CanonicalInv(Track(t, v, bv))
  {
    hide Weight, Threshold, Good, MajorityInv, BlocksInv;
    var t', bv' := Track(t, v, bv), bv.Add(v, t.vals[v.index].power);
    BlockAddInv(t, v, bv);
    OverlayVoters(t, bv'.votes);
    forall i | 0 <= i < |t.vals| && t'.votes[i].Some?
      ensures Good(t', i, t'.votes[i].value) && t'.votes[i].value.block in t'.byBlock
    {
      assert t'.votes[i] == bv'.votes[i] || t'.votes[i] == t.votes[i];
      GoodFrame(t, t', i, t'.votes[i].value);
    }
  }

  lemma TrackKeepsMajority(t: Tally, v: Vote, bv: BlockVotes)
    requires HalfAdded(t, v)
    requires |bv.votes| == |bv.bits| == |t.vals| && bv.votes[v.index].None?
    requires if v.block in t.byBlock then bv == t.byBlock[v.block] else bv.sum <= Threshold(t.vals)
    ensures Shape(Track(t, v, bv)) && MajorityInv(Track(t, v, bv))
  {
    assert t.vals[v.index].power >= 0;
    var t' := Track(t, v, bv);
    match t.maj23
    case Some(m) => assert m != v.block ==> t'.byBlock[m] == t.byBlock[m];
    case None =>
      forall b | b in t'.byBlock && b != v.block ensures t'.byBlock[b].sum <= Threshold(t.vals) {
        assert b in t.byBlock;
      }
  }

  lemma TrackKeepsInv(t: Tally, v: Vote, bv: BlockVotes)
    requires HalfAdded(t, v)
    requires |bv.votes| == |bv.bits| == |t.vals| && BlockInv(t, v.block, bv) && bv.votes[v.index].None?
    requires if v.block in t.byBlock then bv == t.byBlock[v.block] else bv.sum <= Threshold(t.vals)
    ensures TallyInv(Track(t, v, bv))
  {
    TrackKeepsBlocks(t, v, bv);
    TrackKeepsCanonical(t, v, bv);
    TrackKeepsMajority(t, v, bv);
  }

  lemma AddVerifiedInv(t: Tally, v: Vote)
    requires TallyInv(t) && Fresh(t, v)
    ensures TallyInv(AddVerified(t, v).tally)
  {
    var t1 := Canonical(t, v);
    CanonicalIsHalfAdded(t, v);
    if AddVerified(t, v).added {
      NewBlockVotesInv(t1, v.block, false);
      ThresholdExact(t.vals);
      TrackKeepsInv(t1, v, if v.block in t.byBlock then t.byBlock[v.block] else NewBlockVotes(false, |t.vals|));
    }
  }

  // Any vote at all: the invariant is kept and neither internal panic fires.
  lemma AddVoteInv(t: Tally, v: Vote)
    requires TallyInv(t)
    ensures TallyInv(AddVote(t, v).tally)
    ensures AddVote(t, v).err !in {PanicDuplicate, PanicNotAdded}
    ensures AddVote(t, v).added ==> Fresh(t, v)
  {
    if Fresh(t, v) { AddVerifiedInv(t, v); }
  }

  lemma SetPeerMaj23Blocks(t: Tally, peer: Peer, b: BlockID)
    requires Shape(t) && BlocksInv(t)
    ensures Shape(SetPeerMaj23(t, peer, b).0) && BlocksInv(SetPeerMaj23(t, peer, b).0)
  {
    var t' := SetPeerMaj23(t, peer, b).0;
    NewBlockVotesInv(t, b, true);
    forall c | c in t'.byBlock ensures BlockInv(t', c, t'.byBlock[c]) {
      assert c in t.byBlock ==> BlockInv(t, c, t.byBlock[c]);
    }
  }

  lemma SetPeerMaj23Votes(t: Tally, peer: Peer, b: BlockID)
    requires Shape(t) && CanonicalInv(t)
    ensures Shape(SetPeerMaj23(t, peer, b).0) && CanonicalInv(SetPeerMaj23(t, peer, b).0)
  {
  }

  lemma SetPeerMaj23Inv(t: Tally, peer: Peer, b: BlockID)
    requires TallyInv(t)
    ensures TallyInv(SetPeerMaj23(t, peer, b).0)
  {
    hide Good, Weight, Threshold;
    var t' := SetPeerMaj23(t, peer, b).0;
    SetPeerMaj23Blocks(t, peer, b);
    ThresholdExact(t.vals);
    assert CanonicalInv(t') by { SetPeerMaj23Votes(t, peer, b); }
  }

  // ---- What the operations mean ----

  predicate SameTag(t: Tally, t': Tally) {
    && t'.chain == t.chain && t'.height == t.height && t'.round == t.round
    && t'.kind == t.kind && t'.vals == t.vals
  }

  // Some tracked block holds vote `v`.
  ghost predicate Recorded(t: Tally, v: Vote) {
    exists b, i :: b in t.byBlock && 0 <= i < |t.byBlock[b].votes| && t.byBlock[b].votes[i] == Some(v)
  }

  // A vote is added exactly when it is new, properly signed, and either its
  // validator's first vote or for a block some peer claims a majority for.
  lemma AddedIff(t: Tally, v: Vote)
    requires TallyInv(t)
    ensures AddVote(t, v).added <==>
      && v.addr != 0 && Fresh(t, v)
      && (t.votes[v.index].None? || (v.block in t.byBlock && t.byBlock[v.block].peerMaj23))
  {
  }

  // The votes on record for block `b`.
  function Entry(t: Tally, b: BlockID): seq<Option<Vote>> {
    if b in t.byBlock then t.byBlock[b].votes else seq(|t.vals|, _ => None)
  }

  lemma TrackEffect(t: Tally, v: Vote, bv: BlockVotes, b: BlockID)
    requires Shape(t) && 0 <= v.index < |t.vals| == |bv.votes| == |bv.bits| && bv.votes[v.index].None?
    ensures SameTag(t, Track(t, v, bv)) && Track(t, v, bv).peers == t.peers
    ensures Entry(Track(t, v, bv), b) == if b == v.block then bv.votes[v.index := Some(v)] else Entry(t, b)
  {
  }

  lemma CanonicalEffect(t: Tally, v: Vote)
    requires Shape(t) && 0 <= v.index < |t.vals|
    ensures Shape(Canonical(t, v)) && SameTag(t, Canonical(t, v))
    ensures Canonical(t, v).peers == t.peers && Canonical(t, v).byBlock == t.byBlock
  {
  }

  lemma AddVerifiedEffect(t: Tally, v: Vote, b: BlockID)
    requires Fresh(t, v)
    ensures SameTag(t, AddVerified(t, v).tally) && AddVerified(t, v).tally.peers == t.peers
    ensures Entry(AddVerified(t, v).tally, b) ==
            if AddVerified(t, v).added && b == v.block then Entry(t, b)[v.index := Some(v)] else Entry(t, b)
  {
    CanonicalEffect(t, v);
    if AddVerified(t, v).added {
      var bv := if v.block in t.byBlock then t.byBlock[v.block] else NewBlockVotes(false, |t.vals|);
      TrackEffect(Canonical(t, v), v, bv, b);
    }
  }

  // Adding changes one validator's place in one block's entry; a refused vote changes none.
  lemma AddVoteEffect(t: Tally, v: Vote, b: BlockID)
    requires Shape(t)
    ensures SameTag(t, AddVote(t, v).tally) && AddVote(t, v).tally.peers == t.peers
    ensures AddVote(t, v).added ==> 0 <= v.index < |t.vals|
    ensures Entry(AddVote(t, v).tally, b) ==
            if AddVote(t, v).added && b == v.block then Entry(t, b)[v.index := Some(v)] else Entry(t, b)
  {
    if Fresh(t, v) { AddVerifiedEffect(t, v, b); }
  }

  lemma AddVoteRecords(t: Tally, v: Vote, w: Vote)
    requires TallyInv(t) && Recorded(AddVote(t, v).tally, w)
    ensures Recorded(t, w) || w == v
  {
    var t' := AddVote(t, v).tally;
    var b, i :| b in t'.byBlock && 0 <= i < |t'.byBlock[b].votes| && t'.byBlock[b].votes[i] == Some(w);
    AddVoteEffect(t, v, b);
    if w != v {
      assert Entry(t, b)[i] == Some(w);
      assert b in t.byBlock && t.byBlock[b].votes[i] == Some(w);
    }
  }

  lemma SetPeerMaj23Records(t: Tally, peer: Peer, b: BlockID, w: Vote)
    requires Recorded(SetPeerMaj23(t, peer, b).0, w)
    ensures Recorded(t, w)
  {
    var t' := SetPeerMaj23(t, peer, b).0;
    var c, i :| c in t'.byBlock && 0 <= i < |t'.byBlock[c].votes| && t'.byBlock[c].votes[i] == Some(w);
    assert c in t.byBlock && t.byBlock[c].votes[i] == Some(w);
  }

  // A majority, once found, never changes.
  lemma MajorityIsWriteOnce(t: Tally, v: Vote, peer: Peer, b: BlockID)
    requires TallyInv(t) && t.maj23.Some?
    ensures AddVote(t, v).tally.maj23 == t.maj23 && SetPeerMaj23(t, peer, b).0.maj23 == t.maj23
  {
  }

  // A majority is backed by validators holding more than two thirds of the power,
  // each with a signed vote for that block on record.
  lemma MajorityIsBacked(t: Tally) returns (who: set<int>)
    requires TallyInv(t) && t.maj23.Some?
    ensures Weight(t.vals, who) > Threshold(t.vals)
    ensures forall i :: i in who ==>
      exists v :: Recorded(t, v) && 0 <= i < |t.vals| && Good(t, i, v) && v.block == t.maj23.value
    ensures t.HasTwoThirdsAny()
  {
    var bv := t.byBlock[t.maj23.value];
    assert BlockInv(t, t.maj23.value, bv);
    who := Voters(bv.votes);
    forall i | i in who
      ensures exists v :: Recorded(t, v) && 0 <= i < |t.vals| && Good(t, i, v) && v.block == t.maj23.value
    {
      assert Recorded(t, bv.votes[i].value);
    }
    WeightMonotone(t.vals, who, Voters(t.votes));
  }

  // ---- Whole runs ----

  datatype Op = Add(v: Vote) | Claim(peer: Peer, block: BlockID)

  function Step(t: Tally, op: Op): Tally
    requires Shape(t)
  {
    match op
    case Add(v) => AddVote(t, v).tally
    case Claim(peer, b) => SetPeerMaj23(t, peer, b).0
  }

  lemma StepInv(t: Tally, op: Op)
    requires TallyInv(t)
    ensures TallyInv(Step(t, op))
    ensures t.maj23.Some? ==> Step(t, op).maj23 == t.maj23
  {
    match op
    case Add(v) => AddVoteInv(t, v); if t.maj23.Some? { MajorityIsWriteOnce(t, v, 0, NilBlock); }
    case Claim(peer, b) => SetPeerMaj23Inv(t, peer, b);
  }

  ghost function Run(t: Tally, ops: seq<Op>): Tally
    requires TallyInv(t)
    decreases |ops|
  {
    if ops == [] then t
    else
      StepInv(t, ops[0]);
      Run(Step(t, ops[0]), ops[1..])
  }

  // Over every run of votes and peer claims, double-signed votes included, the
  // invariant holds and a majority seen at one point is the majority ever after.
  lemma {:induction false} RunInv(t: Tally, ops: seq<Op>)
    requires TallyInv(t)
    ensures TallyInv(Run(t, ops))
    ensures t.maj23.Some? ==> Run(t, ops).maj23 == t.maj23
    decreases |ops|
  {
    if ops != [] {
      StepInv(t, ops[0]);
      RunInv(Step(t, ops[0]), ops[1..]);
    }
  }
}
