// types/vote_set.go in its own form: an object updated in place.
// Its methods are proved to compute what module VoteSets defines.
module VoteSetObject {
  import opened Types
  import opened Power
  import opened VoteSets

  class VoteSet {
    const chain: ChainID
    const height: int
    const round: int
    const kind: VoteType
    const vals: seq<Validator>

    var bits: seq<bool>
    var votes: seq<Option<Vote>>
    var sum: int
    var maj23: Option<BlockID>
    var byBlock: map<BlockID, BlockVotes>
    var peers: map<Peer, BlockID>

    ghost function View(): Tally
      reads this
    {
      Tally(chain, height, round, kind, vals, bits, votes, sum, maj23, byBlock, peers)
    }

    ghost predicate Valid()
      reads this
    {
      TallyInv(View())
    }

    // NewVoteSet refuses height 0.
    constructor (chain: ChainID, height: int, round: int, kind: VoteType, vals: seq<Validator>)
      requires height != 0 && ExactPowers(vals)
      ensures Valid() && View() == NewTally(chain, height, round, kind, vals)
    {
      this.chain, this.height, this.round, this.kind, this.vals := chain, height, round, kind, vals;
      bits := seq(|vals|, _ => false);
      votes := seq(|vals|, _ => None);
      sum := 0;
      maj23 := None;
      byBlock := map[];
      peers := map[];
      new;
      NewTallyInv(chain, height, round, kind, vals);
    }

    method GetVote(i: int, b: BlockID) returns (v: Option<Vote>)
      requires Valid() && 0 <= i < |vals|
      ensures v == VoteSets.GetVote(View(), i, b)
    {
      if votes[i].Some? && votes[i].value.block == b { return votes[i]; }
      if b in byBlock { return byBlock[b].votes[i]; }
      return None;
    }

    method AddVote(v: Vote) returns (added: bool, err: VoteError)
      requires Valid()
      modifies this
      ensures Valid()
      ensures AddResult(View(), added, err) == VoteSets.AddVote(old(View()), v)
    {
      AddVoteInv(View(), v);
      var i := v.index;
      if i < 0 { return false, InvalidIndex; }
      if v.addr == 0 { return false, InvalidAddress; }
      if v.height != height || v.round != round || v.kind != kind { return false, UnexpectedStep; }
      if i >= |vals| { return false, InvalidIndex; }
      if v.addr != vals[i].addr { return false, InvalidAddress; }
      var existing := GetVote(i, v.block);
      if existing.Some? {
        if existing.value.sig == v.sig { return false, NoError; }
        return false, NonDeterministicSignature;
      }
      if !v.Verify(chain, vals[i].key) { return false, InvalidSignature; }
      var conflicting;
      added, conflicting := AddVerifiedVote(v);
      if conflicting.Some? { return added, ConflictingVotes(conflicting.value); }
      if !added {
        assert false; // "Expected to add non-conflicting vote"
      }
      return added, NoError;
    }

    method AddVerifiedVote(v: Vote) returns (added: bool, conflicting: Option<Vote>)
      requires Fresh(View(), v)
      modifies this
      ensures View() == AddVerified(old(View()), v).tally
      ensures added == AddVerified(old(View()), v).added
      ensures conflicting == old(votes[v.index])
    {
      var i, b, power := v.index, v.block, vals[v.index].power;
      conflicting := None;
      if votes[i].Some? {
        if votes[i].value.block == b {
          assert false; // "addVerifiedVote does not expect duplicate votes"
        } else {
          conflicting := votes[i];
        }
        if maj23 == Some(b) {
          votes := votes[i := Some(v)];
          bits := bits[i := true];
        }
      } else {
        votes := votes[i := Some(v)];
        bits := bits[i := true];
        sum := sum + power;
      }

      var entry;
      if b in byBlock {
        entry := byBlock[b];
        if conflicting.Some? && !entry.peerMaj23 { return false, conflicting; }
      } else {
        if conflicting.Some? { return false, conflicting; }
        entry := NewBlockVotes(false, |vals|);
        byBlock := byBlock[b := entry];
      }

      var origSum, quorum := entry.sum, Threshold(vals) + 1;
      entry := entry.Add(v, power);
      byBlock := byBlock[b := entry];
      if origSum < quorum <= entry.sum && maj23.None? {
        maj23 := Some(b);
        CopyOver(entry.votes);
      }
      return true, conflicting;
    }

    // Copy the votes of a block over the canonical ones.
    method CopyOver(over: seq<Option<Vote>>)
      requires |over| == |votes|
      modifies this`votes
      ensures votes == Overlay(old(votes), over)
    {
      var k := 0;
      while k < |over|
        invariant 0 <= k <= |over| == |votes|
        invariant forall j :: 0 <= j < k ==> votes[j] == if over[j].Some? then over[j] else old(votes)[j]
        invariant forall j :: k <= j < |votes| ==> votes[j] == old(votes)[j]
      {
        if over[k].Some? { votes := votes[k := over[k]]; }
        k := k + 1;
      }
    }

    method SetPeerMaj23(peer: Peer, b: BlockID) returns (ok: bool)
      requires Valid()
      modifies this
      ensures Valid() && (View(), ok) == VoteSets.SetPeerMaj23(old(View()), peer, b)
    {
      SetPeerMaj23Inv(View(), peer, b);
      if peer in peers { return peers[peer] == b; }
      peers := peers[peer := b];
      if b in byBlock {
        if byBlock[b].peerMaj23 {
          assert byBlock[b := byBlock[b].(peerMaj23 := true)] == byBlock;
          return true;
        }
        byBlock := byBlock[b := byBlock[b].(peerMaj23 := true)];
      } else {
        byBlock := byBlock[b := NewBlockVotes(true, |vals|)];
      }
      return true;
    }

    predicate HasAll()
      reads this
      ensures HasAll() == View().HasAll()
    {
      sum == TotalVotingPower(vals)
    }

    lemma ValidShape()
      requires Valid()
      ensures Shape(View())
    {
    }

    predicate HasTwoThirdsMajority()
      reads this
    {
      maj23.Some?
    }

    // A majority for one block is in particular a majority of votes.
    predicate HasTwoThirdsAny()
      requires Valid()
      reads this
      ensures maj23.Some? ==> HasTwoThirdsAny()
    {
      MajorityImpliesAny(View());
      sum > Threshold(vals)
    }
  }

  lemma MajorityImpliesAny(t: Tally)
    requires TallyInv(t)
    ensures t.maj23.Some? ==> t.HasTwoThirdsAny()
  {
    if t.maj23.Some? { var who := MajorityIsBacked(t); }
  }
}
