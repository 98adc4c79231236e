// consensus/types/height_vote_set.go in its own form: an object owning one pair
// of VoteSet objects for each round.
module HeightVoteSetObject {
  import opened Types
  import opened Power
  import opened VoteSets
  import opened HeightVoteSets
  import opened VoteSetObject

  datatype RoundVoteSet = RoundVoteSet(prevotes: VoteSet, precommits: VoteSet)

  class HeightVoteSet {
    const chain: ChainID
    const height: int
    const vals: seq<Validator>

    var round: int
    var sets: map<int, RoundVoteSet>
    var catchup: map<Peer, seq<int>>

    // What this object and the VoteSet objects it owns hold, as one value.
    ghost var View: HeightVotes
    ghost var owned: set<VoteSet>

    // Round `r` of `h` is what the pair of VoteSets holds.  Every VoteSet carries its
    // own round and kind, so no two rounds share one.
    ghost predicate Holds(h: HeightVotes, r: int, rv: RoundVoteSet)
      reads owned, this`owned
    {
      && rv.prevotes in owned && rv.prevotes.round == r && rv.prevotes.kind == Prevote
      && rv.precommits in owned && rv.precommits.round == r && rv.precommits.kind == Precommit
      && r in h.sets
      && h.sets[r].prevotes == rv.prevotes.View()
      && h.sets[r].precommits == rv.precommits.View()
    }

    ghost predicate Tied(h: HeightVotes)
      reads this, owned
    {
      && height != 0
      && h.chain == chain && h.height == height && h.vals == vals
      && h.round == round && h.catchup == catchup
      && h.sets.Keys == sets.Keys
      && forall r :: r in sets ==> Holds(h, r, sets[r])
    }

    ghost predicate Valid()
      reads this, owned
    {
      Tied(View) && HeightInv(View)
    }

    // NewHeightVoteSet: round 0 is there from the start.
    constructor (chain: ChainID, height: int, vals: seq<Validator>)
      requires height != 0 && ExactPowers(vals)
      ensures Valid() && fresh(owned) && View == NewHeightVotes(chain, height, vals)
    {
      this.chain, this.height, this.vals := chain, height, vals;
      round := 0;
      catchup := map[];
      var prevotes := new VoteSet(chain, height, 0, Prevote, vals);
      var precommits := new VoteSet(chain, height, 0, Precommit, vals);
      sets := map[0 := RoundVoteSet(prevotes, precommits)];
      owned := {prevotes, precommits};
      View := NewHeightVotes(chain, height, vals);
      new;
      NewHeightInv(chain, height, vals);
    }

    method NewRoundVoteSet(r: int) returns (rv: RoundVoteSet)
      requires height != 0 && ExactPowers(vals)
      ensures fresh(rv.prevotes) && fresh(rv.precommits)
      ensures RoundVotes(rv.prevotes.View(), rv.precommits.View()) == NewRoundVotes(chain, height, r, vals)
      ensures rv.prevotes.round == r && rv.prevotes.kind == Prevote
      ensures rv.precommits.round == r && rv.precommits.kind == Precommit
    {
      var prevotes := new VoteSet(chain, height, r, Prevote, vals);
      var precommits := new VoteSet(chain, height, r, Precommit, vals);
      rv := RoundVoteSet(prevotes, precommits);
    }

    // addRound panics on an existing round; no caller passes one.
    method AddRound(r: int)
      requires Valid() && r !in sets
      modifies this`sets, this`View, this`owned
      ensures Valid() && fresh(owned - old(owned)) && owned >= old(owned)
      ensures View == HeightVoteSets.AddRound(old(View), r) && r in sets
    {
      hide HeightInv, NewRoundVotes, VoteSet.View;
      AddRoundInv(View, r);
      ExactOfInv(View);
      var rv := NewRoundVoteSet(r);
      sets := sets[r := rv];
      View := HeightVoteSets.AddRound(View, r);
      owned := owned + {rv.prevotes, rv.precommits};
    }

    method SetRound(r: int)
      requires Valid() && 0 <= r && !SetRoundPanics(View, r)
      modifies this`round, this`sets, this`View, this`owned
      ensures Valid() && fresh(owned - old(owned)) && owned >= old(owned)
      ensures View == HeightVoteSets.SetRound(old(View), r)
    {
      hide HeightInv, Filled, HeightVoteSets.AddRound, VoteSet.View;
      SetRoundInv(View, r);
      FilledNone(View);
      var q := round + 1;
      while q <= r
        invariant round + 1 <= q <= r + 1
        invariant Valid() && fresh(owned - old(owned)) && owned >= old(owned)
        invariant View == Filled(old(View), q - 1)
        invariant round == old(round)
      {
        FilledNext(old(View), q);
        if q !in sets { AddRound(q); }
        q := q + 1;
      }
      round := r;
      View := View.(round := r);
    }

    method AddVote(v: Vote, peer: Peer) returns (added: bool, err: HeightError)
      requires Valid()
      modifies this, owned
      ensures Valid() && fresh(owned - old(owned)) && owned >= old(owned)
      ensures HeightResult(View, added, err) == AddVoteTo(old(View), v, peer)
    {
      hide HeightInv, HeightVoteSets.AddRound, HeightVoteSets.AddToRound, VoteSet.View, ShapeAll, Tied;
      ValidShape();
      HasRound(v.round);
      KeepsCatchup(View, v.round);
      if v.kind.UnknownType? { return false, OfVote(NoError); }
      if v.round !in sets {
        var rounds := RoundsOf(peer);
        if |rounds| >= 2 { return false, UnwantedRound; }
        CatchUp(v.round, peer);
      }
      added, err := AddToRound(v);
    }

    function RoundsOf(peer: Peer): (rounds: seq<int>)
      requires Valid()
      reads this, owned
      ensures rounds == CatchupRounds(View, peer)
    {
      if peer in catchup then catchup[peer] else []
    }

    // A round the node has not reached, opened at a peer's request
    method CatchUp(r: int, peer: Peer)
      requires Valid() && r !in sets && |CatchupRounds(View, peer)| < 2
      modifies this`sets, this`View, this`owned, this`catchup
      ensures Valid() && fresh(owned - old(owned)) && owned >= old(owned) && r in sets
      ensures View == HeightVoteSets.AddRound(old(View), r).(
                catchup := old(View).catchup[peer := CatchupRounds(old(View), peer) + [r]])
    {
      hide HeightInv, HeightVoteSets.AddRound, VoteSet.View;
      KeepsCatchup(View, r);
      AddRound(r);
      CatchupInv(View, peer, r);
      catchup := catchup[peer := RoundsOf(peer) + [r]];
      View := View.(catchup := catchup);
    }

    method AddToRound(v: Vote) returns (added: bool, err: HeightError)
      requires Valid() && !v.kind.UnknownType? && v.round in sets
      modifies this`View, owned
      ensures Valid()
      ensures ShapeAll(old(View)) && HeightResult(View, added, err) == HeightVoteSets.AddToRound(old(View), v)
    {
      hide HeightInv, VoteSets.AddVote, VoteSet.View, TallyInv, ShapeAll, Shape, Holds;
      AddToRoundInv(View, v);
      TallyOfInv(View, v.round, v.kind);
      var voteSet := SetOf(v.round, v.kind);
      var e;
      added, e := voteSet.AddVote(v);
      err := OfVote(e);
      Touched(voteSet);
      View := HeightVoteSets.AddToRound(View, v).votes;
    }

    // SetPeerMaj23: an error for an unknown vote type and for a second, different
    // claim; a claim about a round that is not there is dropped.
    method SetPeerMaj23(r: int, kind: VoteType, peer: Peer, b: BlockID) returns (ok: bool)
      requires Valid()
      modifies this`View, owned
      ensures Valid() && View == SetPeerMaj23In(old(View), r, kind, peer, b)
      ensures ok <==> !kind.UnknownType? && ClaimOK(old(View).Get(r, kind), peer, b)
    {
      hide HeightInv, VoteSets.SetPeerMaj23, VoteSet.View, TallyInv, Holds;
      HasRound(r);
      if kind.UnknownType? { return false; }
      if r !in sets { return true; }
      SetPeerMaj23InInv(View, r, kind, peer, b);
      var voteSet := SetOf(r, kind);
      ClaimAccepted(voteSet.View(), peer, b);
      ok := voteSet.SetPeerMaj23(peer, b);
      Touched(voteSet);
      View := SetPeerMaj23In(View, r, kind, peer, b);
    }

    // The last round with a polka, and its block.
    method POLInfo() returns (r: int, b: BlockID)
      requires Valid()
      ensures (r, b) == HeightVoteSets.POLInfo(View, View.round)
    {
      r := round;
      while r >= 0
        invariant -1 <= r <= round
        invariant HeightVoteSets.POLInfo(View, round) == HeightVoteSets.POLInfo(View, r)
      {
        assert Holds(View, r, sets[r]);
        if sets[r].prevotes.maj23.Some? { return r, sets[r].prevotes.maj23.value; }
        r := r - 1;
      }
      b := NilBlock;
    }

    function Round(): (r: int)
      requires Valid()
      reads this, owned
      ensures r == View.round
    {
      round
    }

    // Prevotes(r).TwoThirdsMajority()
    function Polka(r: int): (b: Option<BlockID>)
      requires Valid()
      reads this, owned
      ensures b == View.Polka(r)
    {
      if r in sets then assert Holds(View, r, sets[r]); sets[r].prevotes.maj23 else None
    }

    // Precommits(r).TwoThirdsMajority()
    function Decision(r: int): (b: Option<BlockID>)
      requires Valid()
      reads this, owned
      ensures b == View.Decision(r)
    {
      if r in sets then assert Holds(View, r, sets[r]); sets[r].precommits.maj23 else None
    }

    // Precommits(r), null when there is no such round
    function Precommits(r: int): (t: VoteSet?)
      requires Valid()
      reads this, owned
      ensures (t != null) == (r in View.sets)
      ensures t != null ==> t in owned && t.Valid() && t.View() == View.sets[r].precommits
    {
      if r in sets then
        assert Holds(View, r, sets[r]);
        TallyOfInv(View, r, Precommit);
        sets[r].precommits
      else null
    }

    // Prevotes(r).HasTwoThirdsAny()
    predicate PrevotesAny(r: int)
      requires Valid()
      reads this, owned
      ensures PrevotesAny(r) <==> r in View.sets && View.sets[r].prevotes.HasTwoThirdsAny()
    {
      r in sets && assert Holds(View, r, sets[r]); sets[r].prevotes.sum > Threshold(sets[r].prevotes.vals)
    }

    // Precommits(r).HasTwoThirdsAny()
    predicate PrecommitsAny(r: int)
      requires Valid()
      reads this, owned
      ensures PrecommitsAny(r) <==> r in View.sets && View.sets[r].precommits.HasTwoThirdsAny()
    {
      r in sets && assert Holds(View, r, sets[r]); sets[r].precommits.sum > Threshold(sets[r].precommits.vals)
    }

    // Precommits(r).HasAll()
    predicate PrecommitsAll(r: int)
      requires Valid()
      reads this, owned
      ensures PrecommitsAll(r) <==> r in View.sets && View.sets[r].precommits.HasAll()
    {
      r in sets && assert Holds(View, r, sets[r]); sets[r].precommits.sum == TotalVotingPower(sets[r].precommits.vals)
    }

    lemma ValidShape()
      requires Valid()
      ensures ShapeAll(View)
    {
    }

    // getVoteSet, for a round that is there
    function SetOf(r: int, kind: VoteType): (t: VoteSet)
      requires Valid() && r in sets && !kind.UnknownType?
      reads this, owned
      ensures t in owned && t.Valid() && r in View.sets && Some(t.View()) == View.Get(r, kind)
      ensures IsSetOf(t, r, kind) && t.round == r && t.kind == kind
    {
      assert Holds(View, r, sets[r]);
      TallyOfInv(View, r, kind);
      if kind.Prevote? then sets[r].prevotes else sets[r].precommits
    }

    lemma HasRound(r: int)
      requires Valid()
      ensures r in sets <==> r in View.sets
    {
    }

    predicate IsSetOf(voteSet: VoteSet, r: int, kind: VoteType)
      reads this
    {
      r in sets && voteSet == if kind.Prevote? then sets[r].prevotes else sets[r].precommits
    }

    // A call on one VoteSet leaves the others as they were.
    twostate lemma Touched(voteSet: VoteSet)
      requires old(Tied(View)) && unchanged(this) && IsSetOf(voteSet, voteSet.round, voteSet.kind)
      requires forall o :: o in owned && o != voteSet ==> o.View() == old(o.View())
      ensures forall q :: q in sets ==>
        Holds(Put(View, voteSet.round, voteSet.kind, voteSet.View()), q, sets[q])
    {
      hide VoteSet.View;
      var h := Put(View, voteSet.round, voteSet.kind, voteSet.View());
      assert old(Holds(View, voteSet.round, sets[voteSet.round]));
      forall q | q in sets ensures Holds(h, q, sets[q]) { assert old(Holds(View, q, sets[q])); }
    }
  }

  lemma KeepsCatchup(h: HeightVotes, r: int)
    ensures HeightVoteSets.AddRound(h, r).catchup == h.catchup
  {
  }

  // The tallies with one of them replaced, if there is one.
  function Put(h: HeightVotes, r: int, kind: VoteType, t: Tally): HeightVotes {
    if r in h.sets then WithTally(h, r, kind, t) else h
  }

  // Whether a VoteSet accepts a peer's claim; there is nothing to refuse without one.
  predicate ClaimOK(t: Option<Tally>, peer: Peer, b: BlockID) {
    t.Some? && peer in t.value.peers ==> t.value.peers[peer] == b
  }

  lemma ClaimAccepted(t: Tally, peer: Peer, b: BlockID)
    ensures VoteSets.SetPeerMaj23(t, peer, b).1 <==> ClaimOK(Some(t), peer, b)
  {
  }

  lemma ExactOfInv(h: HeightVotes)
    requires HeightInv(h)
    ensures ExactPowers(h.vals)
  {
  }

  lemma TallyOfInv(h: HeightVotes, r: int, kind: VoteType)
    requires HeightInv(h) && r in h.sets && !kind.UnknownType?
    ensures TallyInv(h.Get(r, kind).value) && Shape(h.Get(r, kind).value)
    ensures ShapeAll(h)
  {
  }

  lemma FilledNone(h: HeightVotes)
    ensures Filled(h, h.round) == h
  {
  }

  lemma FilledNext(h: HeightVotes, q: int)
    requires h.round < q
    ensures var f := Filled(h, q - 1);
      Filled(h, q) == if q in f.sets then f else HeightVoteSets.AddRound(f, q)
  {
    hide NewRoundVotes;
    var f := Filled(h, q - 1);
    if q in f.sets {
      assert Filled(h, q).sets == f.sets;
    } else {
      assert Filled(h, q).sets == HeightVoteSets.AddRound(f, q).sets;
    }
  }
}
