// Agreement on the whole BlockID, header included and whatever the rounds, in every
// run in which a block's bytes are cut into parts in one way only.
module HeaderAgreement {
  import opened Types
  import opened VoteSets
  import opened HeightVoteSets
  import opened Consensus
  import opened NodeInvariants
  import opened Agreement

  // The part-set header of each block.
  type Cut = nat -> PartsHeader

  predicate CutAs(cut: Cut, block: Option<nat>, parts: Option<Parts>) {
    block.Some? ==> HeaderOf(parts) == cut(block.value)
  }

  predicate PrevoteCut(cut: Cut, v: Vote) {
    v.kind.Prevote? && v.block.Block? ==> v.block.parts == cut(v.block.id)
  }

  predicate PrevotesCut(cut: Cut, signed: seq<Signed>) {
    forall i :: 0 <= i < |signed| ==> PrevoteCut(cut, signed[i].vote)
  }

  // Locked parts and prevotes are cut right, and so is a proposal before the precommit.
  predicate CutOK(cut: Cut, s: Node) {
    && CutAs(cut, s.lockedBlock, s.lockedParts)
    && (s.step < PRECOMMIT ==> CutAs(cut, s.proposalBlock, s.proposalParts))
    && PrevotesCut(cut, s.signed)
  }

  // Parts make up a block only if they are its one cut.  No part set has a negative total.
  predicate WellCut(cut: Cut, ev: Event) {
    ev.PartMsg? && ev.outcome.Completes? && ev.header.total >= 0 ==> ev.header == cut(ev.outcome.block)
  }

  // ---- Each step keeps to the cut ----

  lemma SignCut(cut: Cut, c: Chain, e: Env, s: Node, kind: VoteType, b: BlockID)
    requires PrevotesCut(cut, s.signed) && (kind.Prevote? && b.Block? ==> b.parts == cut(b.id))
    ensures var s' := SignAddVote(c, e, s, kind, b); s' == s.(signed := s'.signed) && PrevotesCut(cut, s'.signed)
  {
  }

  lemma EnterPrevoteCut(cut: Cut, c: Chain, e: Env, s: Node, height: int, round: int)
    requires CutOK(cut, s) && round <= s.round
    ensures CutOK(cut, EnterPrevote(c, e, s, height, round))
  {
    hide SignAddVote, PrevotesCut;
    if EnterPrevote(c, e, s, height, round) != s { SignCut(cut, c, e, s, Prevote, PrevoteChoice(c, s)); }
  }

  lemma EnterProposeCut(cut: Cut, c: Chain, e: Env, s: Node, height: int, round: int)
    requires CutOK(cut, s) && round <= s.round
    ensures CutOK(cut, EnterPropose(c, e, s, height, round))
  {
    hide EnterPrevote, IsProposalComplete, PrevotesCut, IsValidator, DecideProposal;
    if EnterPropose(c, e, s, height, round) != s {
      DecideProposalFrame(e, Schedule(s, round, PROPOSE), round);
      EnterPrevoteCut(cut, c, e, Propose(c, e, s, round), height, round);
    }
  }

  lemma EnterNewRoundCut(cut: Cut, c: Chain, e: Env, s: Node, height: int, round: int)
    requires CutOK(cut, s) && 0 <= s.round
    ensures CutOK(cut, EnterNewRound(c, e, s, height, round))
  {
    hide EnterPropose, PrevotesCut, SetRound;
    if EnterNewRound(c, e, s, height, round) != s {
      EnterProposeCut(cut, c, e, StartRound(s, round), height, round);
    }
  }

  lemma WaitCut(cut: Cut, s: Node, height: int, round: int)
    requires CutOK(cut, s) && round <= s.round
    ensures CutOK(cut, EnterPrevoteWait(s, height, round)) && CutOK(cut, EnterPrecommitWait(s, height, round))
  {
    hide PrevotesCut, PrevotesAny, PrecommitsAny;
  }

  lemma EnterPrecommitCut(cut: Cut, c: Chain, e: Env, s: Node, height: int, round: int)
    requires CutOK(cut, s) && round <= s.round
    ensures CutOK(cut, EnterPrecommit(c, e, s, height, round))
  {
    hide SignAddVote, PrevotesCut, POLInfo;
    if EnterPrecommit(c, e, s, height, round) != s {
      SignCut(cut, c, e, s, Precommit, NilBlock);
      SignCut(cut, c, e, Unlocked(s), Precommit, NilBlock);
      if s.votes.Polka(round).Some? {
        var b := s.votes.Polka(round).value;
        SignCut(cut, c, e, s.(lockedRound := round), Precommit, b);
        SignCut(cut, c, e, Locked(s, round), Precommit, b);
        SignCut(cut, c, e, FetchParts(Unlocked(s), b.parts), Precommit, NilBlock);
      }
    }
  }

  lemma TryFinalizeCommitCut(cut: Cut, c: Chain, e: Env, s: Node, height: int)
    requires CutOK(cut, s)
    ensures CutOK(cut, TryFinalizeCommit(c, e, s, height))
  {
    hide PrevotesCut, NewHeightVotes;
  }

  lemma EnterCommitCut(cut: Cut, c: Chain, e: Env, s: Node, height: int, commitRound: int)
    requires CutOK(cut, s)
    ensures CutOK(cut, EnterCommit(c, e, s, height, commitRound))
  {
    hide PrevotesCut, TryFinalizeCommit;
    if s.votes.Decision(commitRound).Some? {
      TryFinalizeCommitCut(cut, c, e, Committing(s, commitRound, s.votes.Decision(commitRound).value), height);
    }
  }

  lemma OnPrevoteCut(cut: Cut, c: Chain, e: Env, s: Node, r: int)
    requires NodeInv(c, s) && CutOK(cut, s) && s.halt == Running
    ensures CutOK(cut, OnPrevote(c, e, s, r))
  {
    hide NodeInv, Advances, PrevotesCut, EnterPrevote, JoinPrevotes, PrevotesAny, IsProposalComplete;
    var s1 := Validating(Unlocking(s, r), r);
    UnlockingInv(c, s, r);
    ValidatingInv(c, Unlocking(s, r), r);
    NodeFacts(c, s1);
    EnterPrevoteCut(cut, c, e, s1, s1.height, s1.round);
    if s1.round <= r { JoinPrevotesCut(cut, c, e, s1, r); }
  }

  lemma JoinPrevotesCut(cut: Cut, c: Chain, e: Env, s: Node, r: int)
    requires NodeInv(c, s) && CutOK(cut, s) && s.halt == Running && s.round <= r
    ensures CutOK(cut, JoinPrevotes(c, e, s, r))
  {
    hide NodeInv, Advances, CutOK, EnterNewRound, EnterPrecommit, EnterPrevote, EnterPrevoteWait;
    NodeFacts(c, s);
    var s1 := EnterNewRound(c, e, s, s.height, r);
    EnterNewRoundCut(cut, c, e, s, s.height, r);
    EnterNewRoundFrame(c, e, s, s.height, r);
    EnterPrecommitCut(cut, c, e, s1, s.height, r);
    EnterPrevoteCut(cut, c, e, s1, s.height, r);
    EnterPrevoteFrame(c, e, s1, s.height, r);
    WaitCut(cut, EnterPrevote(c, e, s1, s.height, r), s.height, r);
  }

  // At the round of the precommits, or already past it.
  lemma JoinedCut(cut: Cut, c: Chain, e: Env, s: Node, r: int)
    requires NodeInv(c, s) && CutOK(cut, s) && s.halt == Running
    ensures var s' := EnterPrecommit(c, e, EnterNewRound(c, e, s, s.height, r), s.height, r);
      && NodeInv(c, s') && CutOK(cut, s') && r <= s'.round
      && (s.votes.Decision(r).Some? ==> s'.votes.Decision(r).Some?)
  {
    hide NodeInv, Advances, CutOK, EnterNewRound, EnterPrecommit;
    NodeFacts(c, s);
    var s1 := EnterNewRound(c, e, s, s.height, r);
    EnterNewRoundInv(c, e, s, s.height, r);
    EnterNewRoundCut(cut, c, e, s, s.height, r);
    EnterNewRoundFrame(c, e, s, s.height, r);
    EnterPrecommitInv(c, e, s1, s.height, r);
    EnterPrecommitCut(cut, c, e, s1, s.height, r);
    EnterPrecommitFrame(c, e, s1, s.height, r);
  }

  lemma OnDecisionCut(cut: Cut, c: Chain, e: Env, s: Node, r: int)
    requires ChainOK(c) && NodeInv(c, s) && CutOK(cut, s) && s.halt == Running && s.votes.Decision(r).Some?
    ensures CutOK(cut, OnDecision(c, e, s, r))
  {
    hide NodeInv, Advances, CutOK, EnterNewRound, EnterPrecommit, EnterCommit;
    var s2 := EnterPrecommit(c, e, EnterNewRound(c, e, s, s.height, r), s.height, r);
    JoinedCut(cut, c, e, s, r);
    var s3 := EnterCommit(c, e, s2, s.height, r);
    EnterCommitInv(c, e, s2, s.height, r);
    EnterCommitCut(cut, c, e, s2, s.height, r);
    NodeFacts(c, s3);
    EnterNewRoundCut(cut, c, e, s3, s3.height, 0);
  }

  lemma OnPrecommitCut(cut: Cut, c: Chain, e: Env, s: Node, r: int)
    requires ChainOK(c) && NodeInv(c, s) && CutOK(cut, s) && s.halt == Running
    ensures CutOK(cut, OnPrecommit(c, e, s, r))
  {
    hide NodeInv, CutOK, EnterNewRound, EnterPrecommit, OnDecision, EnterPrecommitWait, PrecommitsAny;
    NodeFacts(c, s);
    EnterNewRoundCut(cut, c, e, s, s.height, r + 1);
    if s.votes.Decision(r).Some? { OnDecisionCut(cut, c, e, s, r); }
    JoinedCut(cut, c, e, s, r);
    WaitCut(cut, EnterPrecommit(c, e, EnterNewRound(c, e, s, s.height, r), s.height, r), s.height, r);
  }

  lemma HandleVoteCut(cut: Cut, c: Chain, e: Env, s: Node, v: Vote, peer: Peer)
    requires ChainOK(c) && NodeInv(c, s) && CutOK(cut, s) && s.halt == Running
    ensures ShapeAll(s.votes) && (s.lastCommit.Some? ==> Shape(s.lastCommit.value))
    ensures CutOK(cut, HandleVote(c, e, s, v, peer))
  {
    hide NodeInv, Advances, HeightInv, Grows, PrevotesCut, EnterNewRound, OnPrevote, OnPrecommit, AddVote, AddVoteTo;
    NodeFacts(c, s);
    NodeShapes(c, s);
    if v.height + 1 == s.height {
      if s.lastCommit.Some? {
        EnterNewRoundCut(cut, c, e, s.(lastCommit := Some(AddVote(s.lastCommit.value, v).tally)), s.height, 0);
      }
    } else if v.height == s.height {
      var votes := AddVoteTo(s.votes, v, peer).votes;
      AddVoteToInv(s.votes, v, peer);
      GrowInv(c, s, votes);
      OnPrevoteCut(cut, c, e, s.(votes := votes), v.round);
      OnPrecommitCut(cut, c, e, s.(votes := votes), v.round);
    }
  }

  // Before the precommit a block has all its parts, so none can be added under it.
  lemma HandlePartCut(cut: Cut, c: Chain, e: Env, s: Node, height: int, header: PartsHeader, outcome: PartOutcome)
    requires NodeInv(c, s) && CutOK(cut, s) && WellCut(cut, PartMsg(height, header, outcome))
    ensures CutOK(cut, HandlePart(c, e, s, height, header, outcome))
  {
    hide NodeInv, PrevotesCut, EnterPrevote, TryFinalizeCommit;
    NodeFacts(c, s);
    var s1 := s.(proposalParts := Some(Parts(header, true)));
    if outcome.Completes? && HandlePart(c, e, s, height, header, outcome) != s {
      var s2 := Assembled(s1, outcome.block);
      EnterPrevoteCut(cut, c, e, s2, height, s2.round);
      TryFinalizeCommitCut(cut, c, e, s2, height);
    }
  }

  lemma HandleTimeoutCut(cut: Cut, c: Chain, e: Env, s: Node, ti: Timeout)
    requires NodeInv(c, s) && CutOK(cut, s)
    ensures CutOK(cut, HandleTimeout(c, e, s, ti))
  {
    hide NodeInv, CutOK, EnterNewRound, EnterPropose, EnterPrevote, EnterPrecommit;
    NodeFacts(c, s);
    EnterNewRoundCut(cut, c, e, s, ti.height, 0);
    EnterNewRoundCut(cut, c, e, s, ti.height, ti.round + 1);
    if ti in s.timeouts && ti.height == s.height {
      TimeoutIsOwnRound(c, s, ti);
      EnterProposeCut(cut, c, e, s, ti.height, 0);
      EnterPrevoteCut(cut, c, e, s, ti.height, ti.round);
      EnterPrecommitCut(cut, c, e, s, ti.height, ti.round);
    }
  }

  lemma TalliesCut(cut: Cut, s: Node, votes: HeightVotes)
    requires CutOK(cut, s)
    ensures CutOK(cut, s.(votes := votes))
  {
  }

  // A proposal is taken before the precommit only if there are no parts yet.
  lemma HandleProposalCut(cut: Cut, c: Chain, s: Node, p: Proposal)
    requires NodeInv(c, s) && CutOK(cut, s)
    ensures CutOK(cut, HandleProposal(s, p))
  {
    hide NodeInv, PrevotesCut;
    NodeFacts(c, s);
  }

  // Whatever a node is sent, it prevotes for a block only as that block is cut.
  lemma HandleCut(cut: Cut, c: Chain, e: Env, s: Node, ev: Event)
    requires ChainOK(c) && NodeInv(c, s) && CutOK(cut, s) && WellCut(cut, ev)
    ensures ShapeAll(s.votes) && (s.lastCommit.Some? ==> Shape(s.lastCommit.value))
    ensures CutOK(cut, Handle(c, e, s, ev))
  {
    hide NodeInv, CutOK, HandleProposal, HandlePart, HandleVote, HandleTimeout, EnterPropose;
    NodeFacts(c, s);
    NodeShapes(c, s);
    if s.halt == Running {
      match ev
      case ProposalMsg(p) => HandleProposalCut(cut, c, s, p);
      case PartMsg(height, header, outcome) => HandlePartCut(cut, c, e, s, height, header, outcome);
      case VoteMsg(v, peer) => HandleVoteCut(cut, c, e, s, v, peer);
      case TimeoutMsg(ti) => HandleTimeoutCut(cut, c, e, s, ti);
      case TxsAvailable(height) => EnterProposeCut(cut, c, e, s, height, 0);
      case PeerMaj23Msg(_, round, kind, peer, b) =>
        TalliesCut(cut, s, SetPeerMaj23In(s.votes, round, kind, peer, b));
    }
  }

  // ---- The network ----

  predicate LogCut(cut: Cut, log: seq<Entry>) {
    forall i :: 0 <= i < |log| ==> PrevoteCut(cut, log[i].signed.vote)
  }

  predicate NetCut(cut: Cut, net: Net) {
    LogCut(cut, net.log) && forall i :: 0 <= i < |net.nodes| ==> CutOK(cut, net.nodes[i])
  }

  predicate AllWellCut(cut: Cut, ds: seq<Delivery>) {
    forall i :: 0 <= i < |ds| ==> WellCut(cut, ds[i].ev)
  }

  lemma DeliverCut(cut: Cut, c: Chain, keys: set<PubKey>, net: Net, d: Delivery)
    requires ChainOK(c) && NetInv(c, keys, net) && NetCut(cut, net) && d.who < |net.nodes| && WellCut(cut, d.ev)
    ensures Shaped(net.nodes[d.who]) && NetCut(cut, Deliver(c, net, d))
  {
    hide LogInv, NodeInv, Handle;
    var s := net.nodes[d.who];
    assert NodeInNet(c, keys, net.log, s);
    HandleCut(cut, c, d.env, s, d.ev);
  }

  lemma {:induction false} RunNetCut(cut: Cut, c: Chain, keys: set<PubKey>, net: Net, ds: seq<Delivery>)
    requires ChainOK(c) && FaultBound(c, keys) && NetInv(c, keys, net) && NetCut(cut, net) && AllWellCut(cut, ds)
    ensures NetCut(cut, RunNet(c, keys, net, ds))
    decreases |ds|
  {
    hide NetInv, NetCut, Deliver;
    if ds == [] {
    } else if !Possible(net, ds[0]) {
      RunNetCut(cut, c, keys, net, ds[1..]);
    } else {
      DeliverInv(c, keys, net, ds[0]);
      DeliverCut(cut, c, keys, net, ds[0]);
      RunNetCut(cut, c, keys, Deliver(c, net, ds[0]), ds[1..]);
    }
  }

  // A correct validator prevoted for whatever is decided, under the header it is decided under.
  lemma DecidedAsCut(cut: Cut, c: Chain, keys: set<PubKey>, log: seq<Entry>, h: int, d: Decided)
    requires ChainOK(c) && FaultBound(c, keys) && LogInv(c, keys, log) && LogCut(cut, log) && Backed(c, keys, log, h, d)
    ensures d.parts == cut(d.block)
  {
    hide Quorum, FaultBound;
    var b := Block(d.block, d.parts);
    var i := CorrectBacker(c, keys, log, h, d.round, Precommit, b);
    assert Grounded(c, keys, log, i) && Justified(log[i].signed);
    var j := CorrectBacker(c, keys, log[..i], h, d.round, Prevote, b);
    assert PrevoteCut(cut, log[j].signed.vote);
  }

  // In a run in which each block is cut in one way, every decision, at any node and in
  // any round, is on that cut: two nodes agree on block and header alike.
  lemma HeadersAgree(cut: Cut, c: Chain, keys: seq<Option<PubKey>>, ds: seq<Delivery>, i: nat, j: nat, h: int)
    requires ChainOK(c) && DistinctKeys(keys) && FaultBound(c, Keys(InitNet(c, keys).nodes)) && AllWellCut(cut, ds)
    ensures var net := RunFromStart(c, keys, ds);
      && (i < |net.nodes| && h in net.nodes[i].decided ==>
            net.nodes[i].decided[h].parts == cut(net.nodes[i].decided[h].block))
      && (i < |net.nodes| && j < |net.nodes| && h in net.nodes[i].decided && h in net.nodes[j].decided ==>
            var d, d' := net.nodes[i].decided[h], net.nodes[j].decided[h];
            d.block == d'.block && d.parts == d'.parts)
  {
    hide LogInv, FaultBound, Quorum, NodeInv;
    InitNetInv(c, keys);
    var ks := Keys(InitNet(c, keys).nodes);
    var net := RunFromStart(c, keys, ds);
    RunNetInv(c, ks, InitNet(c, keys), ds);
    RunNetCut(cut, c, ks, InitNet(c, keys), ds);
    AgreementTheorem(c, keys, ds, i, j, h);
    forall k | 0 <= k < |net.nodes| && h in net.nodes[k].decided
      ensures net.nodes[k].decided[h].parts == cut(net.nodes[k].decided[h].block)
    {
      assert NodeInNet(c, ks, net.log, net.nodes[k]);
      DecidedAsCut(cut, c, ks, net.log, h, net.nodes[k].decided[h]);
    }
  }
}
