// What keeps a node going: a waiting node always has the timeout that moves it on,
// and a decision on record is carried out as soon as the block is there.
module NodeProgress {
  import opened Types
  import opened VoteSets
  import opened HeightVoteSets
  import opened Consensus
  import opened NodeInvariants
  import opened NodeTheorems

  // The steps at which a node waits for time to pass.
  predicate Waits(step: int) {
    step in {NEW_HEIGHT, PROPOSE, PREVOTE_WAIT, PRECOMMIT_WAIT}
  }

  predicate Armed(s: Node) {
    s.halt == Running && Waits(s.step) ==> Timeout(s.height, s.round, s.step) in s.timeouts
  }

  lemma EnterPrevoteArmed(c: Chain, e: Env, s: Node, height: int, round: int)
    requires Armed(s)
    ensures Armed(EnterPrevote(c, e, s, height, round))
  {
  }

  lemma EnterProposeArmed(c: Chain, e: Env, s: Node, height: int, round: int)
    requires Armed(s)
    ensures Armed(EnterPropose(c, e, s, height, round))
  {
  }

  lemma EnterNewRoundArmed(c: Chain, e: Env, s: Node, height: int, round: int)
    requires Armed(s)
    ensures Armed(EnterNewRound(c, e, s, height, round))
  {
  }

  lemma EnterPrecommitArmed(c: Chain, e: Env, s: Node, height: int, round: int)
    requires Armed(s)
    ensures Armed(EnterPrecommit(c, e, s, height, round))
  {
  }

  lemma WaitArmed(s: Node, height: int, round: int)
    requires Armed(s)
    ensures Armed(EnterPrevoteWait(s, height, round)) && Armed(EnterPrecommitWait(s, height, round))
  {
  }

  lemma TryFinalizeCommitArmed(c: Chain, e: Env, s: Node, height: int)
    requires Armed(s)
    ensures Armed(TryFinalizeCommit(c, e, s, height))
  {
  }

  lemma EnterCommitArmed(c: Chain, e: Env, s: Node, height: int, commitRound: int)
    requires Armed(s)
    ensures Armed(EnterCommit(c, e, s, height, commitRound))
  {
    hide TryFinalizeCommit;
    match s.votes.Decision(commitRound)
    case None =>
    case Some(b) => TryFinalizeCommitArmed(c, e, Committing(s, commitRound, b), height);
  }

  lemma OnPrevoteArmed(c: Chain, e: Env, s: Node, r: int)
    requires Armed(s)
    ensures Armed(OnPrevote(c, e, s, r))
  {
    hide EnterNewRound, EnterPrevote, EnterPrecommit, EnterPrevoteWait, IsProposalComplete;
    var s1 := Validating(Unlocking(s, r), r);
    var s2 := EnterNewRound(c, e, s1, s1.height, r);
    EnterNewRoundArmed(c, e, s1, s1.height, r);
    EnterPrecommitArmed(c, e, s2, s1.height, r);
    EnterPrevoteArmed(c, e, s2, s1.height, r);
    WaitArmed(EnterPrevote(c, e, s2, s1.height, r), s1.height, r);
    EnterPrevoteArmed(c, e, s1, s1.height, s1.round);
  }

  lemma OnPrecommitArmed(c: Chain, e: Env, s: Node, r: int)
    requires Armed(s)
    ensures Armed(OnPrecommit(c, e, s, r))
  {
    hide EnterNewRound, EnterPrecommit, EnterCommit, EnterPrecommitWait;
    EnterNewRoundArmed(c, e, s, s.height, r + 1);
    var s1 := EnterNewRound(c, e, s, s.height, r);
    EnterNewRoundArmed(c, e, s, s.height, r);
    var s2 := EnterPrecommit(c, e, s1, s.height, r);
    EnterPrecommitArmed(c, e, s1, s.height, r);
    WaitArmed(s2, s.height, r);
    var s3 := EnterCommit(c, e, s2, s.height, r);
    EnterCommitArmed(c, e, s2, s.height, r);
    EnterNewRoundArmed(c, e, s3, s3.height, 0);
  }

  lemma HandleVoteArmed(c: Chain, e: Env, s: Node, v: Vote, peer: Peer)
    requires ShapeAll(s.votes) && (s.lastCommit.Some? ==> Shape(s.lastCommit.value)) && Armed(s)
    ensures Armed(HandleVote(c, e, s, v, peer))
  {
    hide EnterNewRound, OnPrevote, OnPrecommit, AddVote, AddVoteTo;
    if v.height + 1 == s.height {
      if s.lastCommit.Some? {
        var s1 := s.(lastCommit := Some(AddVote(s.lastCommit.value, v).tally));
        EnterNewRoundArmed(c, e, s1, s1.height, 0);
      }
    } else {
      var s1 := s.(votes := AddVoteTo(s.votes, v, peer).votes);
      OnPrevoteArmed(c, e, s1, v.round);
      OnPrecommitArmed(c, e, s1, v.round);
    }
  }

  lemma HandlePartArmed(c: Chain, e: Env, s: Node, height: int, header: PartsHeader, outcome: PartOutcome)
    requires Armed(s)
    ensures Armed(HandlePart(c, e, s, height, header, outcome))
  {
    hide EnterPrevote, TryFinalizeCommit, IsProposalComplete;
    if outcome.Completes? {
      var s2 := Assembled(s.(proposalParts := Some(Parts(header, true))), outcome.block);
      EnterPrevoteArmed(c, e, s2, height, s2.round);
      TryFinalizeCommitArmed(c, e, s2, height);
    }
  }

  lemma HandleTimeoutArmed(c: Chain, e: Env, s: Node, ti: Timeout)
    requires Armed(s)
    ensures Armed(HandleTimeout(c, e, s, ti))
  {
    hide EnterNewRound, EnterPropose, EnterPrevote, EnterPrecommit;
    EnterNewRoundArmed(c, e, s, ti.height, 0);
    EnterNewRoundArmed(c, e, s, ti.height, ti.round + 1);
    EnterProposeArmed(c, e, s, ti.height, 0);
    EnterPrevoteArmed(c, e, s, ti.height, ti.round);
    EnterPrecommitArmed(c, e, s, ti.height, ti.round);
  }

  lemma HandleArmed(c: Chain, e: Env, s: Node, ev: Event)
    requires ShapeAll(s.votes) && (s.lastCommit.Some? ==> Shape(s.lastCommit.value)) && Armed(s)
    ensures Armed(Handle(c, e, s, ev))
  {
    hide HandlePart, HandleVote, HandleTimeout, EnterPropose;
    if s.halt == Running {
      match ev
      case ProposalMsg(p) =>
      case PartMsg(height, header, outcome) => HandlePartArmed(c, e, s, height, header, outcome);
      case VoteMsg(v, peer) => HandleVoteArmed(c, e, s, v, peer);
      case TimeoutMsg(ti) => HandleTimeoutArmed(c, e, s, ti);
      case TxsAvailable(height) => EnterProposeArmed(c, e, s, height, 0);
      case PeerMaj23Msg(height, round, kind, peer, b) =>
    }
  }

  // In every reachable state a node that waits has scheduled the timeout for it ...
  lemma {:induction false} RunArmed(c: Chain, s: Node, inputs: seq<Input>)
    requires ChainOK(c) && NodeInv(c, s) && Armed(s)
    ensures Armed(RunNode(c, s, inputs))
    decreases |inputs|
  {
    hide NodeInv, Handle;
    if inputs != [] {
      HandleInv(c, inputs[0].env, s, inputs[0].ev);
      HandleArmed(c, inputs[0].env, s, inputs[0].ev);
      RunArmed(c, Handle(c, inputs[0].env, s, inputs[0].ev), inputs[1..]);
    }
  }

  // ---- At Commit the node is collecting the decided block, which it does not have ----

  predicate Fetching(s: Node) {
    s.halt == Running && s.step == COMMIT ==>
      var d := s.votes.Decision(s.commitRound);
      d.Some? && !HashesTo(s.proposalBlock, d.value) && HasHeader(s.proposalParts, d.value.parts)
  }

  // No other step leads to Commit, or changes anything there.
  predicate Elsewhere(s: Node, s': Node) {
    s' == s || s'.step != COMMIT || s'.halt != Running
  }

  lemma StepsElsewhere(c: Chain, e: Env, s: Node, height: int, round: int)
    ensures Elsewhere(s, EnterPrevote(c, e, s, height, round))
    ensures Elsewhere(s, EnterPropose(c, e, s, height, round))
    ensures Elsewhere(s, EnterPrecommit(c, e, s, height, round))
    ensures Elsewhere(s, EnterPrevoteWait(s, height, round)) && Elsewhere(s, EnterPrecommitWait(s, height, round))
  {
    hide DecideProposal, IsProposalComplete, SignAddVote, IsValidator, Precommitted;
    DecideProposalFrame(e, Schedule(s, round, PROPOSE), round);
  }

  lemma NewRoundElsewhere(c: Chain, e: Env, s: Node, height: int, round: int)
    ensures Elsewhere(s, EnterNewRound(c, e, s, height, round))
  {
    hide EnterPropose, SetRound;
    StepsElsewhere(c, e, StartRound(s, round), height, round);
  }

  lemma ElsewhereFetching(s: Node, s': Node)
    requires Fetching(s) && Elsewhere(s, s')
    ensures Fetching(s')
  {
  }

  // tryFinalizeCommit does not come back to wait with the block at hand.
  lemma TryFinalizeCommitFetching(c: Chain, e: Env, s: Node, height: int)
    requires s.step == COMMIT && s.votes.Decision(s.commitRound).Some?
    requires !HashesTo(s.proposalBlock, s.votes.Decision(s.commitRound).value) ==> Fetching(s)
    ensures Fetching(TryFinalizeCommit(c, e, s, height))
  {
  }

  lemma EnterCommitFetching(c: Chain, e: Env, s: Node, height: int, commitRound: int)
    requires Fetching(s)
    ensures Fetching(EnterCommit(c, e, s, height, commitRound))
  {
    hide TryFinalizeCommit;
    match s.votes.Decision(commitRound)
    case None =>
    case Some(b) => TryFinalizeCommitFetching(c, e, Committing(s, commitRound, b), height);
  }

  lemma OnPrevoteFetching(c: Chain, e: Env, s: Node, r: int)
    requires Fetching(s)
    ensures Fetching(OnPrevote(c, e, s, r))
  {
    hide EnterNewRound, EnterPrevote, EnterPrecommit, EnterPrevoteWait, IsProposalComplete;
    var s1 := Validating(Unlocking(s, r), r);
    assert Fetching(s1);
    hide Fetching;
    var s2 := EnterNewRound(c, e, s1, s1.height, r);
    NewRoundElsewhere(c, e, s1, s1.height, r);
    ElsewhereFetching(s1, s2);
    StepsElsewhere(c, e, s2, s1.height, r);
    ElsewhereFetching(s2, EnterPrecommit(c, e, s2, s1.height, r));
    var s3 := EnterPrevote(c, e, s2, s1.height, r);
    ElsewhereFetching(s2, s3);
    StepsElsewhere(c, e, s3, s1.height, r);
    ElsewhereFetching(s3, EnterPrevoteWait(s3, s1.height, r));
    StepsElsewhere(c, e, s1, s1.height, s1.round);
    ElsewhereFetching(s1, EnterPrevote(c, e, s1, s1.height, s1.round));
  }

  lemma OnPrecommitFetching(c: Chain, e: Env, s: Node, r: int)
    requires Fetching(s)
    ensures Fetching(OnPrecommit(c, e, s, r))
  {
    hide Fetching, EnterNewRound, EnterPrecommit, EnterCommit, EnterPrecommitWait;
    NewRoundElsewhere(c, e, s, s.height, r + 1);
    ElsewhereFetching(s, EnterNewRound(c, e, s, s.height, r + 1));
    var s1 := EnterNewRound(c, e, s, s.height, r);
    NewRoundElsewhere(c, e, s, s.height, r);
    ElsewhereFetching(s, s1);
    var s2 := EnterPrecommit(c, e, s1, s.height, r);
    StepsElsewhere(c, e, s1, s.height, r);
    ElsewhereFetching(s1, s2);
    StepsElsewhere(c, e, s2, s.height, r);
    ElsewhereFetching(s2, EnterPrecommitWait(s2, s.height, r));
    var s3 := EnterCommit(c, e, s2, s.height, r);
    EnterCommitFetching(c, e, s2, s.height, r);
    NewRoundElsewhere(c, e, s3, s3.height, 0);
    ElsewhereFetching(s3, EnterNewRound(c, e, s3, s3.height, 0));
  }

  // A decision on record stays.
  lemma GrowFetching(s: Node, votes: HeightVotes)
    requires Fetching(s) && Grows(s.votes, votes)
    ensures Fetching(s.(votes := votes))
  {
  }

  lemma HandleVoteFetching(c: Chain, e: Env, s: Node, v: Vote, peer: Peer)
    requires NodeInv(c, s) && Fetching(s)
    requires ShapeAll(s.votes) && (s.lastCommit.Some? ==> Shape(s.lastCommit.value))
    ensures Fetching(HandleVote(c, e, s, v, peer))
  {
    NodeFacts(c, s);
    hide NodeInv, EnterNewRound, OnPrevote, OnPrecommit, AddVote, AddVoteTo, HeightInv, Grows, Shape;
    if v.height + 1 == s.height {
      if s.lastCommit.Some? {
        var s1 := s.(lastCommit := Some(AddVote(s.lastCommit.value, v).tally));
        NewRoundElsewhere(c, e, s1, s1.height, 0);
      }
    } else if v.height == s.height {
      var s1 := s.(votes := AddVoteTo(s.votes, v, peer).votes);
      AddVoteToInv(s.votes, v, peer);
      GrowFetching(s, s1.votes);
      OnPrevoteFetching(c, e, s1, v.round);
      OnPrecommitFetching(c, e, s1, v.round);
    }
  }

  lemma HandlePartFetching(c: Chain, e: Env, s: Node, height: int, header: PartsHeader, outcome: PartOutcome)
    requires Fetching(s)
    ensures Fetching(HandlePart(c, e, s, height, header, outcome))
  {
    hide EnterPrevote, TryFinalizeCommit, IsProposalComplete;
    if outcome.Completes? && HasHeader(s.proposalParts, header) {
      var s2 := Assembled(s.(proposalParts := Some(Parts(header, true))), outcome.block);
      StepsElsewhere(c, e, s2, height, s2.round);
      if s.halt != Running { TryFinalizeCommitHalted(c, e, s2, height); }
      else if s.step == COMMIT { TryFinalizeCommitFetching(c, e, s2, height); }
    }
  }

  lemma TryFinalizeCommitHalted(c: Chain, e: Env, s: Node, height: int)
    requires s.halt != Running
    ensures TryFinalizeCommit(c, e, s, height) == s
  {
  }

  lemma HandleTimeoutFetching(c: Chain, e: Env, s: Node, ti: Timeout)
    requires Fetching(s)
    ensures Fetching(HandleTimeout(c, e, s, ti))
  {
    hide EnterNewRound, EnterPropose, EnterPrevote, EnterPrecommit;
    NewRoundElsewhere(c, e, s, ti.height, 0);
    NewRoundElsewhere(c, e, s, ti.height, ti.round + 1);
    StepsElsewhere(c, e, s, ti.height, 0);
    StepsElsewhere(c, e, s, ti.height, ti.round);
  }

  lemma HandleProposalFetching(s: Node, p: Proposal)
    requires Fetching(s)
    ensures Fetching(HandleProposal(s, p))
  {
  }

  lemma HandleFetching(c: Chain, e: Env, s: Node, ev: Event)
    requires NodeInv(c, s) && Fetching(s)
    ensures ShapeAll(s.votes) && (s.lastCommit.Some? ==> Shape(s.lastCommit.value))
    ensures Fetching(Handle(c, e, s, ev))
  {
    NodeFacts(c, s);
    NodeShapes(c, s);
    hide NodeInv, HandleProposal, HandlePart, HandleVote, HandleTimeout, EnterPropose, HeightInv, Grows, SetPeerMaj23In,
         ShapeAll, Shape, Fetching, Elsewhere;
    if s.halt == Running {
      match ev
      case ProposalMsg(p) => HandleProposalFetching(s, p);
      case PartMsg(height, header, outcome) => HandlePartFetching(c, e, s, height, header, outcome);
      case VoteMsg(v, peer) => HandleVoteFetching(c, e, s, v, peer);
      case TimeoutMsg(ti) => HandleTimeoutFetching(c, e, s, ti);
      case TxsAvailable(height) =>
        StepsElsewhere(c, e, s, height, 0);
        ElsewhereFetching(s, EnterPropose(c, e, s, height, 0));
      case PeerMaj23Msg(height, round, kind, peer, b) =>
        SetPeerMaj23InInv(s.votes, round, kind, peer, b);
        GrowFetching(s, SetPeerMaj23In(s.votes, round, kind, peer, b));
    }
  }

  // In every reachable state a node at Commit is collecting the parts of the decided
  // block, under the header decided, and does not have the block.
  lemma {:induction false} RunFetching(c: Chain, s: Node, inputs: seq<Input>)
    requires ChainOK(c) && NodeInv(c, s) && Fetching(s)
    ensures Fetching(RunNode(c, s, inputs))
    decreases |inputs|
  {
    hide NodeInv, Handle, Fetching;
    if inputs != [] {
      HandleInv(c, inputs[0].env, s, inputs[0].ev);
      HandleFetching(c, inputs[0].env, s, inputs[0].ev);
      RunFetching(c, Handle(c, inputs[0].env, s, inputs[0].ev), inputs[1..]);
    }
  }

  // ---- Leaving a step ----

  lemma EnterNewRoundMoves(c: Chain, e: Env, s: Node, round: int)
    requires NodeInv(c, s) && s.halt == Running
    requires s.round < round || (s.round == round && s.step == NEW_HEIGHT)
    ensures var s' := EnterNewRound(c, e, s, s.height, round);
      HRSBefore(s.height, s.round, s.step, s'.height, s'.round, s'.step)
  {
    hide NodeInv, LockKept, EnterPropose, SetRound;
    var s1 := StartRound(s, round);
    StartRoundInv(c, s, round);
    EnterProposeInv(c, e, s1, s.height, round);
  }

  lemma WaitFacts(c: Chain, s: Node)
    requires NodeInv(c, s)
    ensures s.step == NEW_HEIGHT ==> s.round == 0
  {
  }

  // ... and when it fires, the node leaves that step for good.
  lemma TimeoutMovesOn(c: Chain, e: Env, s: Node)
    requires NodeInv(c, s) && Armed(s) && s.halt == Running && Waits(s.step)
    ensures var s' := HandleTimeout(c, e, s, Timeout(s.height, s.round, s.step));
      HRSBefore(s.height, s.round, s.step, s'.height, s'.round, s'.step)
  {
    hide NodeInv, EnterNewRound, EnterPropose, Precommitted;
    WaitFacts(c, s);
    EnterNewRoundMoves(c, e, s, s.round + 1);
    if s.step == NEW_HEIGHT { EnterNewRoundMoves(c, e, s, 0); }
    EnterPrecommitFrame(c, e, s, s.height, s.round);
  }

  // The node has the block, whole and under the very header decided: as its lock, or
  // else as its proposal.
  predicate Holds(s: Node, b: BlockID) {
    b.Block? && if s.lockedBlock == Some(b.id) then s.lockedParts == Some(Parts(b.parts, true))
                else s.proposalBlock == Some(b.id) && s.proposalParts == Some(Parts(b.parts, true))
  }

  // The height after a decision: the block is final, and its precommits are kept.
  predicate MovedOn(s: Node, s': Node, r: int, b: BlockID)
    requires b.Block?
  {
    && s'.halt == Running && s'.height == s.height + 1 && s'.step == NEW_HEIGHT
    && s'.decided == s.decided[s.height := Decided(b.id, b.parts, r)]
    && r in s.votes.sets && s'.lastCommit == Some(s.votes.sets[r].precommits)
  }

  // enterCommit finalizes at once when the decided block is at hand.
  lemma EnterCommitDecides(c: Chain, e: Env, s: Node, r: int, b: BlockID)
    requires s.halt == Running && s.step < COMMIT && s.votes.Decision(r) == Some(b) && r >= 0
    requires Holds(s, b) && c.valid(s.height, b.id) && e.applies
    ensures MovedOn(s, EnterCommit(c, e, s, s.height, r), r, b)
  {
  }

  // Otherwise it fetches the block, and finalizes when the last part is in.
  lemma EnterCommitFetches(c: Chain, e: Env, s: Node, r: int, b: BlockID)
    requires s.halt == Running && s.step < COMMIT && s.votes.Decision(r) == Some(b) && r >= 0
    requires !HashesTo(s.lockedBlock, b) && !HashesTo(s.proposalBlock, b) && b.parts.total >= 0
    ensures var s' := EnterCommit(c, e, s, s.height, r);
      && s'.halt == Running && s'.step == COMMIT && s'.commitRound == r && s'.height == s.height && s'.votes == s.votes
      && HasHeader(s'.proposalParts, b.parts)
  {
  }

  lemma LastPartDecides(c: Chain, e: Env, s: Node, b: BlockID)
    requires s.halt == Running && s.step == COMMIT && s.commitRound >= 0
    requires s.votes.Decision(s.commitRound) == Some(b) && b.Block?
    requires s.proposalParts == Some(Parts(b.parts, false)) && c.valid(s.height, b.id) && e.applies
    ensures MovedOn(s, HandlePart(c, e, s, s.height, b.parts, Completes(b.id)), s.commitRound, b)
  {
    hide NewHeightVotes;
  }

  // A vote its tally counts is handed on with the new tally.
  lemma CountedVote(c: Chain, e: Env, s: Node, v: Vote, peer: Peer, t: Tally)
    requires s.halt == Running && ShapeAll(s.votes) && (s.lastCommit.Some? ==> Shape(s.lastCommit.value))
    requires v.height == s.height && !v.kind.UnknownType? && v.round in s.votes.sets && Shape(t)
    requires var r := AddVote(s.votes.Get(v.round, v.kind).value, v); r.added && r.tally == t
    ensures var s1 := s.(votes := WithTally(s.votes, v.round, v.kind, t));
      && ShapeAll(s1.votes)
      && Handle(c, e, s, VoteMsg(v, peer)) ==
           if v.kind == Prevote then OnPrevote(c, e, s1, v.round) else OnPrecommit(c, e, s1, v.round)
  {
    hide AddVote, Shape, OnPrevote, OnPrecommit;
  }
}
