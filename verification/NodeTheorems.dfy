// The consequences of the node invariant, stated over whole runs of one node.
// Its peers are arbitrary here: any number of them, sending anything.
module NodeTheorems {
  import opened Types
  import opened VoteSets
  import opened HeightVoteSets
  import opened Consensus
  import opened NodeInvariants

  datatype Input = Input(env: Env, ev: Event)

  ghost function RunNode(c: Chain, s: Node, inputs: seq<Input>): Node
    requires ChainOK(c) && NodeInv(c, s)
    decreases |inputs|
  {
    if inputs == [] then s
    else
      HandleInv(c, inputs[0].env, s, inputs[0].ev);
      RunNode(c, Handle(c, inputs[0].env, s, inputs[0].ev), inputs[1..])
  }

  // From any reachable state, over any inputs, the node stays consistent and moves
  // forward: (height, round, step) never decreases and no lock is given up without cause.
  lemma {:induction false} RunNodeInv(c: Chain, s: Node, inputs: seq<Input>)
    requires ChainOK(c) && NodeInv(c, s)
    ensures NodeInv(c, RunNode(c, s, inputs)) && Advances(s, RunNode(c, s, inputs))
    decreases |inputs|
  {
    hide NodeInv, Advances, Handle;
    NodeShapes(c, s);
    if inputs == [] {
      AdvancesReflexive(s);
    } else {
      var s1 := Handle(c, inputs[0].env, s, inputs[0].ev);
      HandleInv(c, inputs[0].env, s, inputs[0].ev);
      RunNodeInv(c, s1, inputs[1..]);
      AdvancesTransitive(s, s1, RunNode(c, s, inputs));
    }
  }

  // A reachable node's lock and its votes, in full.
  lemma LockDiscipline(c: Chain, key: Option<PubKey>, height: int, lastCommit: Option<Tally>, inputs: seq<Input>,
                       i: nat, j: nat)
    requires ChainOK(c) && 1 <= height && LastCommitOK(lastCommit)
    ensures NodeInv(c, Init(c, key, height, lastCommit))
    ensures var s := RunNode(c, Init(c, key, height, lastCommit), inputs);
      // a lock has a recorded polka at LockedRound <= Round
      && (s.lockedBlock.Some? ==>
            s.lockedRound <= s.round && PolkaFor(s.votes, s.lockedRound, s.lockedBlock.value)
            && s.lockedParts.Some? && s.lockedParts.value.complete)
      // a non-nil precommit had a polka at its own round
      && (i < |s.signed| && s.signed[i].vote.kind.Precommit? && s.signed[i].vote.block.Block? ==>
            var x := s.signed[i]; x.vote.round in x.polkas && x.polkas[x.vote.round] == x.vote.block)
      // prevotes respect earlier precommits
      && (i < |s.signed| && j < |s.signed| ==> LockRespected(s.signed[i], s.signed[j]))
      // one vote for each height, round and kind, and none from the future
      && (i < j < |s.signed| ==>
            var v, w := s.signed[i].vote, s.signed[j].vote;
            HRSBefore(v.height, v.round, StepOf(v.kind), w.height, w.round, StepOf(w.kind)))
      && !s.halt.Sanity()
  {
    InitInv(c, key, height, lastCommit);
    var s0 := Init(c, key, height, lastCommit);
    RunNodeInv(c, s0, inputs);
    hide HeightInv, HeldOK, TimeoutsOK, LastCommitOK;
    assert NodeInv(c, RunNode(c, s0, inputs));
  }

  lemma SignEffect(c: Chain, e: Env, s: Node, kind: VoteType, b: BlockID)
    ensures var s' := SignAddVote(c, e, s, kind, b);
      && s' == s.(signed := s'.signed)
      && (s'.signed == s.signed ||
            (|s'.signed| == |s.signed| + 1 && s.signed <= s'.signed &&
             var v := s'.signed[|s.signed|].vote;
             v.height == s.height && v.round == s.round && v.kind == kind && v.block == b))
  {
  }

  // Precommitting a block leaves the node locked on it at that round; a polka for
  // anything else leaves it unlocked, and without a polka it precommits nil.
  lemma PrecommitLocks(c: Chain, e: Env, s: Node, round: int)
    requires NodeInv(c, s) && s.round == round && s.halt == Running && s.step < PRECOMMIT
    ensures var s' := EnterPrecommit(c, e, s, s.height, round);
      |s'.signed| > |s.signed| ==>
        var v := s'.signed[|s.signed|].vote;
        && |s'.signed| == |s.signed| + 1 && v.height == s.height && v.round == round == s'.round && v.kind == Precommit
        && (v.block.Block? ==>
              s'.lockedBlock == Some(v.block.id) && s'.lockedRound == round && s.votes.Polka(round) == Some(v.block))
        && (v.block.NoHash? ==> v.block == NilBlock && (s.votes.Polka(round).Some? ==> s'.lockedBlock.None?))
        && (s.votes.Polka(round).None? ==> v.block == NilBlock && s'.lockedBlock == s.lockedBlock)
  {
    hide NodeInv, SignAddVote;
    match s.votes.Polka(round)
    case None => SignEffect(c, e, s, Precommit, NilBlock);
    case Some(b) =>
      SignEffect(c, e, Unlocked(s), Precommit, NilBlock);
      SignEffect(c, e, s.(lockedRound := round), Precommit, b);
      SignEffect(c, e, Locked(s, round), Precommit, b);
      SignEffect(c, e, FetchParts(Unlocked(s), b.parts), Precommit, NilBlock);
  }

  // A locked node prevotes its locked block and nothing else.
  lemma PrevoteFollowsLock(c: Chain, e: Env, s: Node, height: int, round: int)
    requires round <= s.round
    ensures var s' := EnterPrevote(c, e, s, height, round);
      |s'.signed| > |s.signed| ==>
        var v := s'.signed[|s.signed|].vote;
        && |s'.signed| == |s.signed| + 1 && v.height == height && v.round == round == s'.round && v.kind == Prevote
        && (s.lockedBlock.Some? ==> v.block == Block(s.lockedBlock.value, HeaderOf(s.lockedParts)))
        && (s.lockedBlock.None? ==> forall b: nat ::
              (v.block.Names(b) <==> s.proposalBlock == Some(b) && c.valid(height, b)))
        && (s.lockedBlock.None? && v.block.Block? ==> v.block.parts == HeaderOf(s.proposalParts))
  {
  }

  // A proposer offers its locked block, else its valid block, else a new one, with
  // the highest polka it knows of as proof of lock.
  lemma ProposalFollowsLock(c: Chain, e: Env, s: Node, round: int)
    ensures var s' := Propose(c, e, s, round);
      |s'.proposed| > |s.proposed| ==>
        var p := s'.proposed[|s.proposed|];
        && |s'.proposed| == |s.proposed| + 1 && p.height == s.height && p.round == round
        && (s.lockedBlock.Some? ==> p.parts == HeaderOf(s.lockedParts))
        && (s.lockedBlock.None? && s.validBlock.Some? ==> p.parts == HeaderOf(s.validParts))
        && (s.lockedBlock.None? && s.validBlock.None? ==> e.newBlock == Some(p.parts))
        && (p.polRound >= 0 ==> s.votes.Polka(p.polRound) == Some(p.polBlock))
        && forall q :: p.polRound < q <= s.votes.round && 0 <= q ==> s.votes.Polka(q).None?
  {
    POLInfoIsHighest(s.votes, s.votes.round);
  }

  // A proposal held is for the node's own height and round, in every reachable state.
  lemma ProposalIsCurrent(c: Chain, key: Option<PubKey>, height: int, lastCommit: Option<Tally>, inputs: seq<Input>)
    requires ChainOK(c) && 1 <= height && LastCommitOK(lastCommit)
    ensures NodeInv(c, Init(c, key, height, lastCommit))
    ensures var s := RunNode(c, Init(c, key, height, lastCommit), inputs); ProposalOK(s.proposal, s.height, s.round)
  {
    hide NodeInv;
    InitInv(c, key, height, lastCommit);
    RunNodeInv(c, Init(c, key, height, lastCommit), inputs);
    NodeFacts(c, RunNode(c, Init(c, key, height, lastCommit), inputs));
  }
}
