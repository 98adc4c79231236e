// consensus/state.go in its own form: an object whose methods update the round
// state in place.  Each method is proved to do what module Consensus defines; a
// panic sets `halt`, after which no method does anything.
module ConsensusState {
  import opened Types
  import opened Power
  import opened VoteSets
  import opened HeightVoteSets
  import opened Consensus
  import opened NodeInvariants
  import opened VoteSetObject
  import opened HeightVoteSetObject

  class State {
    const chain: Chain
    const key: Option<PubKey>

    var halt: Halt
    var height: int
    var round: int
    var step: int
    var proposal: Option<Proposal>
    var proposalBlock: Option<nat>
    var proposalParts: Option<Parts>
    var lockedRound: int
    var lockedBlock: Option<nat>
    var lockedParts: Option<Parts>
    var validRound: int
    var validBlock: Option<nat>
    var validParts: Option<Parts>
    var votes: HeightVoteSet
    var commitRound: int
    var lastCommit: VoteSet?
    var timeouts: set<Timeout>
    var proposed: seq<Proposal>
    var decided: map<int, Decided>

    // The votes put on the internal queue, with the polkas known at the time.
    ghost var signed: seq<Signed>

    ghost function View(): Node
      reads this, votes, lastCommit
    {
      Node(halt, key, height, round, step, proposal, proposalBlock, proposalParts,
           lockedRound, lockedBlock, lockedParts, validRound, validBlock, validParts, votes.View, commitRound,
           if lastCommit == null then None else Some(lastCommit.View()),
           timeouts, signed, proposed, decided)
    }

    // The objects reached from here are in order and not shared.
    ghost predicate Linked()
      reads this, votes, votes.owned, lastCommit
    {
      && ChainOK(chain) && 1 <= height && 0 <= round
      && votes.Valid()
      && (lastCommit != null ==> lastCommit !in votes.owned && lastCommit.Valid())
    }

    // The same objects as before, or new ones.
    twostate predicate Kept()
      reads this, votes
    {
      || (votes == old(votes) && lastCommit == old(lastCommit) && fresh(votes.owned - old(votes.owned)))
      || (fresh(votes) && fresh(votes.owned))
    }

    // NewConsensusState and OnStart; `lastCommit` is what reconstructLastCommit rebuilt.
    constructor (chain: Chain, key: Option<PubKey>, height: int, lastCommit: VoteSet?)
      requires ChainOK(chain) && 1 <= height && (lastCommit != null ==> lastCommit.Valid())
      ensures Linked() && fresh(votes) && fresh(votes.owned) && this.lastCommit == lastCommit
      ensures View() == Init(chain, key, height, if lastCommit == null then None else Some(lastCommit.View()))
    {
      this.chain, this.key := chain, key;
      halt := Running;
      this.height, round, step := height, 0, NEW_HEIGHT;
      proposal, proposalBlock, proposalParts := None, None, None;
      lockedRound, lockedBlock, lockedParts := 0, None, None;
      validRound, validBlock, validParts := 0, None, None;
      votes := new HeightVoteSet(chain.id, height, chain.vals(height));
      commitRound, this.lastCommit := -1, lastCommit;
      timeouts := {Timeout(height, 0, NEW_HEIGHT)};
      proposed, decided, signed := [], map[], [];
    }

    method UpdateRoundStep(round: int, step: int)
      modifies this`round, this`step
      ensures this.round == round && View() == old(View()).(round := round, step := step)
    {
      hide VoteSet.View;
      this.round, this.step := round, step;
    }

    // signAddVote
    method SignAddVote(e: Env, kind: VoteType, b: BlockID)
      modifies this`signed
      ensures View() == Consensus.SignAddVote(chain, e, old(View()), kind, b)
    {
      if key.Some? && IndexOf(chain.vals(height), AddressOf(key.value)) >= 0 && e.signsVotes {
        signed := signed + [Signed(MakeVote(chain, e, View(), kind, b), Polkas(votes.View))];
      }
    }

    // defaultDoPrevote
    method DoPrevote(e: Env)
      modifies this`signed
      ensures View() == Consensus.SignAddVote(chain, e, old(View()), Prevote, PrevoteChoice(chain, old(View())))
    {
      hide Consensus.SignAddVote, VoteSet.View;
      if lockedBlock.Some? {
        SignAddVote(e, Prevote, Block(lockedBlock.value, HeaderOf(lockedParts)));
        return;
      }
      if proposalBlock.None? {
        SignAddVote(e, Prevote, NilBlock);
        return;
      }
      if !chain.valid(height, proposalBlock.value) {
        SignAddVote(e, Prevote, NilBlock);
        return;
      }
      SignAddVote(e, Prevote, Block(proposalBlock.value, HeaderOf(proposalParts)));
    }

    // enterPrevote; its deferred update moves the step once the vote is out.
    method EnterPrevote(e: Env, height: int, round: int)
      requires Linked()
      modifies this`round, this`step, this`signed
      ensures Linked() && View() == Consensus.EnterPrevote(chain, e, old(View()), height, round)
    {
      hide HeightVoteSet.Valid, VoteSet.Valid, VoteSet.View, ChainOK, Consensus.SignAddVote, PrevoteChoice;
      if halt != Running || this.height != height || round < this.round
         || (this.round == round && PREVOTE <= step) { return; }
      DoPrevote(e);
      UpdateRoundStep(round, PREVOTE);
    }

    // isProposalComplete
    predicate ProposalComplete()
      requires Linked()
      reads this, votes, votes.owned, lastCommit
      ensures ProposalComplete() == IsProposalComplete(View())
    {
      && proposal.Some? && proposalBlock.Some?
      && (proposal.value.polRound < 0 || votes.Polka(proposal.value.polRound).Some?)
    }

    // defaultDecideProposal
    method DecideProposal(e: Env, round: int)
      requires Linked()
      modifies this`proposed
      ensures View() == Consensus.DecideProposal(e, old(View()), round)
    {
      hide HeightVoteSet.Valid, VoteSet.Valid, VoteSet.View, ChainOK, HeightVoteSets.POLInfo;
      var parts;
      if lockedBlock.Some? {
        parts := Some(HeaderOf(lockedParts));
      } else if validBlock.Some? {
        parts := Some(HeaderOf(validParts));
      } else {
        parts := if height == 1 || (lastCommit != null && Majority(lastCommit).Some?) then e.newBlock else None;
      }
      if parts.None? || !e.signsProposals { return; }
      var polRound, polBlock := votes.POLInfo();
      proposed := proposed + [Proposal(height, round, parts.value, polRound, polBlock)];
    }

    // The part of enterPropose up to its deferred update
    method Propose(e: Env, round: int)
      requires Linked() && this.round <= round
      modifies this`round, this`step, this`timeouts, this`proposed
      ensures Linked() && View() == Consensus.Propose(chain, e, old(View()), round)
    {
      hide HeightVoteSet.Valid, VoteSet.Valid, VoteSet.View, ChainOK, Consensus.DecideProposal;
      timeouts := timeouts + {Timeout(height, round, PROPOSE)};
      if key.Some? && IndexOf(chain.vals(height), AddressOf(key.value)) >= 0 && e.isProposer {
        DecideProposal(e, round);
      }
      UpdateRoundStep(round, PROPOSE);
    }

    // enterPropose
    method EnterPropose(e: Env, height: int, round: int)
      requires Linked()
      modifies this`round, this`step, this`signed, this`timeouts, this`proposed
      ensures Linked() && View() == Consensus.EnterPropose(chain, e, old(View()), height, round)
    {
      hide HeightVoteSet.Valid, VoteSet.Valid, VoteSet.View, ChainOK, IsProposalComplete, Consensus.EnterPrevote,
        Consensus.Propose;
      if halt != Running || this.height != height || round < this.round
         || (this.round == round && PROPOSE <= step) { return; }
      Propose(e, round);
      if ProposalComplete() { EnterPrevote(e, height, this.round); }
    }

    // cs.Votes.SetRound(round)
    method SetVotesRound(r: int)
      requires Linked() && 0 <= r
      modifies this`halt, votes
      ensures Linked() && fresh(votes.owned - old(votes.owned))
      ensures var s := old(View());
        View() == if SetRoundPanics(s.votes, r) then s.(halt := SetRoundPanic) else s.(votes := SetRound(s.votes, r))
    {
      hide HeightVoteSet.Valid, VoteSet.Valid, VoteSet.View, ChainOK, SetRound;
      if votes.Round() != 0 && r < votes.Round() + 1 {
        halt := SetRoundPanic;
      } else {
        votes.SetRound(r);
      }
    }

    method ClearProposal()
      modifies this`proposal, this`proposalBlock, this`proposalParts
      ensures View() == old(View()).(proposal := None, proposalBlock := None, proposalParts := None)
    {
      hide VoteSet.View;
      proposal, proposalBlock, proposalParts := None, None, None;
    }

    // The part of enterNewRound that moves the round on
    method StartRound(round: int)
      requires Linked() && this.round <= round
      modifies this, votes
      ensures Linked() && votes == old(votes) && lastCommit == old(lastCommit) && fresh(votes.owned - old(votes.owned))
      ensures View() == Consensus.StartRound(old(View()), round) && height == old(height)
    {
      hide HeightVoteSet.Valid, VoteSet.Valid, VoteSet.View, ChainOK, SetRound, SetRoundPanics;
      UpdateRoundStep(round, NEW_ROUND);
      if round != 0 { ClearProposal(); }
      SetVotesRound(round + 1);
    }

    // enterNewRound
    method EnterNewRound(e: Env, height: int, round: int)
      requires Linked()
      modifies this, votes
      ensures Linked() && votes == old(votes) && lastCommit == old(lastCommit) && fresh(votes.owned - old(votes.owned))
      ensures View() == Consensus.EnterNewRound(chain, e, old(View()), height, round)
    {
      hide HeightVoteSet.Valid, VoteSet.Valid, VoteSet.View, ChainOK, Consensus.EnterPropose, Consensus.StartRound;
      if halt != Running || this.height != height || round < this.round
         || (this.round == round && step != NEW_HEIGHT) { return; }
      StartRound(round);
      if halt != Running { return; }
      if chain.waitForTxs && round == 0 && !(height == 1 || e.proofBlock) {
        if chain.emptyBlocksInterval { timeouts := timeouts + {Timeout(height, round, NEW_ROUND)}; }
      } else {
        EnterPropose(e, height, round);
      }
    }

    // enterPrevoteWait
    method EnterPrevoteWait(height: int, round: int)
      requires Linked()
      modifies this`halt, this`round, this`step, this`timeouts
      ensures Linked() && View() == Consensus.EnterPrevoteWait(old(View()), height, round)
    {
      hide HeightVoteSet.Valid, VoteSet.Valid, VoteSet.View, ChainOK;
      if halt != Running || this.height != height || round < this.round
         || (this.round == round && PREVOTE_WAIT <= step) { return; }
      if !votes.PrevotesAny(round) {
        halt := PrevoteWaitPanic;
        return;
      }
      timeouts := timeouts + {Timeout(height, round, PREVOTE_WAIT)};
      UpdateRoundStep(round, PREVOTE_WAIT);
    }

    method SetLock(round: int, block: Option<nat>, parts: Option<Parts>)
      modifies this`lockedRound, this`lockedBlock, this`lockedParts
      ensures View() == old(View()).(lockedRound := round, lockedBlock := block, lockedParts := parts)
    {
      hide VoteSet.View;
      lockedRound, lockedBlock, lockedParts := round, block, parts;
    }

    method SetValid(round: int, block: Option<nat>, parts: Option<Parts>)
      modifies this`validRound, this`validBlock, this`validParts
      ensures View() == old(View()).(validRound := round, validBlock := block, validParts := parts)
    {
      hide VoteSet.View;
      validRound, validBlock, validParts := round, block, parts;
    }

    method Stop(h: Halt)
      modifies this`halt
      ensures View() == old(View()).(halt := h)
    {
      hide VoteSet.View;
      halt := h;
    }

    method SetProposal(block: Option<nat>, parts: Option<Parts>)
      modifies this`proposalBlock, this`proposalParts
      ensures View() == old(View()).(proposalBlock := block, proposalParts := parts)
    {
      hide VoteSet.View;
      proposalBlock, proposalParts := block, parts;
    }

    // Set up to fetch a block unless its parts are already being collected
    method FetchParts(h: PartsHeader)
      modifies this`halt, this`proposalBlock, this`proposalParts
      ensures View() == Consensus.FetchParts(old(View()), h)
    {
      hide VoteSet.View;
      if HasHeader(proposalParts, h) { return; }
      proposalBlock := None;
      if h.total < 0 {
        halt := FetchHeaderPanic;
        return;
      }
      proposalParts := Some(Parts(h, false));
    }

    // The last branch of enterPrecommit: the polka is for a block the node does not have
    method FetchThenNil(e: Env, h: PartsHeader)
      modifies this`halt, this`proposalBlock, this`proposalParts, this`signed
      ensures View() == Consensus.FetchThenNil(chain, e, old(View()), h)
    {
      hide VoteSet.View, Consensus.SignAddVote, Consensus.FetchParts;
      FetchParts(h);
      if halt != Running { return; }
      SignAddVote(e, Precommit, NilBlock);
    }

    // What enterPrecommit does on a polka of the round
    method PrecommitPolka(e: Env, round: int, b: BlockID)
      modifies this`halt, this`proposalBlock, this`proposalParts, this`lockedRound, this`lockedBlock,
               this`lockedParts, this`signed
      ensures View() == Consensus.PrecommitPolka(chain, e, old(View()), round, b)
    {
      hide VoteSet.View, Consensus.SignAddVote, Consensus.FetchThenNil;
      if b.NoHash? {
        SetLock(0, None, None);
        SignAddVote(e, Precommit, NilBlock);
        return;
      }
      if lockedBlock == Some(b.id) {
        SetLock(round, lockedBlock, lockedParts);
        SignAddVote(e, Precommit, b);
        return;
      }
      if proposalBlock == Some(b.id) {
        if !chain.valid(height, b.id) {
          halt := InvalidPolkaPanic;
          return;
        }
        SetLock(round, proposalBlock, proposalParts);
        SignAddVote(e, Precommit, b);
        return;
      }
      SetLock(0, None, None);
      FetchThenNil(e, b.parts);
    }

    // The body of enterPrecommit, before its deferred update
    method DoPrecommit(e: Env, round: int)
      requires Linked() && this.round <= round
      modifies this`halt, this`proposalBlock, this`proposalParts, this`lockedRound, this`lockedBlock,
               this`lockedParts, this`signed
      ensures Linked() && View() == Precommitted(chain, e, old(View()), round)
    {
      hide HeightVoteSet.Valid, VoteSet.Valid, VoteSet.View, ChainOK, Consensus.SignAddVote,
        Consensus.PrecommitPolka, HeightVoteSets.POLInfo;
      var polka := votes.Polka(round);
      if polka.None? {
        SignAddVote(e, Precommit, NilBlock);
        return;
      }
      var polRound, _ := votes.POLInfo();
      if polRound < round {
        Stop(POLRoundPanic);
        return;
      }
      PrecommitPolka(e, round, polka.value);
    }

    // enterPrecommit
    method EnterPrecommit(e: Env, height: int, round: int)
      requires Linked()
      modifies this`halt, this`round, this`step, this`proposalBlock, this`proposalParts,
               this`lockedRound, this`lockedBlock, this`lockedParts, this`signed
      ensures Linked() && View() == Consensus.EnterPrecommit(chain, e, old(View()), height, round)
    {
      hide HeightVoteSet.Valid, VoteSet.Valid, VoteSet.View, ChainOK, Precommitted;
      if halt != Running || this.height != height || round < this.round
         || (this.round == round && PRECOMMIT <= step) { return; }
      DoPrecommit(e, round);
      UpdateRoundStep(round, PRECOMMIT);
    }

    // enterPrecommitWait
    method EnterPrecommitWait(height: int, round: int)
      requires Linked()
      modifies this`halt, this`round, this`step, this`timeouts
      ensures Linked() && View() == Consensus.EnterPrecommitWait(old(View()), height, round)
    {
      hide HeightVoteSet.Valid, VoteSet.Valid, VoteSet.View, ChainOK;
      if halt != Running || this.height != height || round < this.round
         || (this.round == round && PRECOMMIT_WAIT <= step) { return; }
      if !votes.PrecommitsAny(round) {
        halt := PrecommitWaitPanic;
        return;
      }
      timeouts := timeouts + {Timeout(height, round, PRECOMMIT_WAIT)};
      UpdateRoundStep(round, PRECOMMIT_WAIT);
    }

    // The fields updateToState resets, and scheduleRound0
    method ResetRound(height: int)
      modifies this`height, this`round, this`step, this`lockedRound, this`lockedBlock, this`lockedParts,
               this`validRound, this`validBlock, this`validParts, this`commitRound, this`timeouts
      ensures this.height == height && round == 0
      ensures var s := old(View());
        View() == s.(height := height, round := 0, step := NEW_HEIGHT,
                     lockedRound := 0, lockedBlock := None, lockedParts := None,
                     validRound := 0, validBlock := None, validParts := None, commitRound := -1,
                     timeouts := s.timeouts + {Timeout(height, 0, NEW_HEIGHT)})
    {
      hide VoteSet.View;
      UpdateRoundStep(0, NEW_HEIGHT);
      SetLock(0, None, None);
      SetValid(0, None, None);
      this.height, commitRound := height, -1;
      timeouts := timeouts + {Timeout(height, 0, NEW_HEIGHT)};
    }

    // What updateToState does with the two vote sets
    method RotateVotes()
      requires Linked()
      modifies this`votes, this`lastCommit
      ensures fresh(votes) && fresh(votes.owned) && votes.Valid()
      ensures lastCommit != null ==> lastCommit !in votes.owned && lastCommit.Valid()
      ensures var s := old(View());
        View() == s.(votes := NewHeightVotes(chain.id, s.height + 1, chain.vals(s.height + 1)),
                     lastCommit := if s.commitRound > -1 && s.commitRound in s.votes.sets
                                   then Some(s.votes.sets[s.commitRound].precommits) else None)
    {
      hide HeightVoteSet.Valid, VoteSet.Valid, VoteSet.View, ChainOK, NewHeightVotes;
      ExactAt(chain, height + 1);
      lastCommit := if commitRound > -1 then votes.Precommits(commitRound) else null;
      votes := new HeightVoteSet(chain.id, height + 1, chain.vals(height + 1));
    }

    // updateToState
    method UpdateToState()
      requires Linked()
      modifies this
      ensures Linked() && Kept()
      ensures View() == Consensus.UpdateToState(chain, old(View()))
    {
      hide HeightVoteSet.Valid, VoteSet.Valid, VoteSet.View, ChainOK, NewHeightVotes;
      if commitRound > -1 && votes.Decision(commitRound).None? {
        halt := UpdateStatePanic;
        return;
      }
      RotateVotes();
      ClearProposal();
      ResetRound(height + 1);
    }

    // finalizeCommit
    method FinalizeCommit(e: Env, height: int)
      requires Linked()
      modifies this
      ensures Linked() && Kept()
      ensures View() == Consensus.FinalizeCommit(chain, e, old(View()), height)
    {
      hide HeightVoteSet.Valid, VoteSet.Valid, VoteSet.View, ChainOK, Consensus.UpdateToState;
      if this.height != height || step != COMMIT { return; }
      var decision := votes.Decision(commitRound);
      if decision.None? {
        halt := FinalizeMajorityPanic;
        return;
      }
      var b := decision.value;
      if !HasHeader(proposalParts, b.parts) {
        halt := PartsPanic;
        return;
      }
      if !HashesTo(proposalBlock, b) {
        halt := PartsPanic;
        return;
      }
      if !chain.valid(height, b.id) {
        halt := InvalidCommitPanic;
        return;
      }
      if !proposalParts.value.complete { // blockStore.SaveBlock
        halt := SaveBlockPanic;
        return;
      }
      decided := decided[height := Decided(b.id, b.parts, commitRound)];
      if !e.applies {
        halt := ApplyFailed;
        return;
      }
      UpdateToState();
    }

    // tryFinalizeCommit
    method TryFinalizeCommit(e: Env, height: int)
      requires Linked()
      modifies this
      ensures Linked() && Kept()
      ensures View() == Consensus.TryFinalizeCommit(chain, e, old(View()), height)
    {
      hide HeightVoteSet.Valid, VoteSet.Valid, VoteSet.View, ChainOK, Consensus.FinalizeCommit;
      if halt != Running { return; }
      if this.height != height {
        halt := FinalizeHeightPanic;
        return;
      }
      var decision := votes.Decision(commitRound);
      if decision.None? || decision.value.NoHash? { return; }
      if !HashesTo(proposalBlock, decision.value) { return; }
      FinalizeCommit(e, height);
    }

    // The part of enterCommit that points the proposal at the decided block
    method Committing(commitRound: int, b: BlockID)
      modifies this`halt, this`proposalBlock, this`proposalParts, this`step, this`commitRound
      ensures View() == Consensus.Committing(old(View()), commitRound, b)
    {
      hide VoteSet.View, Consensus.FetchParts;
      if HashesTo(lockedBlock, b) { SetProposal(lockedBlock, lockedParts); }
      if !HashesTo(proposalBlock, b) { FetchParts(b.parts); }
      step, this.commitRound := COMMIT, commitRound;
    }

    // enterCommit
    method EnterCommit(e: Env, height: int, commitRound: int)
      requires Linked()
      modifies this
      ensures Linked() && Kept()
      ensures View() == Consensus.EnterCommit(chain, e, old(View()), height, commitRound)
    {
      hide HeightVoteSet.Valid, VoteSet.Valid, VoteSet.View, ChainOK, Consensus.TryFinalizeCommit, Consensus.Committing;
      if halt != Running || this.height != height || COMMIT <= step { return; }
      var decision := votes.Decision(commitRound);
      if decision.None? {
        halt := CommitPanic;
        return;
      }
      Committing(commitRound, decision.value);
      TryFinalizeCommit(e, height);
    }

    // defaultSetProposal
    method HandleProposal(p: Proposal)
      requires Linked()
      modifies this`halt, this`proposal, this`proposalParts
      ensures Linked() && View() == Consensus.HandleProposal(old(View()), p)
    {
      hide HeightVoteSet.Valid, VoteSet.Valid, VoteSet.View, ChainOK;
      if proposal.Some? { return; }
      if p.height != height || p.round != round { return; }
      if COMMIT <= step { return; }
      if p.polRound != -1 && (p.polRound < 0 || p.round <= p.polRound) { return; }
      proposal := Some(p);
      if p.parts.total < 0 {
        halt := ProposalHeaderPanic;
        return;
      }
      proposalParts := Some(Parts(p.parts, false));
    }

    // The block is complete
    method Assembled(block: nat)
      requires Linked()
      modifies this`proposalBlock, this`validRound, this`validBlock, this`validParts
      ensures Linked() && View() == Consensus.Assembled(old(View()), block)
    {
      hide HeightVoteSet.Valid, VoteSet.Valid, VoteSet.View, ChainOK;
      proposalBlock := Some(block);
      var polka := votes.Polka(round);
      if polka.Some? && polka.value.Names(block) && validRound < round {
        SetValid(round, proposalBlock, proposalParts);
      }
    }

    // addProposalBlockPart
    method HandlePart(e: Env, height: int, header: PartsHeader, outcome: PartOutcome)
      requires Linked()
      modifies this
      ensures Linked() && Kept()
      ensures View() == Consensus.HandlePart(chain, e, old(View()), height, header, outcome)
    {
      hide HeightVoteSet.Valid, VoteSet.Valid, VoteSet.View, ChainOK, Consensus.EnterPrevote,
        Consensus.TryFinalizeCommit, Consensus.Assembled, IsProposalComplete;
      if this.height != height || proposalParts.None? { return; }
      if outcome == NegativeIndex {
        halt := PartIndexPanic;
        return;
      }
      if proposalParts.value.header != header || proposalParts.value.complete { return; }
      if outcome == Partial { return; }
      proposalParts := Some(Parts(header, true));
      if outcome == Garbage { return; }
      Assembled(outcome.block);
      if step <= PROPOSE && ProposalComplete() {
        EnterPrevote(e, height, round);
      } else if step == COMMIT {
        TryFinalizeCommit(e, height);
      }
    }

    // What a polka does to the lock
    method Unlocking(r: int)
      requires Linked()
      modifies this`lockedRound, this`lockedBlock, this`lockedParts
      ensures Linked() && View() == Consensus.Unlocking(old(View()), r)
    {
      hide HeightVoteSet.Valid, VoteSet.Valid, VoteSet.View, ChainOK;
      var polka := votes.Polka(r);
      if polka.Some? && lockedBlock.Some? && lockedRound < r <= round && !HashesTo(lockedBlock, polka.value) {
        SetLock(0, None, None);
      }
    }

    // What a polka does to the valid block
    method Validating(r: int)
      requires Linked()
      modifies this`validRound, this`validBlock, this`validParts
      ensures Linked() && View() == Consensus.Validating(old(View()), r)
    {
      hide HeightVoteSet.Valid, VoteSet.Valid, VoteSet.View, ChainOK;
      var polka := votes.Polka(r);
      if polka.Some? && validRound < r <= round && HashesTo(proposalBlock, polka.value) {
        SetValid(r, proposalBlock, proposalParts);
      }
    }

    // Most validators have prevoted at round `r`
    method JoinPrevotes(e: Env, r: int)
      requires Linked()
      modifies this, votes
      ensures Linked() && votes == old(votes) && lastCommit == old(lastCommit) && fresh(votes.owned - old(votes.owned))
      ensures View() == Consensus.JoinPrevotes(chain, e, old(View()), r)
    {
      hide HeightVoteSet.Valid, VoteSet.Valid, VoteSet.View, ChainOK, Consensus.EnterNewRound,
        Consensus.EnterPrevote, Consensus.EnterPrecommit, Consensus.EnterPrevoteWait;
      var height, polka := height, votes.Polka(r);
      EnterNewRound(e, height, r);
      if polka.Some? {
        EnterPrecommit(e, height, r);
      } else {
        EnterPrevote(e, height, r);
        EnterPrevoteWait(height, r);
      }
    }

    // addVote after a prevote was added
    method OnPrevote(e: Env, r: int)
      requires Linked()
      modifies this, votes
      ensures Linked() && votes == old(votes) && lastCommit == old(lastCommit) && fresh(votes.owned - old(votes.owned))
      ensures View() == Consensus.OnPrevote(chain, e, old(View()), r)
    {
      hide HeightVoteSet.Valid, VoteSet.Valid, VoteSet.View, ChainOK, IsProposalComplete, Consensus.Unlocking,
        Consensus.Validating, Consensus.JoinPrevotes, Consensus.EnterPrevote;
      Unlocking(r);
      Validating(r);
      if round <= r && votes.PrevotesAny(r) {
        JoinPrevotes(e, r);
      } else if proposal.Some? && 0 <= proposal.value.polRound == r {
        if ProposalComplete() { EnterPrevote(e, height, round); }
      }
    }

    // Most validators have precommitted one block at round `r`
    method OnDecision(e: Env, r: int)
      requires Linked()
      modifies this, votes
      ensures Linked() && Kept()
      ensures View() == Consensus.OnDecision(chain, e, old(View()), r)
    {
      hide HeightVoteSet.Valid, VoteSet.Valid, VoteSet.View, ChainOK, Consensus.EnterNewRound,
        Consensus.EnterPrecommit, Consensus.EnterCommit;
      var height, all := height, votes.PrecommitsAll(r);
      EnterNewRound(e, height, r);
      EnterPrecommit(e, height, r);
      EnterCommit(e, height, r);
      if chain.skipTimeoutCommit && all { EnterNewRound(e, this.height, 0); }
    }

    // Most validators have precommitted at round `r`, for no one block
    method JoinPrecommits(e: Env, r: int)
      requires Linked()
      modifies this, votes
      ensures Linked() && votes == old(votes) && lastCommit == old(lastCommit) && fresh(votes.owned - old(votes.owned))
      ensures View() == Consensus.JoinPrecommits(chain, e, old(View()), r)
    {
      hide HeightVoteSet.Valid, VoteSet.Valid, VoteSet.View, ChainOK, Consensus.EnterNewRound,
        Consensus.EnterPrecommit, Consensus.EnterPrecommitWait;
      var height := height;
      EnterNewRound(e, height, r);
      EnterPrecommit(e, height, r);
      EnterPrecommitWait(height, r);
    }

    // addVote after a precommit was added
    method OnPrecommit(e: Env, r: int)
      requires Linked()
      modifies this, votes
      ensures Linked() && Kept()
      ensures View() == Consensus.OnPrecommit(chain, e, old(View()), r)
    {
      hide HeightVoteSet.Valid, VoteSet.Valid, VoteSet.View, ChainOK, Consensus.EnterNewRound, Consensus.OnDecision,
        Consensus.JoinPrecommits;
      var decision := votes.Decision(r);
      if decision.Some? {
        if decision.value.NoHash? {
          EnterNewRound(e, height, r + 1);
        } else {
          OnDecision(e, r);
        }
      } else if round <= r && votes.PrecommitsAny(r) {
        JoinPrecommits(e, r);
      }
    }

    lemma LinkedShapes()
      requires Linked()
      ensures ShapeAll(View().votes) && (View().lastCommit.Some? ==> Shape(View().lastCommit.value))
    {
      hide HeightVoteSet.Valid, VoteSet.Valid, VoteSet.View, ChainOK, ShapeAll, Shape;
      votes.ValidShape();
      if lastCommit != null { lastCommit.ValidShape(); }
    }

    // addVote, for a precommit of the previous height
    method HandleLateVote(e: Env, v: Vote, peer: Peer)
      requires Linked() && v.height + 1 == height
      modifies this, votes, lastCommit
      ensures Linked() && Kept()
      ensures ShapeAll(old(View()).votes) && (old(View()).lastCommit.Some? ==> Shape(old(View()).lastCommit.value))
      ensures View() == Consensus.HandleVote(chain, e, old(View()), v, peer)
    {
      hide HeightVoteSet.Valid, VoteSet.Valid, VoteSet.View, ChainOK, ShapeAll, Shape, Consensus.EnterNewRound,
        VoteSets.AddVote;
      LinkedShapes();
      if !(step == NEW_HEIGHT && v.kind == Precommit) { return; }
      if lastCommit == null {
        halt := NilLastCommitPanic;
        return;
      }
      var added, _ := lastCommit.AddVote(v);
      if added && chain.skipTimeoutCommit && lastCommit.HasAll() { EnterNewRound(e, height, 0); }
    }

    // addVote
    method HandleVote(e: Env, v: Vote, peer: Peer)
      requires Linked()
      modifies this, votes, votes.owned, lastCommit
      ensures Linked() && Kept()
      ensures ShapeAll(old(View()).votes) && (old(View()).lastCommit.Some? ==> Shape(old(View()).lastCommit.value))
      ensures View() == Consensus.HandleVote(chain, e, old(View()), v, peer)
    {
      hide HeightVoteSet.Valid, VoteSet.Valid, VoteSet.View, ChainOK, ShapeAll, Shape,
        Consensus.OnPrevote, Consensus.OnPrecommit, AddVoteTo;
      LinkedShapes();
      if v.height + 1 == height {
        HandleLateVote(e, v, peer);
        return;
      }
      if v.height != height { return; }
      var added, _ := votes.AddVote(v, peer);
      if !added { return; }
      if v.kind == Prevote {
        OnPrevote(e, v.round);
      } else {
        OnPrecommit(e, v.round);
      }
    }

    // handleTimeout
    method HandleTimeout(e: Env, ti: Timeout)
      requires Linked()
      modifies this, votes
      ensures Linked() && Kept()
      ensures View() == Consensus.HandleTimeout(chain, e, old(View()), ti)
    {
      hide HeightVoteSet.Valid, VoteSet.Valid, VoteSet.View, ChainOK, Consensus.EnterNewRound, Consensus.EnterPropose,
        Consensus.EnterPrevote, Consensus.EnterPrecommit;
      if ti !in timeouts { return; }
      if ti.height != height || ti.round < round || (ti.round == round && ti.step < step) { return; }
      if ti.step == NEW_HEIGHT {
        EnterNewRound(e, ti.height, 0);
      } else if ti.step == NEW_ROUND {
        EnterPropose(e, ti.height, 0);
      } else if ti.step == PROPOSE {
        EnterPrevote(e, ti.height, ti.round);
      } else if ti.step == PREVOTE_WAIT {
        EnterPrecommit(e, ti.height, ti.round);
      } else if ti.step == PRECOMMIT_WAIT {
        EnterNewRound(e, ti.height, ti.round + 1);
      }
    }

    // One turn of receiveRoutine
    method Dispatch(e: Env, ev: Event)
      requires Linked()
      modifies this, votes, votes.owned, lastCommit
      ensures Linked() && Kept()
      ensures ShapeAll(old(View()).votes) && (old(View()).lastCommit.Some? ==> Shape(old(View()).lastCommit.value))
      ensures View() == Consensus.Handle(chain, e, old(View()), ev)
    {
      hide HeightVoteSet.Valid, VoteSet.Valid, VoteSet.View, ChainOK, ShapeAll, Shape, Consensus.HandleProposal,
        Consensus.HandlePart, Consensus.HandleVote, Consensus.HandleTimeout, Consensus.EnterPropose, SetPeerMaj23In;
      LinkedShapes();
      if halt != Running { return; }
      match ev
      case ProposalMsg(p) => HandleProposal(p);
      case PartMsg(height, header, outcome) => HandlePart(e, height, header, outcome);
      case VoteMsg(v, peer) => HandleVote(e, v, peer);
      case TimeoutMsg(ti) => HandleTimeout(e, ti);
      case TxsAvailable(height) => EnterPropose(e, height, 0);
      case PeerMaj23Msg(height, round, kind, peer, b) =>
        if height == this.height { var _ := votes.SetPeerMaj23(round, kind, peer, b); }
    }

    ghost predicate Valid()
      reads this, votes, votes.owned, lastCommit
    {
      Linked() && NodeInv(chain, View())
    }

    // Whatever arrives, the invariant of the state machine is kept, no sanity
    // panic fires, and nothing moves back.
    method Handle(e: Env, ev: Event)
      requires Valid()
      modifies this, votes, votes.owned, lastCommit
      ensures Valid() && !halt.Sanity() && Advances(old(View()), View())
      ensures ShapeAll(old(View()).votes) && (old(View()).lastCommit.Some? ==> Shape(old(View()).lastCommit.value))
      ensures View() == Consensus.Handle(chain, e, old(View()), ev)
    {
      hide VoteSet.View, HeightVoteSet.Valid, VoteSet.Valid, Consensus.Handle, NodeInv, Advances, ShapeAll, Shape;
      HandleInv(chain, e, View(), ev);
      Dispatch(e, ev);
      NodeFacts(chain, View());
    }
  }

  // TwoThirdsMajority of a tally
  function Majority(t: VoteSet): (b: Option<BlockID>)
    reads t
    ensures b == t.View().maj23
  {
    t.maj23
  }

  lemma ExactAt(c: Chain, h: int)
    requires ChainOK(c)
    ensures ExactPowers(c.vals(h))
  {
  }
}
