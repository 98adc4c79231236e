// The panics of a node that its peers can bring about, each with the exact condition
// on the state and the message: a precommit for the height before the first, a
// proposal or a part that no part set can take, and a decision for a block that the
// node does not have in the form decided.
module NodePanics {
  import opened Types
  import opened VoteSets
  import opened HeightVoteSets
  import opened Consensus
  import opened NodeInvariants
  import opened NodeProgress
  import opened Provenance

  // ---- addVote's use of LastCommit ----

  // A precommit for the previous height while the node waits at NewHeight without
  // a LastCommit.
  lemma NilLastCommitIff(c: Chain, e: Env, s: Node, ev: Event)
    requires ChainOK(c) && NodeInv(c, s) && s.halt == Running
    ensures ShapeAll(s.votes) && (s.lastCommit.Some? ==> Shape(s.lastCommit.value))
    ensures Handle(c, e, s, ev).halt == NilLastCommitPanic <==>
      && ev.VoteMsg? && ev.vote.height + 1 == s.height && ev.vote.kind == Precommit
      && s.step == NEW_HEIGHT && s.lastCommit.None?
  {
    hide NodeInv, Handle;
    NodeShapes(c, s);
    HandleFollows(c, e, s, ev);
    if && ev.VoteMsg? && ev.vote.height + 1 == s.height && ev.vote.kind == Precommit
       && s.step == NEW_HEIGHT && s.lastCommit.None? {
      PreviousHeightVote(c, e, s, ev.vote, ev.peer);
    }
  }

  lemma PreviousHeightVote(c: Chain, e: Env, s: Node, v: Vote, peer: Peer)
    requires ShapeAll(s.votes) && (s.lastCommit.Some? ==> Shape(s.lastCommit.value))
    requires s.halt == Running && v.height + 1 == s.height && s.lastCommit.None?
    requires s.step == NEW_HEIGHT && v.kind == Precommit
    ensures Handle(c, e, s, VoteMsg(v, peer)).halt == NilLastCommitPanic
  {
  }

  // That is every node of a new chain, on its first message: there is no LastCommit
  // at height 1, and no signature is looked at on the way.
  lemma FreshNodePanics(c: Chain, e: Env, key: Option<PubKey>, v: Vote, peer: Peer)
    requires ChainOK(c) && v.height == 0 && v.kind == Precommit
    ensures var s := Init(c, key, 1, None);
      && NodeInv(c, s) && ShapeAll(s.votes)
      && Handle(c, e, s, VoteMsg(v, peer)).halt == NilLastCommitPanic
  {
    hide NodeInv, Handle;
    InitInv(c, key, 1, None);
    NodeShapes(c, Init(c, key, 1, None));
    PreviousHeightVote(c, e, Init(c, key, 1, None), v, peer);
  }

  // ---- What a node has of a block when its decision comes ----

  // The lock and the proposal, each a block with its part set.
  datatype Holding = Holding(
    locked: Option<nat>, lockedParts: Option<Parts>, proposal: Option<nat>, proposalParts: Option<Parts>)

  function HoldingOf(s: Node): Holding {
    Holding(s.lockedBlock, s.lockedParts, s.proposalBlock, s.proposalParts)
  }

  // A later round starts without a proposal.
  function AtRound(s: Node, r: int): Holding {
    if r <= s.round then HoldingOf(s) else Holding(s.lockedBlock, s.lockedParts, None, None)
  }

  // The node has yet to precommit at round `r`, and does so before it commits.
  predicate WillPrecommit(s: Node, r: int) {
    r > s.round || (r == s.round && s.step < PRECOMMIT)
  }

  // A polka of the round at that moment: for nothing, for the lock, for the proposal,
  // for a block being collected, or for another one.  None where it stops the node.
  function OnPolka(c: Chain, height: int, k: Holding, polka: BlockID): Option<Holding> {
    var unlocked := k.(locked := None, lockedParts := None);
    if polka.NoHash? then Some(unlocked)
    else if k.locked == Some(polka.id) then Some(k)
    else if k.proposal == Some(polka.id) then
      if c.valid(height, polka.id) then Some(k.(locked := k.proposal, lockedParts := k.proposalParts)) else None
    else if HasHeader(k.proposalParts, polka.parts) then Some(unlocked)
    else if polka.parts.total < 0 then None
    else Some(unlocked.(proposal := None, proposalParts := Some(Parts(polka.parts, false))))
  }

  function AtCommit(c: Chain, s: Node, r: int): Option<Holding> {
    if WillPrecommit(s, r) && s.votes.Polka(r).Some?
    then OnPolka(c, s.height, AtRound(s, r), s.votes.Polka(r).value) else Some(AtRound(s, r))
  }

  predicate Has(k: Holding, b: nat) { k.locked == Some(b) || k.proposal == Some(b) }

  // The part set finalized with the block: the lock's, if it is locked.
  function PartsWith(k: Holding, b: nat): Option<Parts> {
    if k.locked == Some(b) then k.lockedParts else k.proposalParts
  }

  // finalizeCommit's check: the block is there, under another header than decided.
  predicate WrongHeader(k: Holding, b: BlockID) {
    b.Block? && Has(k, b.id) && !HasHeader(PartsWith(k, b.id), b.parts)
  }

  // SaveBlock's check: the block is there, and its part set has the header decided
  // but is still being filled.
  predicate PartsMissing(c: Chain, height: int, k: Holding, b: BlockID) {
    && b.Block? && Has(k, b.id) && HasHeader(PartsWith(k, b.id), b.parts)
    && c.valid(height, b.id) && !PartsWith(k, b.id).value.complete
  }

  // The panics of this section and the next.
  predicate ByPeer(h: Halt) {
    h in {PartsPanic, SaveBlockPanic, ProposalHeaderPanic, PartIndexPanic}
  }

  // A step that stops the node, if at all, for another reason.
  predicate Harmless(s: Node, s': Node) {
    (s'.halt == s.halt || !ByPeer(s'.halt)) && (s.halt != Running ==> s'.halt == s.halt)
  }

  lemma EnterPrevoteHolds(c: Chain, e: Env, s: Node, height: int, round: int)
    ensures var s' := EnterPrevote(c, e, s, height, round);
      HoldingOf(s') == HoldingOf(s) && s'.halt == s.halt && (s.step < PRECOMMIT ==> s'.step < PRECOMMIT)
  {
  }

  lemma EnterProposeHolds(c: Chain, e: Env, s: Node, height: int, round: int)
    ensures var s' := EnterPropose(c, e, s, height, round);
      HoldingOf(s') == HoldingOf(s) && s'.halt == s.halt && (s.step < PRECOMMIT ==> s'.step < PRECOMMIT)
  {
    hide EnterPrevote, IsProposalComplete, DecideProposal, IsValidator;
    DecideProposalFrame(e, Schedule(s, round, PROPOSE), round);
    var s1 := Propose(c, e, s, round);
    EnterPrevoteHolds(c, e, s1, height, s1.round);
  }

  lemma EnterNewRoundHolds(c: Chain, e: Env, s: Node, r: int)
    requires NodeInv(c, s) && s.halt == Running
    ensures var s' := EnterNewRound(c, e, s, s.height, r);
      && s'.halt == Running && s'.height == s.height && HoldingOf(s') == AtRound(s, r)
      && (!WillPrecommit(s, r) ==> s' == s)
      && (WillPrecommit(s, r) ==> s'.round == r && s'.step < PRECOMMIT)
      && s'.votes.Polka(r) == s.votes.Polka(r) && s'.votes.Decision(r) == s.votes.Decision(r)
  {
    NodeFacts(c, s);
    EnterNewRoundFrame(c, e, s, s.height, r);
    hide NodeInv, EnterPropose, SetRound, HeightInv;
    var s1 := StartRound(s, r);
    SetRoundKeeps(s.votes, r + 1);
    EnterProposeHolds(c, e, s1, s.height, r);
  }

  lemma SignHolds(c: Chain, e: Env, s: Node, kind: VoteType, b: BlockID)
    ensures var s' := SignAddVote(c, e, s, kind, b);
      HoldingOf(s') == HoldingOf(s) && s'.halt == s.halt && s'.height == s.height && s'.votes == s.votes
  {
  }

  lemma PrecommitPolkaHolds(c: Chain, e: Env, s: Node, r: int, polka: BlockID)
    requires s.halt == Running
    ensures var s' := PrecommitPolka(c, e, s, r, polka);
      && s'.height == s.height && s'.votes == s.votes && !ByPeer(s'.halt)
      && match OnPolka(c, s.height, HoldingOf(s), polka)
         case None => s'.halt != Running
         case Some(k) => s'.halt == Running && HoldingOf(s') == k
  {
    hide SignAddVote;
    SignHolds(c, e, Unlocked(s), Precommit, NilBlock);
    SignHolds(c, e, s.(lockedRound := r), Precommit, polka);
    SignHolds(c, e, Locked(s, r), Precommit, polka);
    SignHolds(c, e, FetchParts(Unlocked(s), polka.parts), Precommit, NilBlock);
  }

  lemma EnterPrecommitHolds(c: Chain, e: Env, s: Node, r: int)
    requires NodeInv(c, s) && s.halt == Running && r <= s.round
    ensures var s' := EnterPrecommit(c, e, s, s.height, r);
      && s'.height == s.height && s'.votes == s.votes && !ByPeer(s'.halt)
      && (WillPrecommit(s, r) ==> s'.step == PRECOMMIT) && (!WillPrecommit(s, r) ==> s' == s)
      && match AtCommit(c, s, r)
         case None => s'.halt != Running
         case Some(k) => s'.halt == Running && HoldingOf(s') == k
  {
    if WillPrecommit(s, r) && s.votes.Polka(r).Some? { NoPOLRoundPanic(c, s); }
    hide NodeInv, PrecommitPolka, SignAddVote, POLInfo, OnPolka;
    SignHolds(c, e, s, Precommit, NilBlock);
    if s.votes.Polka(r).Some? { PrecommitPolkaHolds(c, e, s, r, s.votes.Polka(r).value); }
  }

  // enterCommit fails exactly on what the node has of the decided block.
  lemma EnterCommitFails(c: Chain, e: Env, s: Node, r: int, b: BlockID)
    requires s.halt == Running && s.step < COMMIT && s.votes.Decision(r) == Some(b) && b.Block?
    ensures var h := EnterCommit(c, e, s, s.height, r).halt;
      && (h == PartsPanic <==> WrongHeader(HoldingOf(s), b))
      && (h == SaveBlockPanic <==> PartsMissing(c, s.height, HoldingOf(s), b))
      && h != ProposalHeaderPanic && h != PartIndexPanic
  {
    hide NewHeightVotes, TryFinalizeCommit;
    TryFinalizeFails(c, e, Committing(s, r, b), b);
  }

  lemma TryFinalizeFails(c: Chain, e: Env, s: Node, b: BlockID)
    requires s.step == COMMIT && s.votes.Decision(s.commitRound) == Some(b) && b.Block?
    requires s.halt == Running || s.halt == FetchHeaderPanic
    ensures var h := TryFinalizeCommit(c, e, s, s.height).halt;
            var has := s.halt == Running && s.proposalBlock == Some(b.id);
      && (h == PartsPanic <==> has && !HasHeader(s.proposalParts, b.parts))
      && (h == SaveBlockPanic <==> has && HasHeader(s.proposalParts, b.parts)
                                   && c.valid(s.height, b.id) && !s.proposalParts.value.complete)
      && h != ProposalHeaderPanic && h != PartIndexPanic
  {
    hide NewHeightVotes;
  }

  lemma EnterCommitSkips(c: Chain, e: Env, s: Node, r: int)
    requires s.halt != Running || s.step >= COMMIT
    ensures EnterCommit(c, e, s, s.height, r) == s
  {
  }

  lemma EnterNewRoundHarmless(c: Chain, e: Env, s: Node, height: int, r: int)
    ensures Harmless(s, EnterNewRound(c, e, s, height, r))
  {
    hide EnterPropose;
    EnterProposeHolds(c, e, StartRound(s, r), height, r);
  }

  lemma OnDecisionFails(c: Chain, e: Env, s: Node, r: int, b: BlockID)
    requires NodeInv(c, s) && s.halt == Running && s.votes.Decision(r) == Some(b) && b.Block?
    ensures var h := OnDecision(c, e, s, r).halt;
      && (h == PartsPanic <==> Reaches(c, s, r) && WrongHeader(AtCommit(c, s, r).value, b))
      && (h == SaveBlockPanic <==> Reaches(c, s, r) && PartsMissing(c, s.height, AtCommit(c, s, r).value, b))
      && h != ProposalHeaderPanic && h != PartIndexPanic
  {
    hide NodeInv, EnterNewRound, EnterPrecommit, EnterCommit, WrongHeader, PartsMissing, OnPolka, HoldingOf;
    var s1 := EnterNewRound(c, e, s, s.height, r);
    EnterNewRoundInv(c, e, s, s.height, r);
    EnterNewRoundHolds(c, e, s, r);
    var s2 := EnterPrecommit(c, e, s1, s.height, r);
    EnterPrecommitHolds(c, e, s1, r);
    var s3 := EnterCommit(c, e, s2, s.height, r);
    if s2.halt == Running && s2.step < COMMIT {
      EnterCommitFails(c, e, s2, r, b);
    } else {
      EnterCommitSkips(c, e, s2, r);
    }
    EnterNewRoundHarmless(c, e, s3, s3.height, 0);
  }

  // enterCommit gets to finalize: the node was not at Commit already, and the precommit
  // on the way does not stop it.
  predicate Reaches(c: Chain, s: Node, r: int) {
    (WillPrecommit(s, r) || s.step < COMMIT) && AtCommit(c, s, r).Some?
  }

  // ---- No other step does it ----

  lemma EnterPrecommitHarmless(c: Chain, e: Env, s: Node, height: int, r: int)
    ensures Harmless(s, EnterPrecommit(c, e, s, height, r))
  {
    hide SignAddVote, PrecommitPolka, POLInfo, OnPolka;
    SignHolds(c, e, s, Precommit, NilBlock);
    if s.halt == Running && s.votes.Polka(r).Some? { PrecommitPolkaHolds(c, e, s, r, s.votes.Polka(r).value); }
  }

  lemma WaitHarmless(s: Node, height: int, r: int)
    ensures Harmless(s, EnterPrevoteWait(s, height, r)) && Harmless(s, EnterPrecommitWait(s, height, r))
  {
  }

  lemma OnPrevoteHarmless(c: Chain, e: Env, s: Node, r: int)
    ensures Harmless(s, OnPrevote(c, e, s, r))
  {
    hide EnterNewRound, EnterPrecommit, EnterPrevote, EnterPrevoteWait, IsProposalComplete, PrevotesAny;
    var s1 := Validating(Unlocking(s, r), r);
    var s2 := EnterNewRound(c, e, s1, s1.height, r);
    EnterNewRoundHarmless(c, e, s1, s1.height, r);
    EnterPrecommitHarmless(c, e, s2, s1.height, r);
    EnterPrevoteHolds(c, e, s2, s1.height, r);
    WaitHarmless(EnterPrevote(c, e, s2, s1.height, r), s1.height, r);
    EnterPrevoteHolds(c, e, s1, s1.height, s1.round);
  }

  lemma JoinPrecommitsHarmless(c: Chain, e: Env, s: Node, r: int)
    ensures Harmless(s, JoinPrecommits(c, e, s, r))
  {
    hide EnterNewRound, EnterPrecommit, EnterPrecommitWait;
    var s1 := EnterNewRound(c, e, s, s.height, r);
    EnterNewRoundHarmless(c, e, s, s.height, r);
    EnterPrecommitHarmless(c, e, s1, s.height, r);
    WaitHarmless(EnterPrecommit(c, e, s1, s.height, r), s.height, r);
  }

  lemma OnPrecommitFails(c: Chain, e: Env, s: Node, r: int)
    requires NodeInv(c, s) && s.halt == Running
    ensures var h := OnPrecommit(c, e, s, r).halt;
      && (h == PartsPanic <==> DecidesWrongly(c, s, r)) && (h == SaveBlockPanic <==> DecidesTooSoon(c, s, r))
      && h != ProposalHeaderPanic && h != PartIndexPanic
  {
    hide NodeInv, EnterNewRound, JoinPrecommits, OnDecision, Reaches, WrongHeader, PartsMissing, AtCommit;
    EnterNewRoundHarmless(c, e, s, s.height, r + 1);
    JoinPrecommitsHarmless(c, e, s, r);
    if s.votes.Decision(r).Some? && s.votes.Decision(r).value.Block? {
      OnDecisionFails(c, e, s, r, s.votes.Decision(r).value);
    }
  }

  // The precommits of round `r` are for a block the node has under another header ...
  predicate DecidesWrongly(c: Chain, s: Node, r: int) {
    && s.votes.Decision(r).Some? && s.votes.Decision(r).value.Block?
    && Reaches(c, s, r) && WrongHeader(AtCommit(c, s, r).value, s.votes.Decision(r).value)
  }

  // ... or under this one, with parts still missing.
  predicate DecidesTooSoon(c: Chain, s: Node, r: int) {
    && s.votes.Decision(r).Some? && s.votes.Decision(r).value.Block?
    && Reaches(c, s, r) && PartsMissing(c, s.height, AtCommit(c, s, r).value, s.votes.Decision(r).value)
  }

  lemma HandleTimeoutHarmless(c: Chain, e: Env, s: Node, ti: Timeout)
    ensures Harmless(s, HandleTimeout(c, e, s, ti))
  {
    hide EnterNewRound, EnterPropose, EnterPrevote, EnterPrecommit;
    EnterNewRoundHarmless(c, e, s, ti.height, 0);
    EnterNewRoundHarmless(c, e, s, ti.height, ti.round + 1);
    EnterProposeHolds(c, e, s, ti.height, 0);
    EnterPrevoteHolds(c, e, s, ti.height, ti.round);
    EnterPrecommitHarmless(c, e, s, ti.height, ti.round);
  }

  // The last part of the decided block is of the header decided, so it finalizes.
  lemma LastPartHarmless(c: Chain, e: Env, s: Node, header: PartsHeader, block: nat)
    requires s.halt == Running && s.step == COMMIT && Fetching(s) && HasHeader(s.proposalParts, header)
    ensures var s1 := Assembled(s.(proposalParts := Some(Parts(header, true))), block);
      Harmless(s, TryFinalizeCommit(c, e, s1, s.height))
  {
    hide NewHeightVotes;
  }

  lemma HandlePartPanics(c: Chain, e: Env, s: Node, height: int, header: PartsHeader, outcome: PartOutcome)
    requires s.halt == Running && Fetching(s)
    ensures var h := HandlePart(c, e, s, height, header, outcome).halt;
      && (h == PartIndexPanic <==> height == s.height && s.proposalParts.Some? && outcome == NegativeIndex)
      && (ByPeer(h) ==> h == PartIndexPanic)
  {
    hide EnterPrevote, IsProposalComplete, TryFinalizeCommit;
    if outcome.Completes? && HasHeader(s.proposalParts, header) && height == s.height {
      var s2 := Assembled(s.(proposalParts := Some(Parts(header, true))), outcome.block);
      EnterPrevoteHolds(c, e, s2, height, s2.round);
      if s.step == COMMIT { LastPartHarmless(c, e, s, header, outcome.block); }
    }
  }

  // ---- Exactly when ----

  // The message is a precommit of this height, and its tally counts it.
  ghost predicate Counts(s: Node, ev: Event)
    requires ShapeAll(s.votes)
  {
    && ev.VoteMsg? && ev.vote.height == s.height && ev.vote.kind == Precommit
    && AddVoteTo(s.votes, ev.vote, ev.peer).added
  }

  function With(s: Node, ev: Event): Node
    requires ShapeAll(s.votes) && ev.VoteMsg?
  {
    s.(votes := AddVoteTo(s.votes, ev.vote, ev.peer).votes)
  }

  lemma HandleVotePanics(c: Chain, e: Env, s: Node, v: Vote, peer: Peer)
    requires ChainOK(c) && NodeInv(c, s) && s.halt == Running
    requires ShapeAll(s.votes) && (s.lastCommit.Some? ==> Shape(s.lastCommit.value))
    ensures var h, ev := HandleVote(c, e, s, v, peer).halt, VoteMsg(v, peer);
      && (h == PartsPanic <==> Counts(s, ev) && DecidesWrongly(c, With(s, ev), v.round))
      && (h == SaveBlockPanic <==> Counts(s, ev) && DecidesTooSoon(c, With(s, ev), v.round))
      && h != ProposalHeaderPanic && h != PartIndexPanic
  {
    hide NodeInv, EnterNewRound, OnPrevote, OnPrecommit, DecidesWrongly, DecidesTooSoon, AddVote, AddVoteTo, Shape,
         HeightInv, Grows;
    if v.height + 1 == s.height {
      if s.lastCommit.Some? {
        var s1 := s.(lastCommit := Some(AddVote(s.lastCommit.value, v).tally));
        EnterNewRoundHarmless(c, e, s1, s1.height, 0);
      }
    } else if v.height == s.height {
      var s1 := With(s, VoteMsg(v, peer));
      NodeFacts(c, s);
      AddVoteToInv(s.votes, v, peer);
      GrowInv(c, s, s1.votes);
      OnPrevoteHarmless(c, e, s1, v.round);
      OnPrecommitFails(c, e, s1, v.round);
    }
  }

  // A proposal the node takes, with a negative number of parts.
  predicate BadProposal(s: Node, ev: Event) {
    && ev.ProposalMsg? && s.proposal.None? && s.step < COMMIT
    && ev.proposal.height == s.height && ev.proposal.round == s.round && ev.proposal.parts.total < 0
    && (ev.proposal.polRound == -1 || 0 <= ev.proposal.polRound < s.round)
  }

  // A part with a negative index, while the node collects any part set.
  predicate BadPart(s: Node, ev: Event) {
    ev.PartMsg? && ev.height == s.height && s.proposalParts.Some? && ev.outcome == NegativeIndex
  }

  lemma HandleProposalPanics(s: Node, p: Proposal)
    requires s.halt == Running
    ensures var h := HandleProposal(s, p).halt;
      (h == ProposalHeaderPanic <==> BadProposal(s, ProposalMsg(p))) && (ByPeer(h) ==> h == ProposalHeaderPanic)
  {
  }

  // In every reachable state, the messages that bring about each of the four panics.
  lemma PeerPanicsIff(c: Chain, e: Env, s: Node, ev: Event)
    requires ChainOK(c) && NodeInv(c, s) && Fetching(s) && s.halt == Running
    ensures ShapeAll(s.votes) && (s.lastCommit.Some? ==> Shape(s.lastCommit.value))
    ensures var h := Handle(c, e, s, ev).halt;
      && (h == PartsPanic <==> Counts(s, ev) && DecidesWrongly(c, With(s, ev), ev.vote.round))
      && (h == SaveBlockPanic <==> Counts(s, ev) && DecidesTooSoon(c, With(s, ev), ev.vote.round))
      && (h == ProposalHeaderPanic <==> BadProposal(s, ev))
      && (h == PartIndexPanic <==> BadPart(s, ev))
  {
    NodeShapes(c, s);
    hide NodeInv, HandleProposal, HandleVote, HandlePart, HandleTimeout, EnterPropose, DecidesWrongly, DecidesTooSoon,
         AddVoteTo, ShapeAll, Shape, SetPeerMaj23In, Fetching, HoldingOf;
    match ev
    case ProposalMsg(p) => HandleProposalPanics(s, p);
    case PartMsg(height, header, outcome) => HandlePartPanics(c, e, s, height, header, outcome);
    case VoteMsg(v, peer) => HandleVotePanics(c, e, s, v, peer);
    case TimeoutMsg(ti) => HandleTimeoutHarmless(c, e, s, ti);
    case TxsAvailable(height) => EnterProposeHolds(c, e, s, height, 0);
    case PeerMaj23Msg(_, _, _, _, _) =>
  }

  // In short: the check of the header fails only on a block that the node has, locked
  // or proposed, under another header than the one decided.
  lemma WrongHeaderIsHeld(c: Chain, s: Node, r: int)
    requires DecidesWrongly(c, s, r)
    ensures var b := s.votes.Decision(r).value;
      || (s.lockedBlock == Some(b.id) && !HasHeader(s.lockedParts, b.parts))
      || (s.proposalBlock == Some(b.id) && !HasHeader(s.proposalParts, b.parts))
  {
  }

  // And the parts are missing only of a proposal that came after the block: the lock
  // has all its parts, and so has the proposal until the node has precommitted.
  lemma MissingPartsAreLate(c: Chain, s: Node, r: int)
    requires NodeInv(c, s) && DecidesTooSoon(c, s, r)
    ensures var b := s.votes.Decision(r).value;
      && s.proposalBlock == Some(b.id) && s.proposalParts == Some(Parts(b.parts, false))
      && s.lockedBlock != Some(b.id) && s.step >= PRECOMMIT && r <= s.round
  {
    LockFacts(c, s);
    hide NodeInv;
    if WillPrecommit(s, r) {
      WholeAtRound(c, s, r);
      assert false;
    }
  }

  predicate Whole(k: Holding) {
    LockedPartsOK(k.locked, k.lockedParts) && LockedPartsOK(k.proposal, k.proposalParts)
  }

  lemma WholeOnPolka(c: Chain, height: int, k: Holding, polka: BlockID)
    requires Whole(k)
    ensures var k' := OnPolka(c, height, k, polka); k'.Some? ==> Whole(k'.value)
  {
  }

  lemma WholeAtRound(c: Chain, s: Node, r: int)
    requires WillPrecommit(s, r) && LockedPartsOK(s.lockedBlock, s.lockedParts)
    requires s.step < PRECOMMIT ==> LockedPartsOK(s.proposalBlock, s.proposalParts)
    ensures !DecidesTooSoon(c, s, r)
  {
    hide OnPolka;
    if s.votes.Polka(r).Some? { WholeOnPolka(c, s.height, AtRound(s, r), s.votes.Polka(r).value); }
  }
}
