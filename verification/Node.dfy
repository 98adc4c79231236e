// consensus/state.go: the round state machine of one node, as functions on values.
//
// `Handle` processes one input of receiveRoutine to completion, deferred updates
// included.  A Go panic is a `halt` value: the routine recovers, logs and stops.
// Clocks, the mempool, the application and the signer appear as the oracle `Env`.
module Consensus {
  import opened Types
  import opened VoteSets
  import opened HeightVoteSets

  // RoundStepType, in its numeric order.
  const NEW_HEIGHT := 1
  const NEW_ROUND := 2
  const PROPOSE := 3
  const PREVOTE := 4
  const PREVOTE_WAIT := 5
  const PRECOMMIT := 6
  const PRECOMMIT_WAIT := 7
  const COMMIT := 8

  // What is the same for every node: the validators of each height, the validity
  // of blocks, and the configuration.
  datatype Chain = Chain(
    id: ChainID, vals: int -> seq<Validator>, valid: (int, nat) -> bool,
    skipTimeoutCommit: bool, waitForTxs: bool, emptyBlocksInterval: bool)

  // What the outside world answers while one input is processed.
  datatype Env = Env(
    time: int, proofBlock: bool, isProposer: bool, newBlock: Option<PartsHeader>,
    signsVotes: bool, signsProposals: bool, applies: bool)

  datatype Halt =
    | Running
    | SetRoundPanic | PrevoteWaitPanic | POLRoundPanic | PrecommitWaitPanic
    | CommitPanic | FinalizeHeightPanic | FinalizeMajorityPanic | UpdateStatePanic
    | NilLastCommitPanic | InvalidPolkaPanic | InvalidCommitPanic | ApplyFailed
    | PartsPanic | SaveBlockPanic | FetchHeaderPanic | ProposalHeaderPanic | PartIndexPanic
  {
    // The panics that guard the state machine's own consistency.
    predicate Sanity() {
      this in {SetRoundPanic, PrevoteWaitPanic, POLRoundPanic, PrecommitWaitPanic,
               CommitPanic, FinalizeHeightPanic, FinalizeMajorityPanic, UpdateStatePanic}
    }

    // The complaints about what a majority is for: an invalid block, or a part-set
    // header with a negative total.
    predicate BadMajority() { this in {InvalidPolkaPanic, InvalidCommitPanic, FetchHeaderPanic} }
  }

  datatype Timeout = Timeout(height: int, round: int, step: int)

  datatype Proposal = Proposal(height: int, round: int, parts: PartsHeader, polRound: int, polBlock: BlockID)

  // A part set being filled.
  datatype Parts = Parts(header: PartsHeader, complete: bool)

  // A vote this node signed, with the polkas it had on record at that moment.
  datatype Signed = Signed(vote: Vote, polkas: map<int, BlockID>)

  // A block finalized at some height, its part-set header, and the round whose
  // precommits decided it.
  datatype Decided = Decided(block: nat, parts: PartsHeader, round: int)

  datatype Node = Node(
    halt: Halt, key: Option<PubKey>,
    height: int, round: int, step: int,
    proposal: Option<Proposal>, proposalBlock: Option<nat>, proposalParts: Option<Parts>,
    lockedRound: int, lockedBlock: Option<nat>, lockedParts: Option<Parts>,
    validRound: int, validBlock: Option<nat>, validParts: Option<Parts>,
    votes: HeightVotes, commitRound: int, lastCommit: Option<Tally>,
    timeouts: set<Timeout>, signed: seq<Signed>, proposed: seq<Proposal>, decided: map<int, Decided>)

  // What a part does: it is one of several still missing, it completes the set and
  // the bytes decode to a block, they do not, or its index is negative.
  datatype PartOutcome = Partial | Completes(block: nat) | Garbage | NegativeIndex

  datatype Event =
    | ProposalMsg(proposal: Proposal)
    | PartMsg(height: int, header: PartsHeader, outcome: PartOutcome)
    | VoteMsg(vote: Vote, peer: Peer)
    | TimeoutMsg(timeout: Timeout)
    | TxsAvailable(height: int)
    | PeerMaj23Msg(height: int, round: int, kind: VoteType, peer: Peer, block: BlockID)

  // A node starting at `height`, as NewConsensusState and OnStart leave it.
  function Init(c: Chain, key: Option<PubKey>, height: int, lastCommit: Option<Tally>): Node {
    Node(Running, key, height, 0, NEW_HEIGHT, None, None, None, 0, None, None, 0, None, None,
         NewHeightVotes(c.id, height, c.vals(height)), -1, lastCommit,
         {Timeout(height, 0, NEW_HEIGHT)}, [], [], map[])
  }

  function Polkas(h: HeightVotes): map<int, BlockID> {
    map r | r in h.sets && h.sets[r].prevotes.maj23.Some? :: h.sets[r].prevotes.maj23.value
  }

  function IndexOf(vals: seq<Validator>, addr: Address): int {
    if vals == [] then -1
    else if vals[|vals| - 1].addr == addr then |vals| - 1
    else IndexOf(vals[..|vals| - 1], addr)
  }

  predicate PrevotesAny(s: Node, r: int) {
    r in s.votes.sets && s.votes.sets[r].prevotes.HasTwoThirdsAny()
  }

  predicate PrecommitsAny(s: Node, r: int) {
    r in s.votes.sets && s.votes.sets[r].precommits.HasTwoThirdsAny()
  }

  // Block.HashesTo: false for a missing block and for the empty hash.
  predicate HashesTo(b: Option<nat>, id: BlockID) {
    b.Some? && id.Names(b.value)
  }

  // PartSet.HasHeader and PartSet.Header, which a missing set has too.
  predicate HasHeader(p: Option<Parts>, h: PartsHeader) {
    p.Some? && p.value.header == h
  }

  function HeaderOf(p: Option<Parts>): PartsHeader {
    if p.Some? then p.value.header else NO_PARTS
  }

  function Schedule(s: Node, round: int, step: int): Node {
    s.(timeouts := s.timeouts + {Timeout(s.height, round, step)})
  }

  function MakeVote(c: Chain, e: Env, s: Node, kind: VoteType, b: BlockID): Vote
    requires s.key.Some?
  {
    var addr := AddressOf(s.key.value);
    Vote(addr, IndexOf(c.vals(s.height), addr), s.height, s.round, e.time, kind, b,
         Signature(s.key.value, VoteBytes(c.id, s.height, s.round, kind, b, e.time), 0))
  }

  predicate IsValidator(c: Chain, s: Node) {
    s.key.Some? && IndexOf(c.vals(s.height), AddressOf(s.key.value)) >= 0
  }

  // signAddVote
  function SignAddVote(c: Chain, e: Env, s: Node, kind: VoteType, b: BlockID): Node {
    if IsValidator(c, s) && e.signsVotes then
      s.(signed := s.signed + [Signed(MakeVote(c, e, s, kind, b), Polkas(s.votes))])
    else s
  }

  // isProposalComplete
  predicate IsProposalComplete(s: Node) {
    && s.proposal.Some? && s.proposalBlock.Some?
    && (s.proposal.value.polRound < 0 || s.votes.Polka(s.proposal.value.polRound).Some?)
  }

  // enterNewRound
  function EnterNewRound(c: Chain, e: Env, s: Node, height: int, round: int): Node {
    if s.halt != Running || s.height != height || round < s.round || (s.round == round && s.step != NEW_HEIGHT)
    then s
    else
      var s1 := StartRound(s, round);
      if s1.halt != Running then s1
      else if c.waitForTxs && round == 0 && !(height == 1 || e.proofBlock) then
        if c.emptyBlocksInterval then Schedule(s1, round, NEW_ROUND) else s1
      else EnterPropose(c, e, s1, height, round)
  }

  // Round 0 keeps a proposal that came early; a later round starts without one.
  function StartRound(s: Node, round: int): Node {
    var s1 := s.(round := round, step := NEW_ROUND);
    var s2 := if round == 0 then s1 else s1.(proposal := None, proposalBlock := None, proposalParts := None);
    if SetRoundPanics(s2.votes, round + 1) then s2.(halt := SetRoundPanic)
    else s2.(votes := SetRound(s2.votes, round + 1))
  }

  // enterPropose
  function EnterPropose(c: Chain, e: Env, s: Node, height: int, round: int): Node {
    if s.halt != Running || s.height != height || round < s.round || (s.round == round && PROPOSE <= s.step)
    then s
    else
      var s1 := Propose(c, e, s, round);
      if IsProposalComplete(s1) then EnterPrevote(c, e, s1, height, s1.round) else s1
  }

  function Propose(c: Chain, e: Env, s: Node, round: int): Node {
    var s1 := Schedule(s, round, PROPOSE);
    var s2 := if IsValidator(c, s1) && e.isProposer then DecideProposal(e, s1, round) else s1;
    s2.(round := round, step := PROPOSE)
  }

  // defaultDecideProposal: the locked block, else the valid block, else a new one.
  function DecideProposal(e: Env, s: Node, round: int): Node {
    var created := if s.height == 1 || (s.lastCommit.Some? && s.lastCommit.value.maj23.Some?) then e.newBlock else None;
    var parts := if s.lockedBlock.Some? then Some(HeaderOf(s.lockedParts))
                 else if s.validBlock.Some? then Some(HeaderOf(s.validParts)) else created;
    if parts.None? || !e.signsProposals then s
    else
      var (polRound, polBlock) := POLInfo(s.votes, s.votes.round);
      s.(proposed := s.proposed + [Proposal(s.height, round, parts.value, polRound, polBlock)])
  }

  // enterPrevote
  function EnterPrevote(c: Chain, e: Env, s: Node, height: int, round: int): Node {
    if s.halt != Running || s.height != height || round < s.round || (s.round == round && PREVOTE <= s.step)
    then s
    else SignAddVote(c, e, s, Prevote, PrevoteChoice(c, s)).(round := round, step := PREVOTE)
  }

  // defaultDoPrevote: the locked block, else the proposal block if it is valid, else nil.
  function PrevoteChoice(c: Chain, s: Node): BlockID {
    if s.lockedBlock.Some? then Block(s.lockedBlock.value, HeaderOf(s.lockedParts))
    else if s.proposalBlock.Some? && c.valid(s.height, s.proposalBlock.value) then
      Block(s.proposalBlock.value, HeaderOf(s.proposalParts))
    else NilBlock
  }

  // enterPrevoteWait
  function EnterPrevoteWait(s: Node, height: int, round: int): Node {
    if s.halt != Running || s.height != height || round < s.round || (s.round == round && PREVOTE_WAIT <= s.step)
    then s
    else if !PrevotesAny(s, round) then s.(halt := PrevoteWaitPanic)
    else Schedule(s, round, PREVOTE_WAIT).(round := round, step := PREVOTE_WAIT)
  }

  // enterPrecommit
  function EnterPrecommit(c: Chain, e: Env, s: Node, height: int, round: int): Node {
    if s.halt != Running || s.height != height || round < s.round || (s.round == round && PRECOMMIT <= s.step)
    then s
    else Precommitted(c, e, s, round).(round := round, step := PRECOMMIT)
  }

  function Unlocked(s: Node): Node {
    s.(lockedRound := 0, lockedBlock := None, lockedParts := None)
  }

  // The body of enterPrecommit, before its deferred step update.
  function Precommitted(c: Chain, e: Env, s: Node, round: int): Node {
    match s.votes.Polka(round)
    case None => SignAddVote(c, e, s, Precommit, NilBlock)
    case Some(b) =>
      if POLInfo(s.votes, s.votes.round).0 < round then s.(halt := POLRoundPanic)
      else PrecommitPolka(c, e, s, round, b)
  }

  // Relock, lock, or unlock and fetch the block, according to the polka of the round.
  function PrecommitPolka(c: Chain, e: Env, s: Node, round: int, b: BlockID): Node {
    if b.NoHash? then SignAddVote(c, e, Unlocked(s), Precommit, NilBlock)
    else if HashesTo(s.lockedBlock, b) then SignAddVote(c, e, s.(lockedRound := round), Precommit, b)
    else if HashesTo(s.proposalBlock, b) then
      if !c.valid(s.height, b.id) then s.(halt := InvalidPolkaPanic)
      else SignAddVote(c, e, Locked(s, round), Precommit, b)
    else FetchThenNil(c, e, Unlocked(s), b.parts)
  }

  // A polka for a block the node does not have: it sets out to fetch it and precommits nil.
  function FetchThenNil(c: Chain, e: Env, s: Node, h: PartsHeader): Node {
    var s1 := FetchParts(s, h);
    if s1.halt != Running then s1 else SignAddVote(c, e, s1, Precommit, NilBlock)
  }

  // The proposal becomes the lock, with whatever parts are at hand.
  function Locked(s: Node, round: int): Node {
    s.(lockedRound := round, lockedBlock := s.proposalBlock, lockedParts := s.proposalParts)
  }

  // Set up to fetch a block unless its parts are already being collected.
  // NewPartSetFromHeader makes a slice, which panics on a negative length.
  function FetchParts(s: Node, h: PartsHeader): Node {
    if HasHeader(s.proposalParts, h) then s
    else if h.total < 0 then s.(proposalBlock := None, halt := FetchHeaderPanic)
    else s.(proposalBlock := None, proposalParts := Some(Parts(h, false)))
  }

  // enterPrecommitWait
  function EnterPrecommitWait(s: Node, height: int, round: int): Node {
    if s.halt != Running || s.height != height || round < s.round || (s.round == round && PRECOMMIT_WAIT <= s.step)
    then s
    else if !PrecommitsAny(s, round) then s.(halt := PrecommitWaitPanic)
    else Schedule(s, round, PRECOMMIT_WAIT).(round := round, step := PRECOMMIT_WAIT)
  }

  // enterCommit; addVote enters it only for a block, never for nil.
  function EnterCommit(c: Chain, e: Env, s: Node, height: int, commitRound: int): Node {
    if s.halt != Running || s.height != height || COMMIT <= s.step then s
    else
      match s.votes.Decision(commitRound)
      case None => s.(halt := CommitPanic)
      case Some(b) => TryFinalizeCommit(c, e, Committing(s, commitRound, b), height)
  }

  // The locked block stands in for the proposal if it is the one decided;
  // otherwise set up to fetch the block.
  function Committing(s: Node, commitRound: int, b: BlockID): Node {
    var s1 := if HashesTo(s.lockedBlock, b) then
                s.(proposalBlock := s.lockedBlock, proposalParts := s.lockedParts)
              else s;
    var s2 := if HashesTo(s1.proposalBlock, b) then s1 else FetchParts(s1, b.parts);
    s2.(step := COMMIT, commitRound := commitRound)
  }

  // tryFinalizeCommit
  function TryFinalizeCommit(c: Chain, e: Env, s: Node, height: int): Node {
    if s.halt != Running then s
    else if s.height != height then s.(halt := FinalizeHeightPanic)
    else
      var decision := s.votes.Decision(s.commitRound);
      if decision.None? || !HashesTo(s.proposalBlock, decision.value) then s
      else FinalizeCommit(c, e, s, height)
  }

  // finalizeCommit
  function FinalizeCommit(c: Chain, e: Env, s: Node, height: int): Node {
    if s.height != height || s.step != COMMIT then s
    else if s.votes.Decision(s.commitRound).None? then s.(halt := FinalizeMajorityPanic)
    else
      var b := s.votes.Decision(s.commitRound).value;
      if !HasHeader(s.proposalParts, b.parts) || !HashesTo(s.proposalBlock, b) then s.(halt := PartsPanic)
      else if !c.valid(height, b.id) then s.(halt := InvalidCommitPanic)
      else if !s.proposalParts.value.complete then s.(halt := SaveBlockPanic)
      else
        var s1 := s.(decided := s.decided[height := Decided(b.id, b.parts, s.commitRound)]);
        if !e.applies then s1.(halt := ApplyFailed) else UpdateToState(c, s1)
  }

  // updateToState and scheduleRound0, for the state of the block just applied.
  function UpdateToState(c: Chain, s: Node): Node {
    if s.commitRound > -1 && s.votes.Decision(s.commitRound).None? then s.(halt := UpdateStatePanic)
    else
      var height := s.height + 1;
      var lastCommit := if s.commitRound > -1 && s.commitRound in s.votes.sets
                        then Some(s.votes.sets[s.commitRound].precommits) else None;
      s.(height := height, round := 0, step := NEW_HEIGHT,
         proposal := None, proposalBlock := None, proposalParts := None,
         lockedRound := 0, lockedBlock := None, lockedParts := None,
         validRound := 0, validBlock := None, validParts := None,
         votes := NewHeightVotes(c.id, height, c.vals(height)),
         commitRound := -1, lastCommit := lastCommit,
         timeouts := s.timeouts + {Timeout(height, 0, NEW_HEIGHT)})
  }

  // ---- Inputs ----

  // defaultSetProposal
  function HandleProposal(s: Node, p: Proposal): Node {
    if s.proposal.Some? || p.height != s.height || p.round != s.round || COMMIT <= s.step then s
    else if p.polRound != -1 && (p.polRound < 0 || p.round <= p.polRound) then s
    else if p.parts.total < 0 then s.(proposal := Some(p), halt := ProposalHeaderPanic)
    else s.(proposal := Some(p), proposalParts := Some(Parts(p.parts, false)))
  }

  // addProposalBlockPart, for a part that proves itself under `header`; one with a
  // negative index panics before its proof is looked at.
  function HandlePart(c: Chain, e: Env, s: Node, height: int, header: PartsHeader, outcome: PartOutcome): Node {
    if s.height != height || s.proposalParts.None? then s
    else if outcome == NegativeIndex then s.(halt := PartIndexPanic)
    else if s.proposalParts.value.header != header || s.proposalParts.value.complete then s
    else if outcome == Partial then s
    else
      var s1 := s.(proposalParts := Some(Parts(header, true)));
      if outcome == Garbage then s1
      else
        var s2 := Assembled(s1, outcome.block);
        if s2.step <= PROPOSE && IsProposalComplete(s2) then EnterPrevote(c, e, s2, height, s2.round)
        else if s2.step == COMMIT then TryFinalizeCommit(c, e, s2, height)
        else s2
  }

  // The proposal block is there; it is the valid block if this round has a polka for it.
  function Assembled(s: Node, block: nat): Node {
    var s1 := s.(proposalBlock := Some(block));
    var polka := s1.votes.Polka(s1.round);
    if s1.validRound < s1.round && polka.Some? && polka.value.Names(block)
    then s1.(validRound := s1.round, validBlock := Some(block), validParts := s1.proposalParts) else s1
  }

  // addVote
  function HandleVote(c: Chain, e: Env, s: Node, v: Vote, peer: Peer): Node
    requires ShapeAll(s.votes) && (s.lastCommit.Some? ==> Shape(s.lastCommit.value))
  {
    if v.height + 1 == s.height then
      if !(s.step == NEW_HEIGHT && v.kind == Precommit) then s
      else if s.lastCommit.None? then s.(halt := NilLastCommitPanic)
      else
        var r := AddVote(s.lastCommit.value, v);
        var s1 := s.(lastCommit := Some(r.tally));
        if r.added && c.skipTimeoutCommit && r.tally.HasAll() then EnterNewRound(c, e, s1, s1.height, 0) else s1
    else if v.height != s.height then s
    else
      var r := AddVoteTo(s.votes, v, peer);
      var s1 := s.(votes := r.votes);
      if !r.added then s1
      else if v.kind == Prevote then OnPrevote(c, e, s1, v.round)
      else OnPrecommit(c, e, s1, v.round)
  }

  // A recent polka for something else releases the lock.
  function Unlocking(s: Node, r: int): Node {
    var polka := s.votes.Polka(r);
    if polka.Some? && s.lockedBlock.Some? && s.lockedRound < r <= s.round && !HashesTo(s.lockedBlock, polka.value)
    then Unlocked(s) else s
  }

  // A recent polka for the proposal block makes it the valid block.
  function Validating(s: Node, r: int): Node {
    var polka := s.votes.Polka(r);
    if polka.Some? && s.validRound < r <= s.round && HashesTo(s.proposalBlock, polka.value)
    then s.(validRound := r, validBlock := s.proposalBlock, validParts := s.proposalParts) else s
  }

  // addVote after a prevote for round `r` was added
  function OnPrevote(c: Chain, e: Env, s: Node, r: int): Node {
    var s1 := Validating(Unlocking(s, r), r);
    if s1.round <= r && PrevotesAny(s1, r) then JoinPrevotes(c, e, s1, r)
    else if s1.proposal.Some? && 0 <= s1.proposal.value.polRound == r && IsProposalComplete(s1) then
      EnterPrevote(c, e, s1, s1.height, s1.round)
    else s1
  }

  // Most validators have prevoted at round `r`.
  function JoinPrevotes(c: Chain, e: Env, s: Node, r: int): Node {
    var s1 := EnterNewRound(c, e, s, s.height, r);
    if s.votes.Polka(r).Some? then EnterPrecommit(c, e, s1, s.height, r)
    else EnterPrevoteWait(EnterPrevote(c, e, s1, s.height, r), s.height, r)
  }

  // addVote after a precommit for round `r` was added
  function OnPrecommit(c: Chain, e: Env, s: Node, r: int): Node {
    match s.votes.Decision(r)
    case Some(b) =>
      if b.NoHash? then EnterNewRound(c, e, s, s.height, r + 1) else OnDecision(c, e, s, r)
    case None =>
      if s.round <= r && PrecommitsAny(s, r) then JoinPrecommits(c, e, s, r) else s
  }

  // Most validators have precommitted one block at round `r`.
  function OnDecision(c: Chain, e: Env, s: Node, r: int): Node {
    var s1 := EnterNewRound(c, e, s, s.height, r);
    var s2 := EnterPrecommit(c, e, s1, s.height, r);
    var s3 := EnterCommit(c, e, s2, s.height, r);
    if c.skipTimeoutCommit && r in s.votes.sets && s.votes.sets[r].precommits.HasAll()
    then EnterNewRound(c, e, s3, s3.height, 0) else s3
  }

  // Most validators have precommitted at round `r`, for no one block.
  function JoinPrecommits(c: Chain, e: Env, s: Node, r: int): Node {
    EnterPrecommitWait(EnterPrecommit(c, e, EnterNewRound(c, e, s, s.height, r), s.height, r), s.height, r)
  }

  // handleTimeout, for a timeout this node scheduled
  function HandleTimeout(c: Chain, e: Env, s: Node, ti: Timeout): Node {
    if ti !in s.timeouts then s
    else if ti.height != s.height || ti.round < s.round || (ti.round == s.round && ti.step < s.step) then s
    else if ti.step == NEW_HEIGHT then EnterNewRound(c, e, s, ti.height, 0)
    else if ti.step == NEW_ROUND then EnterPropose(c, e, s, ti.height, 0)
    else if ti.step == PROPOSE then EnterPrevote(c, e, s, ti.height, ti.round)
    else if ti.step == PREVOTE_WAIT then EnterPrecommit(c, e, s, ti.height, ti.round)
    else if ti.step == PRECOMMIT_WAIT then EnterNewRound(c, e, s, ti.height, ti.round + 1)
    else s
  }

  function Handle(c: Chain, e: Env, s: Node, ev: Event): Node
    requires ShapeAll(s.votes) && (s.lastCommit.Some? ==> Shape(s.lastCommit.value))
  {
    if s.halt != Running then s
    else
      match ev
      case ProposalMsg(p) => HandleProposal(s, p)
      case PartMsg(height, header, outcome) => HandlePart(c, e, s, height, header, outcome)
      case VoteMsg(v, peer) => HandleVote(c, e, s, v, peer)
      case TimeoutMsg(ti) => HandleTimeout(c, e, s, ti)
      case TxsAvailable(height) => EnterPropose(c, e, s, height, 0)
      case PeerMaj23Msg(height, round, kind, peer, b) =>
        if height != s.height then s else s.(votes := SetPeerMaj23In(s.votes, round, kind, peer, b))
  }
}
