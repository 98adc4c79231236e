// Inputs on which the code does not do what one would expect of it: a run of one
// node into the panic of finalizeCommit, an accepted commit from which LastCommit
// is not rebuilt, and an accepted update whose validators the header does not name.
module Counterexamples {
  import opened Types
  import opened Power
  import opened VoteSets
  import opened HeightVoteSets
  import opened Commits
  import opened CommitsAny
  import opened Lite
  import opened Consensus
  import opened NodeInvariants
  import opened NodeTheorems
  import opened NodeProgress
  import opened NodePanics

  const SOLO := [Validator(AddressOf(0), 0, 1, 0)]
  const CHAIN := Chain("solo", (h: int) => SOLO, (h: int, b: nat) => true, false, false, false)
  const PARTS := PartsHeader(1, 7)
  const ENV := Env(0, true, false, None, true, true, true)

  function Ballot(kind: VoteType): Vote {
    Vote(AddressOf(0), 0, 1, 0, 0, kind, Block(7, PARTS),
         Signature(0, VoteBytes("solo", 1, 0, kind, Block(7, PARTS), 0), 0))
  }

  lemma SoloPower()
    ensures ExactPowers(SOLO) && Sum(SOLO) == 1 && TotalVotingPower(SOLO) == 1 && Threshold(SOLO) == 0
    ensures ChainOK(CHAIN)
  {
    assert SOLO[..0] == [];
    TotalIsClampedSum(SOLO);
    ThresholdExact(SOLO);
  }

  // ---- An accepted commit that panics at the next start ----

  const COMMITTED := Commit(Block(7, PARTS), [Some(Ballot(Precommit))])

  lemma CommittedCertifies()
    ensures Certifies(SOLO, "solo", Block(7, PARTS), 1, COMMITTED) && CommitRound(COMMITTED) == 0
  {
    SoloPower();
    hide Threshold;
    assert Signers(COMMITTED.precommits, Block(7, PARTS)) == {0};
    assert SOLO[..0] == [];
  }

  // The same commit with another index in its one vote.
  lemma AcceptedNotRebuilt()
    ensures var c := Commit(Block(7, PARTS), [Some(Ballot(Precommit).(index := 5))]);
      && Certifies(SOLO, "solo", Block(7, PARTS), 1, c) && !InPlace(SOLO, c.precommits)
      && TallyInv(NewTally("solo", 1, CommitRound(c), Precommit, SOLO))
      && Feed(NewTally("solo", 1, CommitRound(c), Precommit, SOLO), c.precommits).None?
  {
    SoloPower();
    CommittedCertifies();
    hide Certifies, TallyInv, Feed, Threshold;
    MisplacedCommit(SOLO, "solo", Block(7, PARTS), 1, COMMITTED, 0, 5);
    var c := Misplaced(COMMITTED, 0, 5);
    assert c == Commit(Block(7, PARTS), [Some(Ballot(Precommit).(index := 5))]);
    assert c.precommits[0].value.index != 0;
  }

  // ---- An accepted update with other validators than the header's ----

  const HEADER := Header("solo", 1, HashOf(SOLO), 7)
  const HEAVY := [Validator(AddressOf(0), 0, 2, 0)]
  const UPDATE := FullCommit(Checkpoint(Some(HEADER), Some(COMMITTED)), HEAVY)

  // The certifier's update compares signatures and powers, never the hash: the
  // header names the validator with power 1 and the update installs it with 2.
  lemma UnnamedValidators()
    ensures Accepts("solo", SOLO, UPDATE) && HashOf(UPDATE.vals) != UPDATE.check.header.value.valsHash
  {
    SoloPower();
    HeavyPower();
    hide Threshold, TotalVotingPower, Sum;
    assert HashOf(HEAVY)[0].2 == 2 && HashOf(SOLO)[0].2 == 1;
    var pre := COMMITTED.precommits;
    assert pre[..0] == [];
    var seats := Scan(SOLO, "solo", Block(7, PARTS), 1, 0, pre);
    assert seats == Some(map[0 := 0]);
  }

  lemma HeavyPower()
    ensures ExactPowers(HEAVY) && Sum(HEAVY) == 2 && TotalVotingPower(HEAVY) == 2 && Threshold(HEAVY) == 1
  {
    assert HEAVY[..0] == [];
    TotalIsClampedSum(HEAVY);
    ThresholdExact(HEAVY);
  }

  // ---- A source that the bisection never gets away from ----

  const TRUSTED := FullCommit(Checkpoint(Some(HEADER), Some(COMMITTED)), SOLO)

  // A commit at height 2, signed by a validator that SOLO does not know.
  const STRANGERS := [Validator(AddressOf(1), 1, 1, 0)]
  const STRANGE := Vote(AddressOf(1), 0, 2, 0, 0, Precommit, Block(8, PARTS),
                        Signature(1, VoteBytes("solo", 2, 0, Precommit, Block(8, PARTS), 0), 0))
  const FAR := FullCommit(Checkpoint(Some(Header("solo", 2, HashOf(STRANGERS), 8)),
                                     Some(Commit(Block(8, PARTS), [Some(STRANGE)]))), STRANGERS)

  lemma FarIsTooMuch()
    ensures Storable(TRUSTED) && TRUSTED.Height() == 1
    ensures FAR.Height() == 2 && Consistent("solo", FAR.check) && !Accepts("solo", SOLO, FAR)
  {
    SoloPower();
    hide Threshold, TotalVotingPower, Sum;
    var pre := [Some(STRANGE)];
    assert pre[..0] == [] && SOLO[..0] == [];
    assert Scan(SOLO, "solo", Block(8, PARTS), 2, 0, pre) == Some(map[]);
    var none: map<int, int> := map[];
    WeightEmpty(SOLO, none.Keys);
  }

  // A certifier started at a commit, and a source that always answers one out of reach
  // of its validators: whatever height it is sent to, and however deep its call stack,
  // it does not come back.
  method NeverComesBack(chain: ChainID, fc: FullCommit, far: FullCommit, h: int, depth: nat) returns (err: LiteError)
    requires Storable(fc) && far.Height() > fc.Height() && Consistent(chain, far.check) && !Accepts(chain, fc.vals, far)
    ensures err == TooDeep
  {
    hide Storable, Accepts, Consistent, FullCommit.Height;
    var store := new MemStore();
    var ic;
    ic, err := InquiringCertifier.New(chain, fc, store,
                                      (n: nat, h: int) => Some(far), (n: nat, hash: ValsHash) => None);
    assert store.byHeight == [fc];
    err := ic.UpdateToHeight(h, depth);
  }

  method StubbornSource(h: int, depth: nat) returns (err: LiteError)
    ensures err == TooDeep
  {
    FarIsTooMuch();
    hide Storable, Accepts, Consistent;
    err := NeverComesBack("solo", TRUSTED, FAR, h, depth);
  }

  // ---- A run into finalizeCommit's panic ----

  function Empty(kind: VoteType): Tally { NewTally("solo", 1, 0, kind, SOLO) }

  function Full(kind: VoteType): Tally { AddVote(Empty(kind), Ballot(kind)).tally }

  lemma BallotIsNew(kind: VoteType)
    requires !kind.UnknownType?
    ensures var t := Empty(kind); var v := Ballot(kind);
      && Shape(t) && t.maj23.None?
      && AddVote(t, v) == AddResult(Track(Canonical(t, v), v, NewBlockVotes(false, 1)), true, NoError)
  {
    hide Track, Canonical;
  }

  lemma BallotIsFirst(kind: VoteType)
    ensures var v := Ballot(kind);
      && Canonical(Empty(kind), v) == Empty(kind).(votes := [Some(v)], bits := [true], sum := 1)
      && NewBlockVotes(false, 1).Add(v, 1) == BlockVotes(false, [true], [Some(v)], 1)
  {
    var t, bv := Empty(kind), NewBlockVotes(false, 1);
    assert t.votes == [None] && t.bits == [false];
    assert bv.votes == [None] && bv.bits == [false];
    hide NewTally, NewBlockVotes;
  }

  lemma BallotWins(kind: VoteType)
    ensures var v := Ballot(kind);
            var t' := Track(Canonical(Empty(kind), v), v, NewBlockVotes(false, 1));
      Shape(t') && t'.maj23 == Some(Block(7, PARTS)) && t'.HasTwoThirdsAny()
  {
    SoloPower();
    hide Threshold, TotalVotingPower, Sum, ExactPowers, Canonical, BlockVotes.Add;
    BallotIsFirst(kind);
  }

  lemma BallotCounts(kind: VoteType)
    requires !kind.UnknownType?
    ensures Shape(Empty(kind)) && Empty(kind).maj23.None?
    ensures var r := AddVote(Empty(kind), Ballot(kind)); r.added && r.tally == Full(kind)
    ensures Shape(Full(kind)) && Full(kind).maj23 == Some(Block(7, PARTS)) && Full(kind).HasTwoThirdsAny()
  {
    hide AddVote, Track, Canonical, Threshold, Shape, NewTally;
    BallotIsNew(kind);
    BallotWins(kind);
  }

  // An observer at round 0 of height 1, with these prevotes for the round.
  predicate At(s: Node, step: int, prevotes: Tally) {
    && s.halt == Running && s.key.None? && s.height == 1 && s.round == 0 && s.step == step
    && ShapeAll(s.votes) && s.lastCommit.None? && s.validRound == 0
    && 0 in s.votes.sets && s.votes.sets[0] == RoundVotes(prevotes, Empty(Precommit))
    && s.votes.height == 1 && s.votes.round == 1
  }

  predicate Started(s: Node) {
    && At(s, PROPOSE, Empty(Prevote)) && s.lockedBlock.None?
    && s.proposal.None? && s.proposalBlock.None? && s.proposalParts.None?
  }

  lemma NewShape(h: HeightVotes)
    requires forall r :: r in h.sets ==> h.sets[r] == NewRoundVotes(h.chain, h.height, r, h.vals)
    ensures ShapeAll(h)
  {
  }

  lemma Starts(s: Node)
    requires s == Init(CHAIN, None, 1, None)
    ensures ShapeAll(s.votes)
    ensures Started(Handle(CHAIN, ENV, s, TimeoutMsg(Timeout(1, 0, NEW_HEIGHT))))
  {
    hide NewTally, ShapeAll, Shape, IndexOf, DecideProposal;
    NewShape(s.votes);
    NewShape(SetRound(s.votes, 1));
    assert EnterNewRound(CHAIN, ENV, s, 1, 0) == EnterPropose(CHAIN, ENV, StartRound(s, 0), 1, 0);
  }

  function Propose(parts: PartsHeader): Event { ProposalMsg(Proposal(1, 0, parts, -1, NilBlock)) }

  lemma OneInput(s: Node, ev: Event, rest: seq<Input>)
    requires ChainOK(CHAIN) && NodeInv(CHAIN, s)
    ensures ShapeAll(s.votes) && (s.lastCommit.Some? ==> Shape(s.lastCommit.value))
    ensures var s' := Handle(CHAIN, ENV, s, ev);
      NodeInv(CHAIN, s') && RunNode(CHAIN, s, [Input(ENV, ev)] + rest) == RunNode(CHAIN, s', rest)
  {
    hide NodeInv, ChainOK, Handle;
    HandleInv(CHAIN, ENV, s, ev);
    assert ([Input(ENV, ev)] + rest)[1..] == rest;
  }

  // The last precommit: the block is decided, under PARTS.
  const LAST := [Input(ENV, VoteMsg(Ballot(Precommit), 0))] + []

  lemma LastVoteDecides(s: Node, prevotes: Tally)
    requires At(s, PRECOMMIT, prevotes)
    ensures var ev := VoteMsg(Ballot(Precommit), 0);
      && Counts(s, ev) && HoldingOf(With(s, ev)) == HoldingOf(s) && With(s, ev).height == 1
      && With(s, ev).votes.Decision(0) == Some(Block(7, PARTS)) && !WillPrecommit(With(s, ev), 0)
  {
    hide Empty, Full, AddVote, Shape, Threshold;
    BallotCounts(Precommit);
  }

  lemma LastVotePanics(s: Node, prevotes: Tally)
    requires ChainOK(CHAIN) && NodeInv(CHAIN, s) && At(s, PRECOMMIT, prevotes)
    ensures WrongHeader(HoldingOf(s), Block(7, PARTS)) ==> RunNode(CHAIN, s, LAST).halt == PartsPanic
    ensures PartsMissing(CHAIN, 1, HoldingOf(s), Block(7, PARTS)) ==> RunNode(CHAIN, s, LAST).halt == SaveBlockPanic
  {
    hide NodeInv, ChainOK, Handle, Counts, With, HoldingOf, WrongHeader, PartsMissing, Empty, Shape;
    var ev := VoteMsg(Ballot(Precommit), 0);
    OneInput(s, ev, []);
    LastVoteDecides(s, prevotes);
    WithSameStep(s, ev);
    PeerPanicsIff(CHAIN, ENV, s, ev);
  }

  lemma WithSameStep(s: Node, ev: Event)
    requires ShapeAll(s.votes) && ev.VoteMsg?
    ensures With(s, ev).step == s.step && With(s, ev).round == s.round
  {
  }

  // ---- The proposal comes after the block ----

  // On the polka the observer moves to its precommit step and sets out to fetch the block.
  lemma JoinsPolka(s: Node)
    requires s.halt == Running && s.height == 1 && s.round == 0 && s.step == PROPOSE && s.key.None?
    requires s.lockedBlock.None? && s.validRound == 0 && PrevotesAny(s, 0)
    requires s.votes.round == 1 && s.votes.Polka(0) == Some(Block(7, PARTS))
    requires s.proposalBlock.None? && s.proposalParts.None?
    ensures OnPrevote(CHAIN, ENV, s, 0) ==
      s.(step := PRECOMMIT, lockedRound := 0, lockedParts := None, proposalParts := Some(Parts(PARTS, false)))
  {
    POLInfoIsHighest(s.votes, 1);
    hide POLInfo, PrevotesAny;
  }

  lemma SetsOut(s: Node)
    requires Started(s)
    ensures var s' := Handle(CHAIN, ENV, s, VoteMsg(Ballot(Prevote), 0));
      && At(s', PRECOMMIT, Full(Prevote)) && s'.proposalParts == Some(Parts(PARTS, false))
      && s'.lockedBlock.None? && s'.proposal.None?
  {
    hide Empty, Full, AddVote, Shape, Threshold, OnPrevote, Handle;
    BallotCounts(Prevote);
    CountedVote(CHAIN, ENV, s, Ballot(Prevote), 0, Full(Prevote));
    JoinsPolka(s.(votes := WithTally(s.votes, 0, Prevote, Full(Prevote))));
  }

  lemma HasBlock(s: Node)
    requires At(s, PRECOMMIT, Full(Prevote)) && s.proposalParts == Some(Parts(PARTS, false))
    requires s.lockedBlock.None? && s.proposal.None?
    ensures var s' := Handle(CHAIN, ENV, s, PartMsg(1, PARTS, Completes(7)));
      At(s', PRECOMMIT, Full(Prevote)) && s'.proposalBlock == Some(7) && s'.lockedBlock.None? && s'.proposal.None?
  {
    hide Empty, Full, ShapeAll, EnterPrevote;
  }

  // A proposal replaces the part set that the block came from.
  lemma LosesParts(s: Node, parts: PartsHeader)
    requires At(s, PRECOMMIT, Full(Prevote)) && s.proposalBlock == Some(7) && s.lockedBlock.None? && s.proposal.None?
    requires parts.total >= 0
    ensures var s' := Handle(CHAIN, ENV, s, Propose(parts));
      && At(s', PRECOMMIT, Full(Prevote)) && s'.lockedBlock.None?
      && s'.proposalBlock == Some(7) && s'.proposalParts == Some(Parts(parts, false))
  {
    hide Empty, Full, ShapeAll;
  }

  // A timeout, the polka, the block, then the proposal of the round, then the decision.
  function Late(parts: PartsHeader): seq<Input> {
    [Input(ENV, TimeoutMsg(Timeout(1, 0, NEW_HEIGHT)))] + ([Input(ENV, VoteMsg(Ballot(Prevote), 0))] +
      ([Input(ENV, PartMsg(1, PARTS, Completes(7)))] + ([Input(ENV, Propose(parts))] + LAST)))
  }

  // Whether the late proposal is for the part set the block came from or for another:
  // the node has the block, and panics when it is decided.
  lemma LateProposalPanics(parts: PartsHeader)
    requires parts.total >= 0
    ensures ChainOK(CHAIN) && NodeInv(CHAIN, Init(CHAIN, None, 1, None))
    ensures RunNode(CHAIN, Init(CHAIN, None, 1, None), Late(parts)).halt ==
      if parts == PARTS then SaveBlockPanic else PartsPanic
  {
    hide NodeInv, ChainOK, Handle, Init, At, RunNode, Empty, Full;
    SoloPower();
    InitInv(CHAIN, None, 1, None);
    var s0 := Init(CHAIN, None, 1, None);
    var fourth := [Input(ENV, Propose(parts))] + LAST;
    var third := [Input(ENV, PartMsg(1, PARTS, Completes(7)))] + fourth;
    var second := [Input(ENV, VoteMsg(Ballot(Prevote), 0))] + third;
    OneInput(s0, TimeoutMsg(Timeout(1, 0, NEW_HEIGHT)), second);
    Starts(s0);
    var s1 := Handle(CHAIN, ENV, s0, TimeoutMsg(Timeout(1, 0, NEW_HEIGHT)));
    OneInput(s1, VoteMsg(Ballot(Prevote), 0), third);
    SetsOut(s1);
    var s2 := Handle(CHAIN, ENV, s1, VoteMsg(Ballot(Prevote), 0));
    OneInput(s2, PartMsg(1, PARTS, Completes(7)), fourth);
    HasBlock(s2);
    var s3 := Handle(CHAIN, ENV, s2, PartMsg(1, PARTS, Completes(7)));
    OneInput(s3, Propose(parts), LAST);
    LosesParts(s3, parts);
    LastVotePanics(Handle(CHAIN, ENV, s3, Propose(parts)), Full(Prevote));
  }

  // ---- The block is cut another way ----

  const OTHER := PartsHeader(2, 8)

  lemma TakesProposal(s: Node)
    requires Started(s)
    ensures var s' := Handle(CHAIN, ENV, s, Propose(OTHER));
      && At(s', PROPOSE, Empty(Prevote)) && s'.lockedBlock.None? && s'.proposalBlock.None?
      && s'.proposal == Some(Propose(OTHER).proposal) && s'.proposalParts == Some(Parts(OTHER, false))
  {
    hide Empty, ShapeAll;
  }

  // The parts of the other cut make up the same block.
  lemma Completed(s: Node)
    requires At(s, PROPOSE, Empty(Prevote)) && s.lockedBlock.None?
    requires s.proposal == Some(Propose(OTHER).proposal) && s.proposalParts == Some(Parts(OTHER, false))
    ensures var s' := Handle(CHAIN, ENV, s, PartMsg(1, OTHER, Completes(7)));
      && At(s', PREVOTE, Empty(Prevote)) && s'.lockedBlock.None?
      && s'.proposalBlock == Some(7) && s'.proposalParts == Some(Parts(OTHER, true))
  {
    hide Empty, ShapeAll, Shape;
    BallotCounts(Prevote);
  }

  // On the polka the node locks the block, with the parts it has.
  lemma Locks(s: Node)
    requires s.halt == Running && s.height == 1 && s.round == 0 && s.step == PREVOTE && s.key.None?
    requires s.lockedBlock.None? && s.validRound == 0 && PrevotesAny(s, 0)
    requires s.votes.round == 1 && s.votes.Polka(0) == Some(Block(7, PARTS)) && s.proposalBlock == Some(7)
    ensures OnPrevote(CHAIN, ENV, s, 0) ==
      s.(step := PRECOMMIT, lockedRound := 0, lockedBlock := Some(7), lockedParts := s.proposalParts)
  {
    POLInfoIsHighest(s.votes, 1);
    hide POLInfo, PrevotesAny;
  }

  lemma LocksOther(s: Node)
    requires At(s, PREVOTE, Empty(Prevote)) && s.lockedBlock.None?
    requires s.proposalBlock == Some(7) && s.proposalParts == Some(Parts(OTHER, true))
    ensures var s' := Handle(CHAIN, ENV, s, VoteMsg(Ballot(Prevote), 0));
      At(s', PRECOMMIT, Full(Prevote)) && s'.lockedBlock == Some(7) && s'.lockedParts == Some(Parts(OTHER, true))
  {
    hide Empty, Full, AddVote, Shape, Threshold, OnPrevote, Handle;
    BallotCounts(Prevote);
    CountedVote(CHAIN, ENV, s, Ballot(Prevote), 0, Full(Prevote));
    Locks(s.(votes := WithTally(s.votes, 0, Prevote, Full(Prevote))));
  }

  const THIRD := [Input(ENV, VoteMsg(Ballot(Prevote), 0))] + LAST
  const SECOND := [Input(ENV, PartMsg(1, OTHER, Completes(7)))] + THIRD
  const FIRST := [Input(ENV, Propose(OTHER))] + SECOND
  const RECUT := [Input(ENV, TimeoutMsg(Timeout(1, 0, NEW_HEIGHT)))] + FIRST

  // The proposal and the parts are of another cut of the block that the others vote
  // for: the node locks the block, and panics when it is decided.
  lemma RecutBlockPanics()
    ensures ChainOK(CHAIN) && NodeInv(CHAIN, Init(CHAIN, None, 1, None))
    ensures RunNode(CHAIN, Init(CHAIN, None, 1, None), RECUT).halt == PartsPanic
  {
    hide NodeInv, ChainOK, Handle, Init, At, RunNode, Empty, Full;
    SoloPower();
    InitInv(CHAIN, None, 1, None);
    var s0 := Init(CHAIN, None, 1, None);
    OneInput(s0, TimeoutMsg(Timeout(1, 0, NEW_HEIGHT)), FIRST);
    Starts(s0);
    var s1 := Handle(CHAIN, ENV, s0, TimeoutMsg(Timeout(1, 0, NEW_HEIGHT)));
    OneInput(s1, Propose(OTHER), SECOND);
    TakesProposal(s1);
    var s2 := Handle(CHAIN, ENV, s1, Propose(OTHER));
    OneInput(s2, PartMsg(1, OTHER, Completes(7)), THIRD);
    Completed(s2);
    var s3 := Handle(CHAIN, ENV, s2, PartMsg(1, OTHER, Completes(7)));
    OneInput(s3, VoteMsg(Ballot(Prevote), 0), LAST);
    LocksOther(s3);
    LastVotePanics(Handle(CHAIN, ENV, s3, VoteMsg(Ballot(Prevote), 0)), Full(Prevote));
  }
}
