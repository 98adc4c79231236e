// One of the four at work: what it does with ballots, proposals and timeouts over a
// round that decides and a round that does not.
module FourNode {
  import opened Types
  import opened Power
  import opened VoteSets
  import opened HeightVoteSets
  import opened Consensus
  import opened NodeInvariants
  import opened NodeProgress
  import opened NodeTheorems
  import opened Four

  // ---- One node, step by step ----

  // The tallies of round `r` show these prevotes and precommits.
  ghost predicate Boxes(s: Node, r: int, pv: Ballots, pc: Ballots) {
    && r in s.votes.sets && |pv| == |pc| == 4
    && Shows(s.votes.sets[r].prevotes, r, Prevote, pv) && Shows(s.votes.sets[r].precommits, r, Precommit, pc)
  }

  // The node of validator `k`, running in round `r` of height 1; the proposal it may
  // have names no earlier polka.
  predicate At(s: Node, k: PubKey, r: int, step: int) {
    && s.halt == Running && s.key == Some(k) && s.height == 1 && s.round == r && s.step == step
    && ShapeAll(s.votes) && s.lastCommit.None? && s.votes.round == r + 1 && s.decided == map[]
    && (s.proposal.Some? ==> s.proposal.value.polRound < 0)
  }

  // Only the tallies of round `r` have changed.
  predicate CountedAt(s: Node, s': Node, r: int) {
    && s' == s.(votes := s'.votes) && s'.votes.round == s.votes.round && ShapeAll(s'.votes)
    && forall q :: q != r && q in s.votes.sets ==> q in s'.votes.sets && s'.votes.sets[q] == s.votes.sets[q]
  }

  function Tell(i: nat, r: int, kind: VoteType, b: BlockID): Event { VoteMsg(V(i, r, kind, b), 0) }

  // A prevote, or a precommit, is taken into its tally.
  lemma Counts(s: Node, k: PubKey, r: int, step: int, pv: Ballots, pc: Ballots, i: nat, kind: VoteType, b: BlockID)
    returns (s': Node)
    requires At(s, k, s.round, step) && Boxes(s, r, pv, pc) && i < 4 && !kind.UnknownType?
    requires if kind.Prevote? then pv[i].None? else pc[i].None?
    ensures CountedAt(s, s', r)
    ensures if kind.Prevote? then Boxes(s', r, pv[i := Some(b)], pc) else Boxes(s', r, pv, pc[i := Some(b)])
    ensures Handle(CHAIN, ENV, s, Tell(i, r, kind, b)) ==
      if kind.Prevote? then OnPrevote(CHAIN, ENV, s', r) else OnPrecommit(CHAIN, ENV, s', r)
  {
    hide Shows, Shape, AddVote, OnPrevote, OnPrecommit, Handle, V;
    var t := if kind.Prevote? then s.votes.sets[r].prevotes else s.votes.sets[r].precommits;
    BallotCounts(t, r, kind, if kind.Prevote? then pv else pc, i, b);
    VoteFields(i, r, kind, b);
    CountedVote(CHAIN, ENV, s, V(i, r, kind, b), 0, AddVote(t, V(i, r, kind, b)).tally);
    s' := s.(votes := WithTally(s.votes, r, kind, AddVote(t, V(i, r, kind, b)).tally));
  }

  lemma VoteFields(i: nat, r: int, kind: VoteType, b: BlockID)
    ensures var v := V(i, r, kind, b); v.height == 1 && v.round == r && v.kind == kind
  {
  }

  // What the tallies of a round amount to.
  lemma Reads(s: Node, r: int, pv: Ballots, pc: Ballots, b: BlockID)
    requires Boxes(s, r, pv, pc)
    ensures PrevotesAny(s, r) <==> Cast(pv) >= 3
    ensures PrecommitsAny(s, r) <==> Cast(pc) >= 3
    ensures For(pv, b) >= 3 ==> s.votes.Polka(r) == Some(b)
    ensures For(pc, b) >= 3 ==> s.votes.Decision(r) == Some(b)
    ensures s.votes.Polka(r).Some? ==> For(pv, s.votes.Polka(r).value) >= 3
    ensures s.votes.Decision(r).Some? ==> For(pc, s.votes.Decision(r).value) >= 3
  {
    hide Shows, For, Cast, Threshold;
    Counted(s.votes.sets[r].prevotes, r, Prevote, pv, b);
    Counted(s.votes.sets[r].precommits, r, Precommit, pc, b);
  }

  lemma OneMore(bs: Ballots, i: nat, b: BlockID, c: BlockID)
    requires |bs| == 4 && i < 4 && bs[i].None?
    ensures For(bs[i := Some(b)], c) <= Cast(bs[i := Some(b)]) == Cast(bs) + 1
  {
  }

  lemma QuietPrevote(s: Node, r: int)
    requires s.votes.Polka(r).None? && !PrevotesAny(s, r) && r >= 0
    requires s.proposal.Some? ==> s.proposal.value.polRound < 0
    ensures OnPrevote(CHAIN, ENV, s, r) == s
  {
    hide JoinPrevotes, EnterPrevote;
  }

  lemma QuietPrecommit(s: Node, r: int)
    requires s.votes.Decision(r).None? && !PrecommitsAny(s, r)
    ensures OnPrecommit(CHAIN, ENV, s, r) == s
  {
    hide OnDecision, JoinPrecommits;
  }

  // One or two ballots of a kind change nothing but their tally.
  lemma Waits(s: Node, k: PubKey, r: int, step: int, pv: Ballots, pc: Ballots, i: nat, kind: VoteType, b: BlockID)
    requires At(s, k, s.round, step) && Boxes(s, r, pv, pc) && i < 4 && !kind.UnknownType? && r >= 0
    requires if kind.Prevote? then pv[i].None? && Cast(pv) < 2 else pc[i].None? && Cast(pc) < 2
    ensures var s' := Handle(CHAIN, ENV, s, Tell(i, r, kind, b));
      && CountedAt(s, s', r)
      && if kind.Prevote? then Boxes(s', r, pv[i := Some(b)], pc) else Boxes(s', r, pv, pc[i := Some(b)])
  {
    hide Shows, Shape, Handle, V, PrevotesAny, PrecommitsAny, OnPrevote, OnPrecommit, For, Cast;
    var s1 := Counts(s, k, r, step, pv, pc, i, kind, b);
    if kind.Prevote? {
      Reads(s1, r, pv[i := Some(b)], pc, b);
      OneMore(pv, i, b, if s1.votes.Polka(r).Some? then s1.votes.Polka(r).value else b);
      QuietPrevote(s1, r);
    } else {
      Reads(s1, r, pv, pc[i := Some(b)], b);
      OneMore(pc, i, b, if s1.votes.Decision(r).Some? then s1.votes.Decision(r).value else b);
      QuietPrecommit(s1, r);
    }
  }

  // ---- The third ballot ----

  lemma OwnIndex(k: PubKey)
    requires k < 4
    ensures IndexOf(QUAD, AddressOf(k)) == k
  {
    Prefixes();
    assert IndexOf([QUAD[0]], AddressOf(0)) == 0;
    assert k <= 1 ==> IndexOf([QUAD[0], QUAD[1]], AddressOf(k)) == k;
    assert k <= 2 ==> IndexOf([QUAD[0], QUAD[1], QUAD[2]], AddressOf(k)) == k;
  }

  // Signing adds exactly this vote.
  predicate Adds(signed: seq<Signed>, signed': seq<Signed>, v: Vote) {
    |signed'| == |signed| + 1 && signed'[..|signed|] == signed && signed'[|signed|].vote == v
  }

  lemma Signs(s: Node, k: PubKey, kind: VoteType, b: BlockID)
    requires k < 4 && s.key == Some(k) && s.height == 1
    ensures var s' := SignAddVote(CHAIN, ENV, s, kind, b);
      s' == s.(signed := s'.signed) && Adds(s.signed, s'.signed, V(k, s.round, kind, b))
  {
    OwnIndex(k);
    hide IndexOf;
  }

  // Having the polka's block, as lock or as proposal, the node precommits it; its lock
  // keeps the parts at hand, whatever the header of the polka.
  predicate LocksOn(s: Node, s': Node, k: PubKey, b: BlockID)
    requires b.Block?
  {
    && s' == s.(step := PRECOMMIT, signed := s'.signed, lockedRound := s.round, lockedBlock := Some(b.id),
                lockedParts := if s.lockedBlock.Some? then s.lockedParts else s.proposalParts)
    && Adds(s.signed, s'.signed, V(k, s.round, Precommit, b))
  }

  lemma Precommits(s: Node, k: PubKey, b: BlockID)
    requires k < 4 && At(s, k, s.round, PREVOTE) && 0 <= s.round && b.Block? && s.votes.Polka(s.round) == Some(b)
    requires s.lockedBlock == Some(b.id) || (s.lockedBlock.None? && s.proposalBlock == Some(b.id))
    ensures LocksOn(s, EnterPrecommit(CHAIN, ENV, s, 1, s.round), k, b)
  {
    hide SignAddVote, POLInfo, Adds, V;
    POLInfoIsHighest(s.votes, s.votes.round);
    Signs(s.(lockedRound := s.round), k, Precommit, b);
    Signs(Locked(s, s.round), k, Precommit, b);
  }

  // The valid block may move to the polka's, and nothing else does.
  predicate Revalidated(s: Node, s': Node) {
    s' == s.(validRound := s'.validRound, validBlock := s'.validBlock, validParts := s'.validParts)
  }

  lemma JoinsPolka(s: Node, b: BlockID) returns (s1: Node)
    requires s.halt == Running && s.step == PREVOTE && s.height == 1 && PrevotesAny(s, s.round)
    requires b.Block? && s.votes.Polka(s.round) == Some(b) && (s.lockedBlock.Some? ==> s.lockedBlock == Some(b.id))
    ensures Revalidated(s, s1) && OnPrevote(CHAIN, ENV, s, s.round) == EnterPrecommit(CHAIN, ENV, s1, 1, s.round)
  {
    hide EnterPrecommit;
    s1 := Validating(Unlocking(s, s.round), s.round);
  }

  // The third prevote for one block.
  lemma ThirdPrevote(s: Node, k: PubKey, r: int, pv: Ballots, pc: Ballots, i: nat, b: BlockID) returns (s1: Node)
    requires k < 4 && At(s, k, r, PREVOTE) && 0 <= r && Boxes(s, r, pv, pc) && i < 4 && pv[i].None?
    requires b.Block? && For(pv[i := Some(b)], b) >= 3 && Cast(pv[i := Some(b)]) >= 3
    requires s.lockedBlock == Some(b.id) || (s.lockedBlock.None? && s.proposalBlock == Some(b.id))
    ensures Revalidated(s, s1.(votes := s.votes)) && CountedAt(s1.(votes := s.votes), s1, r)
    ensures Boxes(s1, r, pv[i := Some(b)], pc)
    ensures LocksOn(s1, Handle(CHAIN, ENV, s, Tell(i, r, Prevote, b)), k, b)
  {
    hide Shows, Shape, Handle, V, PrevotesAny, PrecommitsAny, OnPrevote, EnterPrecommit, For, Cast, LocksOn;
    var s0 := Counts(s, k, r, PREVOTE, pv, pc, i, Prevote, b);
    Reads(s0, r, pv[i := Some(b)], pc, b);
    s1 := JoinsPolka(s0, b);
    Precommits(s1, k, b);
  }

  lemma JoinsDecision(s: Node, b: BlockID)
    requires s.halt == Running && s.height == 1 && s.step == PRECOMMIT && b.Block?
    requires s.votes.Decision(s.round) == Some(b)
    ensures OnPrecommit(CHAIN, ENV, s, s.round) == EnterCommit(CHAIN, ENV, s, 1, s.round)
  {
    hide EnterCommit;
  }

  // The third precommit for the block of the lock, under its header.
  lemma ThirdPrecommit(s: Node, k: PubKey, r: int, pv: Ballots, pc: Ballots, i: nat, b: BlockID)
    requires k < 4 && At(s, k, r, PRECOMMIT) && 0 <= r && Boxes(s, r, pv, pc) && i < 4 && pc[i].None?
    requires b.Block? && For(pc[i := Some(b)], b) >= 3
    requires s.lockedBlock == Some(b.id) && s.lockedParts == Some(Parts(b.parts, true))
    ensures Handle(CHAIN, ENV, s, Tell(i, r, Precommit, b)).decided == map[1 := Decided(b.id, b.parts, r)]
  {
    hide Shows, Shape, Handle, V, OnPrecommit, EnterCommit, For, Cast;
    var s1 := Counts(s, k, r, PRECOMMIT, pv, pc, i, Precommit, b);
    Reads(s1, r, pv, pc[i := Some(b)], b);
    JoinsDecision(s1, b);
    EnterCommitDecides(CHAIN, ENV, s1, r, b);
  }

  ghost predicate Split(bs: Ballots)
    requires |bs| == 4
  {
    forall b :: For(bs, b) < 3
  }

  // Three precommits, no three of them for one block: the node waits for the rest.
  predicate WaitingOn(s: Node, s': Node) {
    && s' == s.(step := PRECOMMIT_WAIT, signed := s'.signed, timeouts := s'.timeouts)
    && Timeout(1, s.round, PRECOMMIT_WAIT) in s'.timeouts && |s'.signed| >= |s.signed|
  }

  lemma JoinsWait(s: Node)
    requires s.halt == Running && s.height == 1 && (s.step == PREVOTE || s.step == PRECOMMIT)
    requires s.votes.Decision(s.round).None? && PrecommitsAny(s, s.round)
    requires s.step == PREVOTE ==> s.votes.Polka(s.round).None?
    ensures WaitingOn(s, OnPrecommit(CHAIN, ENV, s, s.round))
  {
    hide SignAddVote;
    SignsOnly(s, Precommit, NilBlock);
  }

  lemma SignsOnly(s: Node, kind: VoteType, b: BlockID)
    ensures var s' := SignAddVote(CHAIN, ENV, s, kind, b); s' == s.(signed := s'.signed) && |s'.signed| >= |s.signed|
  {
  }

  lemma ThirdDiffers(s: Node, k: PubKey, r: int, step: int, pv: Ballots, pc: Ballots, i: nat, b: BlockID)
    returns (s1: Node)
    requires At(s, k, r, step) && (step == PREVOTE || step == PRECOMMIT) && Boxes(s, r, pv, pc) && i < 4 && pc[i].None?
    requires Cast(pc[i := Some(b)]) >= 3 && Split(pc[i := Some(b)]) && (step == PREVOTE ==> Split(pv))
    ensures CountedAt(s, s1, r) && WaitingOn(s1, Handle(CHAIN, ENV, s, Tell(i, r, Precommit, b)))
    ensures Boxes(s1, r, pv, pc[i := Some(b)])
  {
    hide Shows, Shape, Handle, V, PrevotesAny, PrecommitsAny, OnPrecommit, For, Cast, WaitingOn;
    s1 := Counts(s, k, r, step, pv, pc, i, Precommit, b);
    Reads(s1, r, pv, pc[i := Some(b)], b);
    JoinsWait(s1);
  }

  // ---- Rounds begin ----

  lemma NewShape(h: HeightVotes)
    requires forall r :: r in h.sets ==> h.sets[r] == NewRoundVotes(h.chain, h.height, r, h.vals)
    ensures ShapeAll(h)
  {
  }

  ghost predicate EmptyAt(s: Node, r: int) { Boxes(s, r, NONE, NONE) }

  lemma NewRoundIsEmpty(s: Node, r: int)
    requires r in s.votes.sets && s.votes.sets[r] == NewRoundVotes("quad", 1, r, QUAD)
    ensures EmptyAt(s, r)
  {
    hide Shows, NewTally;
    EmptyShows(r, Prevote);
    EmptyShows(r, Precommit);
  }

  // The first timeout opens round 0.
  lemma Starts(k: PubKey)
    ensures ShapeAll(Init(CHAIN, Some(k), 1, None).votes) && Init(CHAIN, Some(k), 1, None).signed == []
    ensures var s' := Handle(CHAIN, ENV, Init(CHAIN, Some(k), 1, None), TimeoutMsg(Timeout(1, 0, NEW_HEIGHT)));
      && At(s', k, 0, PROPOSE) && s'.proposal.None? && s'.lockedBlock.None? && s'.signed == []
      && EmptyAt(s', 0) && EmptyAt(s', 1)
  {
    hide NewTally, EmptyAt, ShapeAll, Shape, IndexOf, DecideProposal;
    var s := Init(CHAIN, Some(k), 1, None);
    NewShape(s.votes);
    NewShape(SetRound(s.votes, 1));
    assert EnterNewRound(CHAIN, ENV, s, 1, 0) == EnterPropose(CHAIN, ENV, StartRound(s, 0), 1, 0);
    var s' := Handle(CHAIN, ENV, s, TimeoutMsg(Timeout(1, 0, NEW_HEIGHT)));
    NewRoundIsEmpty(s', 0);
    NewRoundIsEmpty(s', 1);
  }

  // The timeout after a split opens round 1.
  lemma NextRound(s: Node, k: PubKey)
    requires At(s, k, 0, PRECOMMIT_WAIT) && Timeout(1, 0, PRECOMMIT_WAIT) in s.timeouts && EmptyAt(s, 1)
    requires NodeInv(CHAIN, s)
    ensures var s' := Handle(CHAIN, ENV, s, TimeoutMsg(Timeout(1, 0, PRECOMMIT_WAIT)));
      && At(s', k, 1, PROPOSE) && s'.proposal.None? && EmptyAt(s', 1) && s'.signed == s.signed
      && s'.lockedBlock == s.lockedBlock && s'.lockedParts == s.lockedParts
  {
    hide Shows, Shape, NodeInv, Advances;
    var s1 := StartRound(s, 1);
    StartRoundInv(CHAIN, s, 1);
    NodeShapes(CHAIN, s1);
    assert Handle(CHAIN, ENV, s, TimeoutMsg(Timeout(1, 0, PRECOMMIT_WAIT))) == EnterPropose(CHAIN, ENV, s1, 1, 1);
  }

  // The proposal with its one part, and the prevote that follows.
  function Offer(r: int, h: PartsHeader): Event { ProposalMsg(Proposal(1, r, h, -1, NilBlock)) }

  function Give(h: PartsHeader, id: nat): Event { PartMsg(1, h, Completes(id)) }

  predicate Offered(s: Node, k: PubKey, r: int, h: PartsHeader) {
    At(s, k, r, PROPOSE) && s.proposal.Some? && s.proposalParts == Some(Parts(h, false))
  }

  lemma TakesOffer(s: Node, k: PubKey, r: int, h: PartsHeader)
    requires At(s, k, r, PROPOSE) && s.proposal.None? && h.total >= 0
    ensures var s' := Handle(CHAIN, ENV, s, Offer(r, h));
      Offered(s', k, r, h) && s' == s.(proposal := s'.proposal, proposalParts := s'.proposalParts)
  {
  }

  // Prevote the lock, or else the proposal.
  function Choice(s: Node, id: nat, h: PartsHeader): BlockID {
    if s.lockedBlock.Some? then Block(s.lockedBlock.value, HeaderOf(s.lockedParts)) else Block(id, h)
  }

  predicate PrevotedOn(s: Node, s': Node, k: PubKey, id: nat, h: PartsHeader) {
    && s' == s.(step := PREVOTE, signed := s'.signed,
                proposalBlock := Some(id), proposalParts := Some(Parts(h, true)))
    && Adds(s.signed, s'.signed, V(k, s.round, Prevote, Choice(s, id, h)))
  }

  lemma TakesBlock(s: Node, k: PubKey, r: int, h: PartsHeader, id: nat)
    requires k < 4 && Offered(s, k, r, h) && s.votes.Polka(r).None?
    ensures PrevotedOn(s, Handle(CHAIN, ENV, s, Give(h, id)), k, id, h)
  {
    hide SignAddVote, Shape, V, Adds;
    var s1 := s.(proposalBlock := Some(id), proposalParts := Some(Parts(h, true)));
    Signs(s1, k, Prevote, PrevoteChoice(CHAIN, s1));
    assert Handle(CHAIN, ENV, s, Give(h, id)) == EnterPrevote(CHAIN, ENV, s1, 1, r);
  }

  // ---- Stretches of one node's run ----

  function To(ev: Event): Input { Input(ENV, ev) }

  lemma Next(s: Node, ev: Event, rest: seq<Input>)
    requires ChainOK(CHAIN) && NodeInv(CHAIN, s)
    ensures ShapeAll(s.votes) && (s.lastCommit.Some? ==> Shape(s.lastCommit.value))
    ensures NodeInv(CHAIN, Handle(CHAIN, ENV, s, ev))
    ensures RunNode(CHAIN, s, [To(ev)] + rest) == RunNode(CHAIN, Handle(CHAIN, ENV, s, ev), rest)
  {
    hide NodeInv, Handle;
    HandleInv(CHAIN, ENV, s, ev);
    assert ([To(ev)] + rest)[1..] == rest;
  }

  // The last vote signed in a stretch.
  predicate EndsWith(s: Node, s': Node, v: Vote) {
    |s'.signed| > |s.signed| && s'.signed[|s'.signed| - 1].vote == v
  }

  predicate Lock(s: Node, id: nat, lock: Option<PartsHeader>) {
    if lock.None? then s.lockedBlock.None?
    else s.lockedBlock == Some(id) && s.lockedParts == Some(Parts(lock.value, true))
  }

  // The node has prevoted in round `r`, on a proposal of block `id` under `h`.
  ghost predicate Voted(s: Node, k: PubKey, r: int, id: nat, h: PartsHeader, lock: Option<PartsHeader>) {
    && At(s, k, r, PREVOTE) && EmptyAt(s, r) && (r == 0 ==> EmptyAt(s, 1))
    && s.proposalBlock == Some(id) && s.proposalParts == Some(Parts(h, true)) && Lock(s, id, lock)
  }

  function Pick(id: nat, h: PartsHeader, lock: Option<PartsHeader>): BlockID {
    Block(id, if lock.Some? then lock.value else h)
  }

  function Proposing(r: int, id: nat, h: PartsHeader): seq<Input> { [To(Offer(r, h))] + ([To(Give(h, id))] + []) }

  lemma Proposed(s: Node, k: PubKey, r: int, id: nat, h: PartsHeader, lock: Option<PartsHeader>)
    requires ChainOK(CHAIN) && NodeInv(CHAIN, s) && k < 4 && h.total >= 0
    requires At(s, k, r, PROPOSE) && s.proposal.None? && Lock(s, id, lock)
    requires EmptyAt(s, r) && (r == 0 ==> EmptyAt(s, 1))
    ensures var s' := RunNode(CHAIN, s, Proposing(r, id, h));
      Voted(s', k, r, id, h, lock) && EndsWith(s, s', V(k, r, Prevote, Pick(id, h, lock)))
  {
    hide NodeInv, Handle, Shows, Shape, V;
    Next(s, Offer(r, h), [To(Give(h, id))] + []);
    TakesOffer(s, k, r, h);
    var s1 := Handle(CHAIN, ENV, s, Offer(r, h));
    Next(s1, Give(h, id), []);
    Reads(s1, r, NONE, NONE, NilBlock);
    TakesBlock(s1, k, r, h, id);
  }

  function Opening(id: nat, h: PartsHeader): seq<Input> {
    [To(TimeoutMsg(Timeout(1, 0, NEW_HEIGHT)))] + Proposing(0, id, h)
  }

  lemma Opens(k: PubKey, id: nat, h: PartsHeader)
    requires ChainOK(CHAIN) && k < 4 && h.total >= 0
    ensures NodeInv(CHAIN, Init(CHAIN, Some(k), 1, None))
    ensures var s := Init(CHAIN, Some(k), 1, None);
      var s' := RunNode(CHAIN, s, Opening(id, h));
      Voted(s', k, 0, id, h, None) && EndsWith(s, s', V(k, 0, Prevote, Block(id, h)))
  {
    hide NodeInv, Handle, EmptyAt, V, Init;
    var s := Init(CHAIN, Some(k), 1, None);
    InitInv(CHAIN, Some(k), 1, None);
    Next(s, TimeoutMsg(Timeout(1, 0, NEW_HEIGHT)), Proposing(0, id, h));
    Starts(k);
    Proposed(Handle(CHAIN, ENV, s, TimeoutMsg(Timeout(1, 0, NEW_HEIGHT))), k, 0, id, h, None);
  }

  // Ballots of the three validators `t`, in this order.
  datatype Trio = Trio(i: nat, j: nat, k: nat) {
    predicate OK() { i < 4 && j < 4 && k < 4 && i != j && j != k && i != k }
  }

  function Three(r: int, kind: VoteType, t: Trio, b: BlockID, last: BlockID): seq<Input> {
    [To(Tell(t.i, r, kind, b))] + ([To(Tell(t.j, r, kind, b))] + [To(Tell(t.k, r, kind, last))])
  }

  function Two(t: Trio, b: BlockID): Ballots
    requires t.OK()
  {
    NONE[t.i := Some(b)][t.j := Some(b)]
  }

  lemma TwoCount(t: Trio, b: BlockID, last: BlockID, c: BlockID)
    requires t.OK()
    ensures |Two(t, b)| == 4 && Two(t, b)[t.k].None? && Cast(NONE) == 0 && Cast(NONE[t.i := Some(b)]) == 1
    ensures Cast(Two(t, b)[t.k := Some(last)]) == 3 && For(NONE, c) == 0
    ensures For(Two(t, b)[t.k := Some(b)], b) == 3
    ensures last != b ==> For(Two(t, b)[t.k := Some(last)], c) < 3
  {
  }

  // After the first two ballots nothing has happened yet.
  lemma TwoWait(s: Node, k: PubKey, r: int, step: int, pv: Ballots, pc: Ballots, kind: VoteType,
                t: Trio, b: BlockID, last: BlockID) returns (s': Node)
    requires ChainOK(CHAIN) && NodeInv(CHAIN, s) && At(s, k, s.round, step) && Boxes(s, r, pv, pc) && t.OK() && r >= 0
    requires if kind.Prevote? then pv == NONE else kind.Precommit? && pc == NONE
    ensures NodeInv(CHAIN, s') && CountedAt(s, s', r)
    ensures if kind.Prevote? then Boxes(s', r, Two(t, b), pc) else Boxes(s', r, pv, Two(t, b))
    ensures RunNode(CHAIN, s, Three(r, kind, t, b, last)) == Handle(CHAIN, ENV, s', Tell(t.k, r, kind, last))
  {
    hide NodeInv, Handle, Shows, Shape, Tell, Cast, For;
    TwoCount(t, b, b, b);
    var third := [To(Tell(t.k, r, kind, last))];
    Next(s, Tell(t.i, r, kind, b), [To(Tell(t.j, r, kind, b))] + third);
    Waits(s, k, r, step, pv, pc, t.i, kind, b);
    var s1 := Handle(CHAIN, ENV, s, Tell(t.i, r, kind, b));
    Next(s1, Tell(t.j, r, kind, b), third);
    if kind.Prevote? { Waits(s1, k, r, step, NONE[t.i := Some(b)], pc, t.j, kind, b); }
    else { Waits(s1, k, r, step, pv, NONE[t.i := Some(b)], t.j, kind, b); }
    s' := Handle(CHAIN, ENV, s1, Tell(t.j, r, kind, b));
    Next(s', Tell(t.k, r, kind, last), []);
    assert third == third + [];
  }

  // Three prevotes for one block: the node locks and precommits it.
  ghost predicate Ready(s: Node, k: PubKey, r: int, pv: Ballots, id: nat, lock: PartsHeader) {
    At(s, k, r, PRECOMMIT) && Boxes(s, r, pv, NONE) && (r == 0 ==> EmptyAt(s, 1)) && Lock(s, id, Some(lock))
  }

  function All(t: Trio, b: BlockID): Ballots
    requires t.OK()
  {
    Two(t, b)[t.k := Some(b)]
  }

  lemma ThreePrevotes(s: Node, k: PubKey, r: int, id: nat, h: PartsHeader, lock: Option<PartsHeader>,
                      t: Trio, b: BlockID)
    requires ChainOK(CHAIN) && NodeInv(CHAIN, s) && k < 4 && r >= 0 && Voted(s, k, r, id, h, lock)
    requires t.OK() && b.Names(id)
    ensures var s' := RunNode(CHAIN, s, Three(r, Prevote, t, b, b));
      && Ready(s', k, r, All(t, b), id, Pick(id, h, lock).parts)
      && EndsWith(s, s', V(k, r, Precommit, b))
  {
    hide NodeInv, Handle, Shows, Shape, Tell, Cast, For, Three, Two, V;
    TwoCount(t, b, b, b);
    var s1 := TwoWait(s, k, r, PREVOTE, NONE, NONE, Prevote, t, b, b);
    var s2 := ThirdPrevote(s1, k, r, Two(t, b), NONE, t.k, b);
  }

  // Three precommits for it: the node decides, if the lock has the header.
  lemma ThreePrecommits(s: Node, k: PubKey, r: int, pv: Ballots, t: Trio, b: BlockID)
    requires ChainOK(CHAIN) && NodeInv(CHAIN, s) && k < 4 && r >= 0 && b.Block? && Ready(s, k, r, pv, b.id, b.parts)
    requires t.OK()
    ensures RunNode(CHAIN, s, Three(r, Precommit, t, b, b)).decided == map[1 := Decided(b.id, b.parts, r)]
  {
    hide NodeInv, Handle, Shows, Shape, Tell, Cast, For, Three, Two, V;
    TwoCount(t, b, b, b);
    var s1 := TwoWait(s, k, r, PRECOMMIT, pv, NONE, Precommit, t, b, b);
    ThirdPrecommit(s1, k, r, pv, Two(t, b), t.k, b);
  }

  lemma {:induction false} RunAppend(s: Node, ins: seq<Input>, more: seq<Input>)
    requires ChainOK(CHAIN) && NodeInv(CHAIN, s)
    ensures NodeInv(CHAIN, RunNode(CHAIN, s, ins))
    ensures RunNode(CHAIN, s, ins + more) == RunNode(CHAIN, RunNode(CHAIN, s, ins), more)
    decreases |ins|
  {
    hide NodeInv, Handle;
    RunNodeInv(CHAIN, s, ins);
    if ins == [] {
      assert ins + more == more;
    } else {
      HandleInv(CHAIN, ins[0].env, s, ins[0].ev);
      assert (ins + more)[1..] == ins[1..] + more;
      RunAppend(Handle(CHAIN, ins[0].env, s, ins[0].ev), ins[1..], more);
    }
  }

  // Round 0 without a decision: two precommits for the block and one for nil, the
  // timeout, and the proposal of round 1.
  function SecondRound(t: Trio, b: BlockID, id: nat, h: PartsHeader): seq<Input> {
    Three(0, Precommit, t, b, NilBlock) +
    ([To(TimeoutMsg(Timeout(1, 0, PRECOMMIT_WAIT)))] + Proposing(1, id, h))
  }

  lemma Undecided(s: Node, k: PubKey, step: int, pv: Ballots, t: Trio, b: BlockID)
    requires ChainOK(CHAIN) && NodeInv(CHAIN, s) && k < 4 && At(s, k, 0, step) && Boxes(s, 0, pv, NONE) && EmptyAt(s, 1)
    requires (step == PREVOTE && pv == NONE) || step == PRECOMMIT
    requires t.OK() && b.Block?
    ensures var s' := RunNode(CHAIN, s, Three(0, Precommit, t, b, NilBlock));
      && At(s', k, 0, PRECOMMIT_WAIT) && Timeout(1, 0, PRECOMMIT_WAIT) in s'.timeouts && EmptyAt(s', 1)
      && s'.lockedBlock == s.lockedBlock && s'.lockedParts == s.lockedParts && |s'.signed| >= |s.signed|
  {
    hide NodeInv, Handle, Shows, Shape, Tell, Three, Two, Cast, For;
    TwoCount(t, b, NilBlock, b);
    var bs := Two(t, b)[t.k := Some(NilBlock)];
    forall c ensures For(bs, c) < 3 && For(NONE, c) < 3 { TwoCount(t, b, NilBlock, c); }
    var s1 := TwoWait(s, k, 0, step, pv, NONE, Precommit, t, b, NilBlock);
    var s2 := ThirdDiffers(s1, k, 0, step, pv, Two(t, b), t.k, NilBlock);
  }

  lemma GoesOn(s: Node, k: PubKey, step: int, pv: Ballots, t: Trio, b: BlockID,
               id: nat, h: PartsHeader, lock: Option<PartsHeader>)
    requires ChainOK(CHAIN) && NodeInv(CHAIN, s) && k < 4 && At(s, k, 0, step) && Boxes(s, 0, pv, NONE) && EmptyAt(s, 1)
    requires (step == PREVOTE && pv == NONE) || step == PRECOMMIT
    requires t.OK() && b.Block? && h.total >= 0 && Lock(s, id, lock)
    ensures var s' := RunNode(CHAIN, s, SecondRound(t, b, id, h));
      Voted(s', k, 1, id, h, lock) && EndsWith(s, s', V(k, 1, Prevote, Pick(id, h, lock)))
  {
    hide NodeInv, Handle, Boxes, Three, Proposing, V;
    var on := [To(TimeoutMsg(Timeout(1, 0, PRECOMMIT_WAIT)))] + Proposing(1, id, h);
    RunAppend(s, Three(0, Precommit, t, b, NilBlock), on);
    Undecided(s, k, step, pv, t, b);
    var s1 := RunNode(CHAIN, s, Three(0, Precommit, t, b, NilBlock));
    Next(s1, TimeoutMsg(Timeout(1, 0, PRECOMMIT_WAIT)), Proposing(1, id, h));
    NextRound(s1, k);
    Proposed(Handle(CHAIN, ENV, s1, TimeoutMsg(Timeout(1, 0, PRECOMMIT_WAIT))), k, 1, id, h, lock);
  }
}
