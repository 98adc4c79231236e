// What holds in every reachable state of one node, whatever it is sent.
//
// The parts of the invariant take the fields they speak about, not the whole
// node, so that an operation only has to account for the fields it changes.
module NodeInvariants {
  import opened Types
  import opened Power
  import opened VoteSets
  import opened HeightVoteSets
  import opened Consensus

  ghost predicate ChainOK(c: Chain) {
    forall h :: ExactPowers(c.vals(h))
  }

  predicate HRSBefore(h: int, r: int, k: int, h': int, r': int, k': int) {
    h < h' || (h == h' && (r < r' || (r == r' && k < k')))
  }

  predicate HRSUpTo(h: int, r: int, k: int, h': int, r': int, k': int) {
    HRSBefore(h, r, k, h', r', k') || (h == h' && r == r' && k == k')
  }

  // The step a node reaches by signing a vote of this kind.
  function StepOf(kind: VoteType): int {
    if kind.Prevote? then PREVOTE else PRECOMMIT
  }

  // Rounds 0..round exist and the tallies run at most one round ahead.
  ghost predicate VotesOK(c: Chain, votes: HeightVotes, height: int, round: int, step: int) {
    && HeightInv(votes) && votes.chain == c.id && votes.height == height && votes.vals == c.vals(height)
    && 1 <= height && 0 <= round <= votes.round <= round + 1
    && NEW_HEIGHT <= step <= COMMIT
    && (step == NEW_HEIGHT ==> round == 0 == votes.round)
  }

  // A scheduled timeout belongs to a round already reached.
  ghost predicate TimeoutsOK(timeouts: set<Timeout>, height: int, round: int) {
    forall ti :: ti in timeouts ==>
      && ti.height <= height && (ti.height == height ==> ti.round <= round)
      && ti.step in {NEW_HEIGHT, NEW_ROUND, PROPOSE, PREVOTE_WAIT, PRECOMMIT_WAIT}
      && (ti.step in {NEW_HEIGHT, NEW_ROUND} ==> ti.round == 0)
  }

  // A polka on record for block `b`, under whatever part-set header.
  predicate PolkaFor(votes: HeightVotes, r: int, b: nat) {
    votes.Polka(r).Some? && votes.Polka(r).value.Names(b)
  }

  // A lock is backed by a polka on record for that block at LockedRound.
  predicate LockOK(c: Chain, block: Option<nat>, lockedRound: int, votes: HeightVotes,
                   height: int, round: int, step: int)
  {
    block.Some? ==>
      && 0 <= lockedRound <= round && PolkaFor(votes, lockedRound, block.value)
      && c.valid(height, block.value)
      && (lockedRound == round ==> step >= PRECOMMIT)
  }

  predicate ValidOK(block: Option<nat>, validRound: int, votes: HeightVotes, round: int) {
    block.Some? ==> validRound <= round && PolkaFor(votes, validRound, block.value)
  }

  // A block comes with a part set.  Before the node has precommitted, the set is that
  // of the proposal, and a block means that it is complete.
  predicate ProposalPartsOK(proposal: Option<Proposal>, block: Option<nat>, parts: Option<Parts>, step: int) {
    && (block.Some? ==> parts.Some?)
    && (parts.Some? ==> parts.value.header.total >= 0)
    && (step < PRECOMMIT && parts.Some? ==> HasProposed(proposal, parts.value.header))
    && (step < PRECOMMIT && block.Some? ==> parts.value.complete)
  }

  predicate HasProposed(p: Option<Proposal>, h: PartsHeader) {
    p.Some? && p.value.parts == h
  }

  predicate LockedPartsOK(block: Option<nat>, parts: Option<Parts>) {
    block.Some? ==> parts.Some? && parts.value.complete && parts.value.header.total >= 0
  }

  // A proposal held is for this height and round, with an earlier proof-of-lock round or none.
  predicate ProposalOK(p: Option<Proposal>, height: int, round: int) {
    p.Some? ==>
      && p.value.height == height && p.value.round == round
      && (p.value.polRound == -1 || 0 <= p.value.polRound < round)
  }

  predicate CommitOK(votes: HeightVotes, commitRound: int, step: int) {
    step == COMMIT || commitRound > -1 ==> votes.Decision(commitRound).Some?
  }

  ghost predicate LastCommitOK(last: Option<Tally>) {
    last.Some? ==> TallyInv(last.value)
  }

  // A non-nil precommit is for the block with a polka at its round.
  predicate Justified(x: Signed) {
    x.vote.kind.Precommit? && x.vote.block.Block? ==>
      x.vote.round in x.polkas && x.polkas[x.vote.round] == x.vote.block
  }

  // Having precommitted a block at round r, a node prevotes anything else at a
  // later round only if it knew of a polka for something else in between.
  ghost predicate LockRespected(x: Signed, y: Signed) {
    && x.vote.kind.Precommit? && x.vote.block.Block? && y.vote.kind.Prevote?
    && x.vote.height == y.vote.height && x.vote.round < y.vote.round && !y.vote.block.Names(x.vote.block.id)
    ==> exists q :: q in y.polkas && x.vote.round < q <= y.vote.round && !y.polkas[q].Names(x.vote.block.id)
  }

  predicate OwnVote(c: Chain, key: Option<PubKey>, v: Vote) {
    && (v.kind.Prevote? || v.kind.Precommit?)
    && key.Some? && v.addr == AddressOf(key.value) && v.sig.key == key.value && v.sig.msg == v.Bytes(c.id)
    && FitBlock(c, v.kind, v.height, v.block)
  }

  // What a vote of one's own is for: a valid block, in a prevote with a header that a
  // part set can have, or nil.
  predicate FitBlock(c: Chain, kind: VoteType, height: int, b: BlockID) {
    && (b.Block? ==> c.valid(height, b.id) && (kind.Prevote? ==> b.parts.total >= 0))
    && (b.NoHash? ==> b == NilBlock)
  }

  // Everything signed so far: at most one vote for each height, round and kind,
  // in order, none ahead of the node's own height, round and step.
  ghost predicate SignedOK(c: Chain, key: Option<PubKey>, signed: seq<Signed>, height: int, round: int, step: int) {
    && (forall i :: 0 <= i < |signed| ==>
          var v := signed[i].vote;
          && OwnVote(c, key, v) && Justified(signed[i])
          && HRSUpTo(v.height, v.round, StepOf(v.kind), height, round, step))
    && (forall i, j :: 0 <= i < j < |signed| ==>
          var v, w := signed[i].vote, signed[j].vote;
          HRSBefore(v.height, v.round, StepOf(v.kind), w.height, w.round, StepOf(w.kind)))
    && (forall i, j :: 0 <= i < |signed| && 0 <= j < |signed| ==> LockRespected(signed[i], signed[j]))
  }

  // A polka on record, in rounds (from, to], for something other than block `b`.
  ghost predicate PolkaAgainst(votes: HeightVotes, from: int, to: int, b: nat) {
    exists q :: from < q <= to && votes.Polka(q).Some? && !votes.Polka(q).value.Names(b)
  }

  // A precommitted block stays locked until such a polka is seen.
  ghost predicate HeldOK(signed: seq<Signed>, block: Option<nat>, lockedRound: int, votes: HeightVotes,
                         height: int, round: int)
  {
    forall i :: 0 <= i < |signed| ==>
      var v := signed[i].vote;
      v.kind.Precommit? && v.block.Block? && v.height == height ==>
        || (block == Some(v.block.id) && lockedRound >= v.round)
        || PolkaAgainst(votes, v.round, round, v.block.id)
  }

  ghost predicate DecidedOK(decided: map<int, Decided>, height: int, halt: Halt) {
    forall h :: h in decided ==> h < height || (h == height && halt == ApplyFailed)
  }

  // The part of the invariant that no lock and no signature touches.
  ghost predicate FrameInv(c: Chain, s: Node) {
    && !s.halt.Sanity()
    && VotesOK(c, s.votes, s.height, s.round, s.step)
    && TimeoutsOK(s.timeouts, s.height, s.round)
    && ValidOK(s.validBlock, s.validRound, s.votes, s.round)
    && ProposalOK(s.proposal, s.height, s.round)
    && ProposalPartsOK(s.proposal, s.proposalBlock, s.proposalParts, s.step)
    && CommitOK(s.votes, s.commitRound, s.step)
    && LastCommitOK(s.lastCommit)
    && DecidedOK(s.decided, s.height, s.halt)
  }

  ghost predicate NodeInv(c: Chain, s: Node) {
    && FrameInv(c, s)
    && LockOK(c, s.lockedBlock, s.lockedRound, s.votes, s.height, s.round, s.step)
    && LockedPartsOK(s.lockedBlock, s.lockedParts)
    && SignedOK(c, s.key, s.signed, s.height, s.round, s.step)
    && HeldOK(s.signed, s.lockedBlock, s.lockedRound, s.votes, s.height, s.round)
  }

  // Within a height a polka stays, and a lock is kept, renewed, or dropped for a
  // polka for something else at a round after it was taken.
  ghost predicate LockKept(s: Node, s': Node) {
    && (forall r :: s.votes.Polka(r).Some? ==> s'.votes.Polka(r) == s.votes.Polka(r))
    && (s.lockedBlock.Some? ==>
          || (s'.lockedBlock == s.lockedBlock && s'.lockedRound >= s.lockedRound)
          || PolkaAgainst(s'.votes, s.lockedRound, s'.round, s.lockedBlock.value))
  }

  // Progress: height, round and step never move back, locks are respected, and
  // what was signed, scheduled or decided stays so.
  ghost predicate Advances(s: Node, s': Node) {
    && s'.key == s.key
    && (s'.height == s.height ==> LockKept(s, s'))
    && HRSUpTo(s.height, s.round, s.step, s'.height, s'.round, s'.step)
    && s.signed <= s'.signed && s.timeouts <= s'.timeouts && s.proposed <= s'.proposed
    && (forall h :: h in s.decided ==> h in s'.decided && s'.decided[h] == s.decided[h])
  }

  // ---- How each part survives a move forward ----

  lemma TimeoutsForward(timeouts: set<Timeout>, height: int, round: int, round': int)
    requires TimeoutsOK(timeouts, height, round) && round <= round'
    ensures TimeoutsOK(timeouts, height, round')
  {
  }

  lemma SignedForward(c: Chain, key: Option<PubKey>, signed: seq<Signed>, height: int, round: int, step: int,
                      height': int, round': int, step': int)
    requires SignedOK(c, key, signed, height, round, step) && HRSUpTo(height, round, step, height', round', step')
    ensures SignedOK(c, key, signed, height', round', step')
  {
  }

  lemma HeldForward(signed: seq<Signed>, block: Option<nat>, lockedRound: int, votes: HeightVotes,
                    votes': HeightVotes, height: int, round: int, round': int)
    requires HeldOK(signed, block, lockedRound, votes, height, round) && round <= round'
    requires forall r :: votes.Polka(r).Some? ==> votes'.Polka(r) == votes.Polka(r)
    ensures HeldOK(signed, block, lockedRound, votes', height, round')
  {
    forall v: Vote | v.block.Block? && PolkaAgainst(votes, v.round, round, v.block.id)
      ensures PolkaAgainst(votes', v.round, round', v.block.id)
    {
      var q :| v.round < q <= round && votes.Polka(q).Some? && !votes.Polka(q).value.Names(v.block.id);
      assert votes'.Polka(q).Some?;
    }
  }

  // A precommit covered by the lock (block, lockedRound).
  predicate Releases(v: Vote, block: Option<nat>, lockedRound: int, height: int) {
    && v.kind.Precommit? && v.block.Block? && v.height == height
    && block == Some(v.block.id) && lockedRound >= v.round
  }

  // Dropping or moving a lock is covered by the polka that caused it.
  lemma HeldRelock(signed: seq<Signed>, block: Option<nat>, lockedRound: int, votes: HeightVotes, height: int,
                   round: int, block': Option<nat>, lockedRound': int, q: int)
    requires HeldOK(signed, block, lockedRound, votes, height, round)
    requires block.Some? ==> lockedRound < q
    requires q <= round && votes.Polka(q).Some?
    requires block'.Some? ==> PolkaFor(votes, q, block'.value) && lockedRound' == q
    requires block.Some? && block'.None? ==> !PolkaFor(votes, q, block.value)
    ensures HeldOK(signed, block', lockedRound', votes, height, round)
  {
    forall i | 0 <= i < |signed| && Releases(signed[i].vote, block, lockedRound, height) && block' != block
      ensures PolkaAgainst(votes, signed[i].vote.round, round, signed[i].vote.block.id)
    {
      assert signed[i].vote.round < q;
    }
  }

  // ---- Signing ----

  // What makes a vote for `b` at the node's height and round fit to be signed.
  ghost predicate MaySign(c: Chain, s: Node, kind: VoteType, b: BlockID) {
    && (kind.Prevote? || kind.Precommit?)
    && s.step < StepOf(kind)
    && FitBlock(c, kind, s.height, b)
    && (kind.Precommit? && b.Block? ==> s.votes.Polka(s.round) == Some(b))
    && (kind.Prevote? ==> forall i :: 0 <= i < |s.signed| ==>
          var v := s.signed[i].vote;
          v.kind.Precommit? && v.block.Block? && v.height == s.height && !b.Names(v.block.id) ==>
            PolkaAgainst(s.votes, v.round, s.round, v.block.id))
  }

  lemma SignKeepsSigned(c: Chain, e: Env, s: Node, kind: VoteType, b: BlockID)
    requires SignedOK(c, s.key, s.signed, s.height, s.round, s.step) && MaySign(c, s, kind, b)
    ensures SignedOK(c, s.key, SignAddVote(c, e, s, kind, b).signed, s.height, s.round, StepOf(kind))
  {
    SignedForward(c, s.key, s.signed, s.height, s.round, s.step, s.height, s.round, StepOf(kind));
    var s' := SignAddVote(c, e, s, kind, b);
    if s' != s {
      var y := s'.signed[|s.signed|];
      forall i | 0 <= i < |s.signed| ensures LockRespected(s.signed[i], y) && LockRespected(y, s.signed[i]) {
        var v := s.signed[i].vote;
        if kind.Prevote? && v.kind.Precommit? && v.block.Block? && v.height == s.height && !b.Names(v.block.id) {
          var q :| v.round < q <= s.round && s.votes.Polka(q).Some? && !s.votes.Polka(q).value.Names(v.block.id);
          assert q in y.polkas && y.polkas[q] == s.votes.Polka(q).value;
        }
      }
    }
  }

  // Prevoting as defaultDoPrevote chooses is always fit to sign.
  lemma PrevoteChoiceMaySign(c: Chain, s: Node)
    requires NodeInv(c, s) && s.step < PREVOTE
    ensures MaySign(c, s, Prevote, PrevoteChoice(c, s))
  {
  }

  // ---- The steps ----

  // enterPrevote passes its guard only at the node's own round.
  lemma EnterPrevoteInv(c: Chain, e: Env, s: Node, height: int, round: int)
    requires NodeInv(c, s) && round <= s.round
    ensures NodeInv(c, EnterPrevote(c, e, s, height, round)) && Advances(s, EnterPrevote(c, e, s, height, round))
  {
    hide HeightInv;
    var s' := EnterPrevote(c, e, s, height, round);
    if s' != s {
      assert round == s.round && s.step < PREVOTE;
      PrevoteChoiceMaySign(c, s);
      SignKeepsSigned(c, e, s, Prevote, PrevoteChoice(c, s));
    }
  }

  lemma EnterPrevoteWaitInv(c: Chain, s: Node, height: int, round: int)
    requires NodeInv(c, s) && round <= s.round && PrevotesAny(s, round)
    ensures NodeInv(c, EnterPrevoteWait(s, height, round)) && Advances(s, EnterPrevoteWait(s, height, round))
  {
    hide HeightInv;
    var s' := EnterPrevoteWait(s, height, round);
    if s' != s {
      SignedForward(c, s.key, s.signed, s.height, s.round, s.step, s.height, s.round, PREVOTE_WAIT);
    }
  }

  lemma EnterPrecommitWaitInv(c: Chain, s: Node, height: int, round: int)
    requires NodeInv(c, s) && round <= s.round && PrecommitsAny(s, round)
    ensures NodeInv(c, EnterPrecommitWait(s, height, round)) && Advances(s, EnterPrecommitWait(s, height, round))
  {
    hide HeightInv;
    var s' := EnterPrecommitWait(s, height, round);
    if s' != s {
      SignedForward(c, s.key, s.signed, s.height, s.round, s.step, s.height, s.round, PRECOMMIT_WAIT);
    }
  }

  // The invariant with the lock's step condition already at PRECOMMIT.
  ghost predicate Precommitting(c: Chain, s: Node) {
    && s.step < PRECOMMIT && s.halt == Running
    && FrameInv(c, s)
    && LockOK(c, s.lockedBlock, s.lockedRound, s.votes, s.height, s.round, PRECOMMIT)
    && LockedPartsOK(s.lockedBlock, s.lockedParts)
    && SignedOK(c, s.key, s.signed, s.height, s.round, s.step)
    && HeldOK(s.signed, s.lockedBlock, s.lockedRound, s.votes, s.height, s.round)
  }

  lemma SealPrecommit(c: Chain, e: Env, s: Node, b: BlockID)
    requires Precommitting(c, s)
    requires if b.NoHash? then b == NilBlock else
      s.lockedBlock == Some(b.id) && s.lockedRound == s.round && s.votes.Polka(s.round) == Some(b)
    ensures var s' := SignAddVote(c, e, s, Precommit, b).(step := PRECOMMIT);
            NodeInv(c, s') && Advances(s, s')
  {
    hide HeightInv;
    SignKeepsSigned(c, e, s, Precommit, b);
  }

  // The highest polka is at least the round being precommitted, since that round has one.
  lemma NoPOLRoundPanic(c: Chain, s: Node)
    requires NodeInv(c, s) && s.votes.Polka(s.round).Some?
    ensures POLInfo(s.votes, s.votes.round).0 >= s.round
  {
    hide HeightInv;
    POLInfoIsHighest(s.votes, s.votes.round);
  }

  // The lock after enterPrecommit, given the polka of the round.
  lemma RelockPrecommitting(c: Chain, s: Node, block': Option<nat>, parts': Option<Parts>, lockedRound': int)
    requires NodeInv(c, s) && s.step < PRECOMMIT && s.halt == Running && s.votes.Polka(s.round).Some?
    requires block'.Some? ==> PolkaFor(s.votes, s.round, block'.value) && lockedRound' == s.round
                              && (block' == s.lockedBlock || c.valid(s.height, block'.value))
    requires s.lockedBlock.Some? && block'.None? ==> !PolkaFor(s.votes, s.round, s.lockedBlock.value)
    requires LockedPartsOK(block', parts')
    ensures var s' := s.(lockedRound := lockedRound', lockedBlock := block', lockedParts := parts');
            Precommitting(c, s') && Advances(s, s')
  {
  }

  lemma StillPrecommitting(c: Chain, s: Node)
    requires NodeInv(c, s) && s.step < PRECOMMIT && s.halt == Running
    ensures Precommitting(c, s)
    ensures var s' := s.(halt := InvalidPolkaPanic, step := PRECOMMIT); NodeInv(c, s') && Advances(s, s')
  {
  }

  lemma SealAfter(c: Chain, e: Env, s: Node, s1: Node, b: BlockID)
    requires Precommitting(c, s1) && Advances(s, s1)
    requires if b.NoHash? then b == NilBlock else
      s1.lockedBlock == Some(b.id) && s1.lockedRound == s1.round && s1.votes.Polka(s1.round) == Some(b)
    ensures var s' := SignAddVote(c, e, s1, Precommit, b).(step := PRECOMMIT);
            NodeInv(c, s') && Advances(s, s')
  {
    hide NodeInv, Advances, Precommitting, SignAddVote;
    SealPrecommit(c, e, s1, b);
    AdvancesTransitive(s, s1, SignAddVote(c, e, s1, Precommit, b).(step := PRECOMMIT));
  }

  // Setting up to fetch a block, once the step is past the prevotes: the parts are
  // then no longer the proposal's.
  lemma FetchInv(c: Chain, s: Node, h: PartsHeader)
    requires NodeInv(c, s) && s.halt == Running && s.step >= PRECOMMIT
    ensures NodeInv(c, FetchParts(s, h)) && Advances(s, FetchParts(s, h))
  {
    hide VotesOK, TimeoutsOK, ValidOK, CommitOK, LastCommitOK, DecidedOK, LockOK, SignedOK, HeldOK;
    DecidedWhileRunning(s.decided, s.height, FetchHeaderPanic);
    AdvancesReflexive(s);
  }

  lemma DecidedWhileRunning(decided: map<int, Decided>, height: int, halt: Halt)
    requires DecidedOK(decided, height, Running)
    ensures DecidedOK(decided, height, halt)
  {
  }

  lemma SkipSeals(c: Chain, s: Node)
    requires Precommitting(c, s)
    ensures NodeInv(c, s.(step := PRECOMMIT)) && Advances(s, s.(step := PRECOMMIT))
  {
    hide HeightInv;
    SignedForward(c, s.key, s.signed, s.height, s.round, s.step, s.height, s.round, PRECOMMIT);
  }

  // The step, the vote and the parts are set independently of each other.
  lemma FetchCommutes(c: Chain, e: Env, s: Node, h: PartsHeader)
    requires s.halt == Running
    ensures
      var s1 := if FetchParts(s, h).halt != Running then s else SignAddVote(c, e, s, Precommit, NilBlock);
      FetchThenNil(c, e, s, h).(step := PRECOMMIT) == FetchParts(s1.(step := PRECOMMIT), h)
  {
    hide SignAddVote;
    SignDepends(c, e, s, FetchParts(s, h), Precommit, NilBlock);
  }

  // A vote is made from the key, the place and the tallies.
  lemma SignDepends(c: Chain, e: Env, s: Node, s': Node, kind: VoteType, b: BlockID)
    requires s'.key == s.key && s'.height == s.height && s'.round == s.round && s'.votes == s.votes
    requires s'.signed == s.signed
    ensures SignAddVote(c, e, s', kind, b) == s'.(signed := SignAddVote(c, e, s, kind, b).signed)
    ensures SignAddVote(c, e, s, kind, b) == s.(signed := SignAddVote(c, e, s, kind, b).signed)
  {
    hide IndexOf;
  }

  lemma FetchSeals(c: Chain, e: Env, s: Node, s1: Node, h: PartsHeader)
    requires Precommitting(c, s1) && Advances(s, s1)
    ensures var s' := FetchThenNil(c, e, s1, h).(step := PRECOMMIT); NodeInv(c, s') && Advances(s, s')
  {
    hide NodeInv, Advances, FetchParts, FetchThenNil, SignAddVote, FrameInv, LockOK, SignedOK, HeldOK;
    FetchCommutes(c, e, s1, h);
    SkipSeals(c, s1);
    SealPrecommit(c, e, s1, NilBlock);
    SignRuns(c, e, s1, Precommit, NilBlock);
    var s2 := if FetchParts(s1, h).halt != Running then s1.(step := PRECOMMIT)
              else SignAddVote(c, e, s1, Precommit, NilBlock).(step := PRECOMMIT);
    FetchInv(c, s2, h);
    AdvancesTransitive(s, s1, s2);
    AdvancesTransitive(s, s2, FetchParts(s2, h));
  }

  lemma SignRuns(c: Chain, e: Env, s: Node, kind: VoteType, b: BlockID)
    ensures SignAddVote(c, e, s, kind, b).halt == s.halt
  {
  }

  // Both the lock and, before the precommit, the proposal have all their parts.
  lemma LockFacts(c: Chain, s: Node)
    requires NodeInv(c, s)
    ensures LockedPartsOK(s.lockedBlock, s.lockedParts)
    ensures s.step < PRECOMMIT ==> LockedPartsOK(s.proposalBlock, s.proposalParts)
  {
  }

  lemma PrecommitPolkaInv(c: Chain, e: Env, s: Node, b: BlockID)
    requires NodeInv(c, s) && s.step < PRECOMMIT && s.halt == Running && s.votes.Polka(s.round) == Some(b)
    ensures var s' := PrecommitPolka(c, e, s, s.round, b).(step := PRECOMMIT);
            NodeInv(c, s') && Advances(s, s')
  {
    hide NodeInv, Advances, Precommitting, SignAddVote, FetchThenNil;
    if b.NoHash? {
      RelockPrecommitting(c, s, None, None, 0);
      SealAfter(c, e, s, Unlocked(s), NilBlock);
    } else if HashesTo(s.lockedBlock, b) {
      LockFacts(c, s);
      RelockPrecommitting(c, s, s.lockedBlock, s.lockedParts, s.round);
      SealAfter(c, e, s, s.(lockedRound := s.round), b);
    } else if HashesTo(s.proposalBlock, b) {
      StillPrecommitting(c, s);
      if c.valid(s.height, b.id) {
        LockFacts(c, s);
        RelockPrecommitting(c, s, s.proposalBlock, s.proposalParts, s.round);
        SealAfter(c, e, s, Locked(s, s.round), b);
      }
    } else {
      RelockPrecommitting(c, s, None, None, 0);
      FetchSeals(c, e, s, Unlocked(s), b.parts);
    }
  }

  lemma PrecommittedInv(c: Chain, e: Env, s: Node)
    requires NodeInv(c, s) && s.step < PRECOMMIT && s.halt == Running
    ensures var s' := Precommitted(c, e, s, s.round).(step := PRECOMMIT);
            NodeInv(c, s') && Advances(s, s')
  {
    hide NodeInv, Advances, Precommitting, SignAddVote, PrecommitPolka;
    match s.votes.Polka(s.round)
    case None =>
      StillPrecommitting(c, s);
      SealPrecommit(c, e, s, NilBlock);
    case Some(b) =>
      NoPOLRoundPanic(c, s);
      PrecommitPolkaInv(c, e, s, b);
  }

  // enterPrecommit passes its guard only at the node's own round.
  lemma EnterPrecommitInv(c: Chain, e: Env, s: Node, height: int, round: int)
    requires NodeInv(c, s) && round <= s.round
    ensures NodeInv(c, EnterPrecommit(c, e, s, height, round)) && Advances(s, EnterPrecommit(c, e, s, height, round))
  {
    hide NodeInv, Advances;
    AdvancesReflexive(s);
    if EnterPrecommit(c, e, s, height, round) != s {
      assert round == s.round;
      PrecommittedInv(c, e, s);
    }
  }

  lemma ScheduleInv(c: Chain, s: Node, round: int, step: int)
    requires NodeInv(c, s) && step in {NEW_ROUND, PROPOSE} && round == s.round && (step == NEW_ROUND ==> round == 0)
    ensures NodeInv(c, Schedule(s, round, step)) && Advances(s, Schedule(s, round, step))
  {
  }

  lemma DecideProposalFrame(e: Env, s: Node, round: int)
    ensures DecideProposal(e, s, round) == s.(proposed := DecideProposal(e, s, round).proposed)
    ensures s.proposed <= DecideProposal(e, s, round).proposed
  {
  }

  lemma ProposeInv(c: Chain, e: Env, s: Node)
    requires NodeInv(c, s) && s.halt == Running && s.step < PROPOSE
    ensures NodeInv(c, Propose(c, e, s, s.round)) && Advances(s, Propose(c, e, s, s.round))
  {
    hide HeightInv, ValidOK, LastCommitOK, SignedOK, HeldOK, TimeoutsOK, DecideProposal, IsValidator;
    var s1 := Schedule(s, s.round, PROPOSE);
    ScheduleInv(c, s, s.round, PROPOSE);
    DecideProposalFrame(e, s1, s.round);
    SignedForward(c, s.key, s.signed, s.height, s.round, s.step, s.height, s.round, PROPOSE);
  }

  lemma EnterProposeInv(c: Chain, e: Env, s: Node, height: int, round: int)
    requires NodeInv(c, s) && round <= s.round
    ensures NodeInv(c, EnterPropose(c, e, s, height, round)) && Advances(s, EnterPropose(c, e, s, height, round))
  {
    hide NodeInv, Advances, EnterPrevote, IsProposalComplete;
    AdvancesReflexive(s);
    if EnterPropose(c, e, s, height, round) != s {
      var s1 := Propose(c, e, s, round);
      ProposeInv(c, e, s);
      EnterPrevoteInv(c, e, s1, height, s1.round);
      AdvancesTransitive(s, s1, EnterPrevote(c, e, s1, height, s1.round));
    }
  }

  // SetRound moves on without panicking, and the tallies of the new round are empty.
  lemma StartRoundInv(c: Chain, s: Node, round: int)
    requires NodeInv(c, s) && s.halt == Running
    requires s.round < round || (s.round == round && s.step == NEW_HEIGHT)
    ensures StartRound(s, round).halt == Running
    ensures NodeInv(c, StartRound(s, round)) && Advances(s, StartRound(s, round))
  {
    hide HeightInv, SignedOK, HeldOK, TimeoutsOK, SetRound;
    SetRoundInv(s.votes, round + 1);
    SetRoundKeeps(s.votes, round + 1);
    SetRoundMoves(s.votes, round + 1);
    SignedForward(c, s.key, s.signed, s.height, s.round, s.step, s.height, round, NEW_ROUND);
    HeldForward(s.signed, s.lockedBlock, s.lockedRound, s.votes, SetRound(s.votes, round + 1),
                s.height, s.round, round);
    TimeoutsForward(s.timeouts, s.height, s.round, round);
  }

  lemma SetRoundMoves(h: HeightVotes, round: int)
    ensures SetRound(h, round).round == round
  {
  }

  lemma EnterNewRoundInv(c: Chain, e: Env, s: Node, height: int, round: int)
    requires NodeInv(c, s)
    ensures NodeInv(c, EnterNewRound(c, e, s, height, round)) && Advances(s, EnterNewRound(c, e, s, height, round))
  {
    hide NodeInv, Advances, EnterPropose, SetRound;
    AdvancesReflexive(s);
    if EnterNewRound(c, e, s, height, round) != s {
      var s1 := StartRound(s, round);
      StartRoundInv(c, s, round);
      if c.waitForTxs && round == 0 && !(height == 1 || e.proofBlock) {
        ScheduleInv(c, s1, round, NEW_ROUND);
        AdvancesTransitive(s, s1, Schedule(s1, round, NEW_ROUND));
      } else {
        EnterProposeInv(c, e, s1, height, round);
        AdvancesTransitive(s, s1, EnterPropose(c, e, s1, height, round));
      }
    }
  }

  lemma AdvancesTransitive(s: Node, s1: Node, s2: Node)
    requires Advances(s, s1) && Advances(s1, s2)
    ensures Advances(s, s2)
  {
  }

  lemma HeldAtNewHeight(c: Chain, key: Option<PubKey>, signed: seq<Signed>, votes: HeightVotes,
                        height: int, round: int, step: int)
    requires SignedOK(c, key, signed, height, round, step)
    ensures HeldOK(signed, None, 0, votes, height + 1, 0)
  {
  }

  lemma PrecommitsInv(votes: HeightVotes, r: int)
    requires HeightInv(votes) && r in votes.sets
    ensures TallyInv(votes.sets[r].precommits) && TallyInv(votes.sets[r].prevotes)
  {
  }

  // A decided height leads to a fresh one.
  lemma UpdateToStateInv(c: Chain, s: Node)
    requires ChainOK(c) && FrameInv(c, s.(decided := map[])) && DecidedOK(s.decided, s.height + 1, s.halt)
    requires SignedOK(c, s.key, s.signed, s.height, s.round, s.step)
    ensures NodeInv(c, UpdateToState(c, s)) && Advances(s, UpdateToState(c, s))
  {
    hide HeightInv, SignedOK, HeldOK, TallyInv;
    NewHeightInv(c.id, s.height + 1, c.vals(s.height + 1));
    if s.commitRound in s.votes.sets { PrecommitsInv(s.votes, s.commitRound); }
    SignedForward(c, s.key, s.signed, s.height, s.round, s.step, s.height + 1, 0, NEW_HEIGHT);
    HeldAtNewHeight(c, s.key, s.signed, UpdateToState(c, s).votes, s.height, s.round, s.step);
  }

  // finalizeCommit may stop on a complaint, or on a failing application.
  lemma HaltInv(c: Chain, s: Node, halt: Halt)
    requires NodeInv(c, s) && s.halt == Running && halt in {PartsPanic, InvalidCommitPanic, SaveBlockPanic}
    ensures NodeInv(c, s.(halt := halt)) && Advances(s, s.(halt := halt))
  {
  }

  lemma DecidedInv(c: Chain, s: Node, d: Decided)
    requires NodeInv(c, s) && s.halt == Running
    ensures var s1 := s.(decided := s.decided[s.height := d]);
      && Advances(s, s1)
      && NodeInv(c, s1.(halt := ApplyFailed)) && Advances(s, s1.(halt := ApplyFailed))
      && FrameInv(c, s1.(decided := map[])) && DecidedOK(s1.decided, s1.height + 1, s1.halt)
  {
    hide VotesOK, TimeoutsOK, ValidOK, CommitOK, LastCommitOK, LockOK, SignedOK, HeldOK;
  }

  lemma FinalizeCommitInv(c: Chain, e: Env, s: Node, height: int)
    requires ChainOK(c) && NodeInv(c, s) && s.halt == Running
    ensures NodeInv(c, FinalizeCommit(c, e, s, height)) && Advances(s, FinalizeCommit(c, e, s, height))
  {
    hide NodeInv, Advances, FrameInv, UpdateToState, SignedOK, DecidedOK;
    CommitFacts(c, s);
    AdvancesReflexive(s);
    HaltInv(c, s, PartsPanic);
    HaltInv(c, s, InvalidCommitPanic);
    HaltInv(c, s, SaveBlockPanic);
    if s.height == height && s.step == COMMIT && s.votes.Decision(s.commitRound).value.Block? {
      var b := s.votes.Decision(s.commitRound).value;
      var s1 := s.(decided := s.decided[height := Decided(b.id, b.parts, s.commitRound)]);
      DecidedInv(c, s, Decided(b.id, b.parts, s.commitRound));
      UpdateToStateInv(c, s1);
      AdvancesTransitive(s, s1, UpdateToState(c, s1));
    }
  }

  // At step Commit there is a decision on record.
  lemma CommitFacts(c: Chain, s: Node)
    requires NodeInv(c, s)
    ensures s.step == COMMIT ==> s.votes.Decision(s.commitRound).Some?
    ensures SignedOK(c, s.key, s.signed, s.height, s.round, s.step)
  {
  }

  lemma TryFinalizeCommitInv(c: Chain, e: Env, s: Node)
    requires ChainOK(c) && NodeInv(c, s)
    ensures NodeInv(c, TryFinalizeCommit(c, e, s, s.height)) && Advances(s, TryFinalizeCommit(c, e, s, s.height))
  {
    hide NodeInv, Advances;
    AdvancesReflexive(s);
    if TryFinalizeCommit(c, e, s, s.height) != s { FinalizeCommitInv(c, e, s, s.height); }
  }

  lemma CommittingInv(c: Chain, s: Node, commitRound: int, b: BlockID)
    requires NodeInv(c, s) && s.halt == Running && s.step < COMMIT && s.votes.Decision(commitRound) == Some(b)
    ensures NodeInv(c, Committing(s, commitRound, b)) && Advances(s, Committing(s, commitRound, b))
  {
    hide NodeInv, Advances, FetchParts;
    LockFacts(c, s);
    var s1 := if HashesTo(s.lockedBlock, b) then
                s.(proposalBlock := s.lockedBlock, proposalParts := s.lockedParts)
              else s;
    var s2 := s1.(step := COMMIT, commitRound := commitRound);
    CommitStepInv(c, s, commitRound, s2);
    FetchInv(c, s2, b.parts);
    AdvancesTransitive(s, s2, FetchParts(s2, b.parts));
    assert Committing(s, commitRound, b) == if HashesTo(s1.proposalBlock, b) then s2 else FetchParts(s2, b.parts) by {
      FetchOnly(s1, s2, b.parts);
    }
  }

  // The proposal at the step Commit: as it is, or the lock's.
  lemma CommitStepInv(c: Chain, s: Node, commitRound: int, s': Node)
    requires NodeInv(c, s) && s.halt == Running && s.step < COMMIT && s.votes.Decision(commitRound).Some?
    requires s' == s.(proposalBlock := s'.proposalBlock, proposalParts := s'.proposalParts,
                      step := COMMIT, commitRound := commitRound)
    requires
      || (s'.proposalBlock == s.proposalBlock && s'.proposalParts == s.proposalParts)
      || (s'.proposalBlock.Some? && s'.proposalBlock == s.lockedBlock && s'.proposalParts == s.lockedParts)
    ensures NodeInv(c, s') && Advances(s, s')
  {
    hide HeightInv, SignedOK, HeldOK, TimeoutsOK, LastCommitOK, ValidOK;
    SignedForward(c, s.key, s.signed, s.height, s.round, s.step, s.height, s.round, COMMIT);
  }

  lemma FetchOnly(s: Node, s': Node, h: PartsHeader)
    requires s' == s.(step := s'.step, commitRound := s'.commitRound)
    ensures FetchParts(s', h) == FetchParts(s, h).(step := s'.step, commitRound := s'.commitRound)
  {
  }

  lemma EnterCommitInv(c: Chain, e: Env, s: Node, height: int, commitRound: int)
    requires ChainOK(c) && NodeInv(c, s)
    requires s.height == height ==> s.votes.Decision(commitRound).Some?
    ensures var s' := EnterCommit(c, e, s, height, commitRound); NodeInv(c, s') && Advances(s, s')
  {
    hide NodeInv, Advances, TryFinalizeCommit;
    AdvancesReflexive(s);
    if s.halt == Running && s.height == height && s.step < COMMIT {
      var b := s.votes.Decision(commitRound).value;
      var s1 := Committing(s, commitRound, b);
      CommittingInv(c, s, commitRound, b);
      TryFinalizeCommitInv(c, e, s1);
      AdvancesTransitive(s, s1, TryFinalizeCommit(c, e, s1, height));
    }
  }

  // ---- What the steps leave alone ----

  predicate KeepsTallies(h: HeightVotes, h': HeightVotes) {
    forall r :: r in h.sets ==> r in h'.sets && h'.sets[r] == h.sets[r]
  }

  // Within one round: same height, same round, same votes.
  predicate SamePlace(s: Node, s': Node) {
    s'.height == s.height && s'.round == s.round && s'.votes == s.votes
  }

  lemma EnterPrevoteFrame(c: Chain, e: Env, s: Node, height: int, round: int)
    requires round <= s.round
    ensures SamePlace(s, EnterPrevote(c, e, s, height, round)) && EnterPrevote(c, e, s, height, round).halt == s.halt
  {
  }

  lemma EnterProposeFrame(c: Chain, e: Env, s: Node, height: int, round: int)
    requires round <= s.round
    ensures SamePlace(s, EnterPropose(c, e, s, height, round)) && EnterPropose(c, e, s, height, round).halt == s.halt
  {
  }

  lemma EnterPrecommitFrame(c: Chain, e: Env, s: Node, height: int, round: int)
    requires round <= s.round
    ensures SamePlace(s, EnterPrecommit(c, e, s, height, round))
  {
  }

  lemma EnterNewRoundFrame(c: Chain, e: Env, s: Node, height: int, round: int)
    requires NodeInv(c, s)
    ensures var s' := EnterNewRound(c, e, s, height, round);
      && s'.height == s.height && s'.halt == s.halt && KeepsTallies(s.votes, s'.votes)
      && (s.halt == Running && s.height == height && s.round <= round ==> s'.round == round)
      && (round <= s.round ==> s'.round == s.round)
  {
    hide NodeInv, Advances, EnterPropose;
    if s.halt == Running && s.height == height && (s.round < round || (s.round == round && s.step == NEW_HEIGHT)) {
      StartRoundInv(c, s, round);
      EnterProposeFrame(c, e, StartRound(s, round), height, round);
    }
  }

  // ---- Inputs ----

  lemma UnlockingInv(c: Chain, s: Node, r: int)
    requires NodeInv(c, s)
    ensures NodeInv(c, Unlocking(s, r)) && Advances(s, Unlocking(s, r)) && SamePlace(s, Unlocking(s, r))
  {
    hide HeightInv, SignedOK, HeldOK, TimeoutsOK, LastCommitOK;
    if Unlocking(s, r) != s {
      HeldRelock(s.signed, s.lockedBlock, s.lockedRound, s.votes, s.height, s.round, None, 0, r);
    }
  }

  lemma ValidatingInv(c: Chain, s: Node, r: int)
    requires NodeInv(c, s)
    ensures NodeInv(c, Validating(s, r)) && Advances(s, Validating(s, r)) && SamePlace(s, Validating(s, r))
  {
  }

  lemma OnPrevoteSkipInv(c: Chain, e: Env, s: Node, r: int)
    requires NodeInv(c, s) && s.halt == Running && s.round <= r && PrevotesAny(s, r)
    ensures var s2 := EnterNewRound(c, e, s, s.height, r);
            var s' := if s.votes.Polka(r).Some? then EnterPrecommit(c, e, s2, s.height, r)
                      else EnterPrevoteWait(EnterPrevote(c, e, s2, s.height, r), s.height, r);
            NodeInv(c, s') && Advances(s, s')
  {
    hide NodeInv, Advances, EnterNewRound, EnterPrecommit, EnterPrevote, EnterPrevoteWait;
    var s2 := EnterNewRound(c, e, s, s.height, r);
    EnterNewRoundInv(c, e, s, s.height, r);
    EnterNewRoundFrame(c, e, s, s.height, r);
    if s.votes.Polka(r).Some? {
      EnterPrecommitInv(c, e, s2, s.height, r);
      AdvancesTransitive(s, s2, EnterPrecommit(c, e, s2, s.height, r));
    } else {
      var s3 := EnterPrevote(c, e, s2, s.height, r);
      EnterPrevoteInv(c, e, s2, s.height, r);
      EnterPrevoteFrame(c, e, s2, s.height, r);
      EnterPrevoteWaitInv(c, s3, s.height, r);
      AdvancesTransitive(s, s2, s3);
      AdvancesTransitive(s, s3, EnterPrevoteWait(s3, s.height, r));
    }
  }

  lemma OnPrevoteInv(c: Chain, e: Env, s: Node, r: int)
    requires NodeInv(c, s) && s.halt == Running
    ensures NodeInv(c, OnPrevote(c, e, s, r)) && Advances(s, OnPrevote(c, e, s, r))
  {
    hide NodeInv, Advances, EnterNewRound, EnterPrecommit, EnterPrevote, EnterPrevoteWait;
    var s0 := Unlocking(s, r);
    var s1 := Validating(s0, r);
    UnlockingInv(c, s, r);
    ValidatingInv(c, s0, r);
    AdvancesTransitive(s, s0, s1);
    if s1.round <= r && PrevotesAny(s1, r) {
      OnPrevoteSkipInv(c, e, s1, r);
      AdvancesTransitive(s, s1, OnPrevote(c, e, s, r));
    } else if OnPrevote(c, e, s, r) != s1 {
      EnterPrevoteInv(c, e, s1, s1.height, s1.round);
      AdvancesTransitive(s, s1, OnPrevote(c, e, s, r));
    }
  }

  lemma OnPrecommitDecidedInv(c: Chain, e: Env, s: Node, r: int)
    requires ChainOK(c) && NodeInv(c, s) && s.halt == Running
    requires s.votes.Decision(r).Some? && s.votes.Decision(r).value.Block?
    ensures NodeInv(c, OnPrecommit(c, e, s, r)) && Advances(s, OnPrecommit(c, e, s, r))
  {
    hide NodeInv, Advances, EnterNewRound, EnterPrecommit, EnterCommit;
    var s1 := EnterNewRound(c, e, s, s.height, r);
    EnterNewRoundInv(c, e, s, s.height, r);
    EnterNewRoundFrame(c, e, s, s.height, r);
    var s2 := EnterPrecommit(c, e, s1, s.height, r);
    EnterPrecommitInv(c, e, s1, s.height, r);
    EnterPrecommitFrame(c, e, s1, s.height, r);
    AdvancesTransitive(s, s1, s2);
    var s3 := EnterCommit(c, e, s2, s.height, r);
    EnterCommitInv(c, e, s2, s.height, r);
    AdvancesTransitive(s, s2, s3);
    EnterNewRoundInv(c, e, s3, s3.height, 0);
    AdvancesTransitive(s, s3, EnterNewRound(c, e, s3, s3.height, 0));
  }

  lemma OnPrecommitInv(c: Chain, e: Env, s: Node, r: int)
    requires ChainOK(c) && NodeInv(c, s) && s.halt == Running
    ensures NodeInv(c, OnPrecommit(c, e, s, r)) && Advances(s, OnPrecommit(c, e, s, r))
  {
    hide NodeInv, Advances, EnterNewRound, EnterPrecommit, EnterCommit, EnterPrecommitWait;
    if s.votes.Decision(r).Some? {
      if s.votes.Decision(r).value.NoHash? { EnterNewRoundInv(c, e, s, s.height, r + 1); }
      else { OnPrecommitDecidedInv(c, e, s, r); }
    } else if s.round <= r && PrecommitsAny(s, r) {
      var s1 := EnterNewRound(c, e, s, s.height, r);
      EnterNewRoundInv(c, e, s, s.height, r);
      EnterNewRoundFrame(c, e, s, s.height, r);
      var s2 := EnterPrecommit(c, e, s1, s.height, r);
      EnterPrecommitInv(c, e, s1, s.height, r);
      EnterPrecommitFrame(c, e, s1, s.height, r);
      AdvancesTransitive(s, s1, s2);
      EnterPrecommitWaitInv(c, s2, s.height, r);
      AdvancesTransitive(s, s2, EnterPrecommitWait(s2, s.height, r));
    } else {
      AdvancesReflexive(s);
    }
  }

  lemma AdvancesReflexive(s: Node)
    ensures Advances(s, s)
  {
  }

  lemma HandleLastCommitInv(c: Chain, e: Env, s: Node, v: Vote)
    requires NodeInv(c, s) && s.halt == Running && s.lastCommit.Some?
    ensures var r := AddVote(s.lastCommit.value, v);
            var s1 := s.(lastCommit := Some(r.tally));
            && NodeInv(c, s1) && Advances(s, s1)
            && NodeInv(c, EnterNewRound(c, e, s1, s1.height, 0)) && Advances(s, EnterNewRound(c, e, s1, s1.height, 0))
  {
    NodeShapes(c, s);
    hide HeightInv, SignedOK, HeldOK, TimeoutsOK, TallyInv;
    AddVoteInv(s.lastCommit.value, v);
    var s1 := s.(lastCommit := Some(AddVote(s.lastCommit.value, v).tally));
    EnterNewRoundInv(c, e, s1, s1.height, 0);
    AdvancesTransitive(s, s1, EnterNewRound(c, e, s1, s1.height, 0));
  }

  // Growing tallies keep everything that rests on their majorities.
  lemma GrowInv(c: Chain, s: Node, votes: HeightVotes)
    requires NodeInv(c, s) && HeightInv(votes) && Grows(s.votes, votes) && votes.round == s.votes.round
    ensures NodeInv(c, s.(votes := votes)) && Advances(s, s.(votes := votes))
  {
  }

  // A vote for the current height, once the tallies have it.
  lemma AddedVoteInv(c: Chain, e: Env, s: Node, v: Vote, votes: HeightVotes)
    requires ChainOK(c) && NodeInv(c, s) && s.halt == Running
    requires HeightInv(votes) && Grows(s.votes, votes) && votes.round == s.votes.round
    ensures var s1 := s.(votes := votes);
            && NodeInv(c, s1) && Advances(s, s1)
            && NodeInv(c, OnPrevote(c, e, s1, v.round)) && Advances(s, OnPrevote(c, e, s1, v.round))
            && NodeInv(c, OnPrecommit(c, e, s1, v.round)) && Advances(s, OnPrecommit(c, e, s1, v.round))
  {
    hide NodeInv, Advances, HeightInv, Grows, OnPrevote, OnPrecommit;
    var s1 := s.(votes := votes);
    GrowInv(c, s, votes);
    OnPrevoteInv(c, e, s1, v.round);
    AdvancesTransitive(s, s1, OnPrevote(c, e, s1, v.round));
    OnPrecommitInv(c, e, s1, v.round);
    AdvancesTransitive(s, s1, OnPrecommit(c, e, s1, v.round));
  }

  lemma NilLastCommitInv(c: Chain, s: Node)
    requires NodeInv(c, s) && s.halt == Running
    ensures NodeInv(c, s.(halt := NilLastCommitPanic)) && Advances(s, s.(halt := NilLastCommitPanic))
  {
  }

  lemma HandleVoteInv(c: Chain, e: Env, s: Node, v: Vote, peer: Peer)
    requires ChainOK(c) && NodeInv(c, s) && s.halt == Running
    ensures ShapeAll(s.votes) && (s.lastCommit.Some? ==> Shape(s.lastCommit.value))
    ensures NodeInv(c, HandleVote(c, e, s, v, peer)) && Advances(s, HandleVote(c, e, s, v, peer))
  {
    hide NodeInv, Advances, HeightInv, Grows, EnterNewRound, OnPrevote, OnPrecommit, AddVote, AddVoteTo;
    NodeFacts(c, s);
    NodeShapes(c, s);
    NilLastCommitInv(c, s);
    AdvancesReflexive(s);
    if v.height + 1 == s.height {
      if s.lastCommit.Some? { HandleLastCommitInv(c, e, s, v); }
    } else if v.height == s.height {
      AddVoteToInv(s.votes, v, peer);
      AddedVoteInv(c, e, s, v, AddVoteTo(s.votes, v, peer).votes);
    }
  }

  lemma NodeShapes(c: Chain, s: Node)
    requires NodeInv(c, s)
    ensures ShapeAll(s.votes) && (s.lastCommit.Some? ==> Shape(s.lastCommit.value))
  {
  }

  // A timeout that is still relevant is for the node's own round.
  lemma TimeoutIsOwnRound(c: Chain, s: Node, ti: Timeout)
    requires NodeInv(c, s) && ti in s.timeouts && ti.height == s.height
    ensures ti.round <= s.round && 0 <= s.round
  {
  }

  lemma HandleTimeoutInv(c: Chain, e: Env, s: Node, ti: Timeout)
    requires NodeInv(c, s)
    ensures NodeInv(c, HandleTimeout(c, e, s, ti)) && Advances(s, HandleTimeout(c, e, s, ti))
  {
    hide NodeInv, Advances, EnterNewRound, EnterPropose, EnterPrevote, EnterPrecommit;
    AdvancesReflexive(s);
    EnterNewRoundInv(c, e, s, ti.height, 0);
    EnterNewRoundInv(c, e, s, ti.height, ti.round + 1);
    if ti in s.timeouts && ti.height == s.height {
      TimeoutIsOwnRound(c, s, ti);
      EnterProposeInv(c, e, s, ti.height, 0);
      EnterPrevoteInv(c, e, s, ti.height, ti.round);
      EnterPrecommitInv(c, e, s, ti.height, ti.round);
    }
  }

  lemma NodeFacts(c: Chain, s: Node)
    requires NodeInv(c, s)
    ensures !s.halt.Sanity() && 0 <= s.round && HeightInv(s.votes)
    ensures ValidOK(s.validBlock, s.validRound, s.votes, s.round)
    ensures ProposalOK(s.proposal, s.height, s.round)
    ensures ProposalPartsOK(s.proposal, s.proposalBlock, s.proposalParts, s.step)
  {
  }

  // Parts and proposals touch only the proposal fields and the valid block.
  lemma ProposalFieldsInv(c: Chain, s: Node, s': Node)
    requires NodeInv(c, s)
    requires s' == s.(proposal := s'.proposal, proposalBlock := s'.proposalBlock, proposalParts := s'.proposalParts,
                      validRound := s'.validRound, validBlock := s'.validBlock, validParts := s'.validParts,
                      halt := s'.halt)
    requires s'.halt == s.halt || (s.halt == Running && s'.halt in {ProposalHeaderPanic, PartIndexPanic})
    requires ValidOK(s'.validBlock, s'.validRound, s.votes, s.round) && ProposalOK(s'.proposal, s.height, s.round)
    requires ProposalPartsOK(s'.proposal, s'.proposalBlock, s'.proposalParts, s.step)
    ensures NodeInv(c, s') && Advances(s, s')
  {
  }

  lemma HandlePartInv(c: Chain, e: Env, s: Node, height: int, header: PartsHeader, outcome: PartOutcome)
    requires ChainOK(c) && NodeInv(c, s) && s.halt == Running
    ensures var s' := HandlePart(c, e, s, height, header, outcome); NodeInv(c, s') && Advances(s, s')
  {
    hide NodeInv, Advances, EnterPrevote, TryFinalizeCommit;
    NodeFacts(c, s);
    AdvancesReflexive(s);
    if s.height != height || s.proposalParts.None? || outcome.Partial? { return; }
    if outcome.NegativeIndex? {
      ProposalFieldsInv(c, s, s.(halt := PartIndexPanic));
      return;
    }
    if s.proposalParts.value.header != header || s.proposalParts.value.complete { return; }
    var s1 := s.(proposalParts := Some(Parts(header, true)));
    ProposalFieldsInv(c, s, s1);
    if outcome.Completes? {
      var s2 := Assembled(s1, outcome.block);
      ProposalFieldsInv(c, s, s2);
      EnterPrevoteInv(c, e, s2, height, s2.round);
      AdvancesTransitive(s, s2, EnterPrevote(c, e, s2, height, s2.round));
      TryFinalizeCommitInv(c, e, s2);
      AdvancesTransitive(s, s2, TryFinalizeCommit(c, e, s2, height));
    }
  }

  // Every input, from any sender, keeps the invariant: no sanity panic fires, the
  // lock discipline holds, and height, round and step never decrease.
  lemma HandleInv(c: Chain, e: Env, s: Node, ev: Event)
    requires ChainOK(c) && NodeInv(c, s)
    ensures ShapeAll(s.votes) && (s.lastCommit.Some? ==> Shape(s.lastCommit.value))
    ensures NodeInv(c, Handle(c, e, s, ev)) && Advances(s, Handle(c, e, s, ev))
  {
    hide NodeInv, Advances, HeightInv, Grows, HandlePart, HandleVote, HandleTimeout, EnterPropose;
    NodeFacts(c, s);
    NodeShapes(c, s);
    AdvancesReflexive(s);
    if s.halt == Running {
      match ev
      case ProposalMsg(p) => ProposalFieldsInv(c, s, HandleProposal(s, p));
      case PartMsg(height, header, outcome) => HandlePartInv(c, e, s, height, header, outcome);
      case VoteMsg(v, peer) => HandleVoteInv(c, e, s, v, peer);
      case TimeoutMsg(ti) => HandleTimeoutInv(c, e, s, ti);
      case TxsAvailable(height) => EnterProposeInv(c, e, s, height, 0);
      case PeerMaj23Msg(height, round, kind, peer, b) =>
        SetPeerMaj23InInv(s.votes, round, kind, peer, b);
        GrowInv(c, s, SetPeerMaj23In(s.votes, round, kind, peer, b));
    }
  }

  lemma InitInv(c: Chain, key: Option<PubKey>, height: int, lastCommit: Option<Tally>)
    requires ChainOK(c) && 1 <= height && LastCommitOK(lastCommit)
    ensures NodeInv(c, Init(c, key, height, lastCommit))
  {
    NewHeightInv(c.id, height, c.vals(height));
  }
}
