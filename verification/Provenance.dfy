// Where the facts of a node come from while it processes one input.
//
// `base` is the node right after it took the input into its tallies.  Whatever
// the steps that follow sign, decide or complain about rests on the majorities
// of `base`, and they record no further votes.
module Provenance {
  import opened Types
  import opened VoteSets
  import opened HeightVoteSets
  import opened Consensus

  ghost predicate RecordedIn(h: HeightVotes, w: Vote) {
    exists r :: r in h.sets && (Recorded(h.sets[r].prevotes, w) || Recorded(h.sets[r].precommits, w))
  }

  // Vote `w` is on record at the node, for its height or the one before.
  ghost predicate RecordedAt(votes: HeightVotes, lastCommit: Option<Tally>, w: Vote) {
    RecordedIn(votes, w) || (lastCommit.Some? && Recorded(lastCommit.value, w))
  }

  ghost predicate MajoritiesFrom(base: Node, s: Node) {
    && (forall r :: s.votes.Polka(r).Some? ==> s.height == base.height && s.votes.Polka(r) == base.votes.Polka(r))
    && (forall r :: s.votes.Decision(r).Some? ==>
          s.height == base.height && s.votes.Decision(r) == base.votes.Decision(r))
  }

  ghost predicate PolkasFrom(base: Node, x: Signed) {
    forall q :: q in x.polkas ==> x.vote.height == base.height && base.votes.Polka(q) == Some(x.polkas[q])
  }

  ghost predicate SignedFrom(base: Node, s: Node) {
    && base.signed <= s.signed
    && forall i :: |base.signed| <= i < |s.signed| ==> PolkasFrom(base, s.signed[i])
  }

  // The decision is what the precommits of its round are for, header and all.
  predicate Chose(votes: HeightVotes, d: Decided) {
    votes.Decision(d.round) == Some(Block(d.block, d.parts))
  }

  ghost predicate DecidedFrom(base: Node, s: Node) {
    forall h :: h in s.decided ==>
      || (h in base.decided && s.decided[h] == base.decided[h])
      || (h == base.height && Chose(base.votes, s.decided[h]))
  }

  // A complaint about an invalid block, or about a header that no part set can have,
  // points at a majority for it.
  predicate Invalid(c: Chain, height: int, b: BlockID) {
    b.Block? && !c.valid(height, b.id)
  }

  predicate Majority(votes: HeightVotes, r: int, b: BlockID) {
    votes.Polka(r) == Some(b) || votes.Decision(r) == Some(b)
  }

  ghost predicate HaltFrom(c: Chain, base: Node, s: Node) {
    && (s.halt == InvalidPolkaPanic ==>
          base.halt == s.halt || exists r, b :: base.votes.Polka(r) == Some(b) && Invalid(c, base.height, b))
    && (s.halt == InvalidCommitPanic ==>
          base.halt == s.halt || exists r, b :: base.votes.Decision(r) == Some(b) && Invalid(c, base.height, b))
    && (s.halt == FetchHeaderPanic ==>
          base.halt == s.halt || exists r, b :: Majority(base.votes, r, b) && b.parts.total < 0)
    && (s.halt == NilLastCommitPanic ==> base.halt == s.halt)
  }

  ghost predicate VotesFrom(base: Node, s: Node) {
    forall w :: RecordedAt(s.votes, s.lastCommit, w) ==> RecordedAt(base.votes, base.lastCommit, w)
  }

  ghost predicate Follows(c: Chain, base: Node, s: Node) {
    && s.key == base.key
    && MajoritiesFrom(base, s) && SignedFrom(base, s) && DecidedFrom(base, s)
    && HaltFrom(c, base, s) && VotesFrom(base, s)
  }

  lemma FollowsSelf(c: Chain, s: Node)
    ensures Follows(c, s, s)
  {
  }

  // ---- Each step follows the base ----

  // A change to neither tallies, decisions nor signatures.
  predicate Quiet(s: Node, s': Node) {
    && s'.key == s.key && s'.height == s.height && s'.votes == s.votes && s'.lastCommit == s.lastCommit
    && s'.signed == s.signed && s'.decided == s.decided
    && (s'.halt == s.halt || s'.halt !in {InvalidPolkaPanic, InvalidCommitPanic, FetchHeaderPanic, NilLastCommitPanic})
  }

  lemma QuietFollows(c: Chain, base: Node, s: Node, s': Node)
    requires Follows(c, base, s) && Quiet(s, s')
    ensures Follows(c, base, s')
  {
  }

  lemma SignFollows(c: Chain, e: Env, base: Node, s: Node, kind: VoteType, b: BlockID)
    requires Follows(c, base, s)
    ensures Follows(c, base, SignAddVote(c, e, s, kind, b))
  {
    hide RecordedIn;
    var s' := SignAddVote(c, e, s, kind, b);
    forall i | |base.signed| <= i < |s'.signed| ensures PolkasFrom(base, s'.signed[i]) {
      if i == |s.signed| {
        forall q | q in s'.signed[i].polkas
          ensures s.height == base.height && base.votes.Polka(q) == Some(s'.signed[i].polkas[q])
        {
          assert s.votes.Polka(q).Some?;
        }
      }
    }
  }

  lemma EnterPrevoteFollows(c: Chain, e: Env, base: Node, s: Node, height: int, round: int)
    requires Follows(c, base, s)
    ensures Follows(c, base, EnterPrevote(c, e, s, height, round))
  {
    hide Follows;
    var s' := EnterPrevote(c, e, s, height, round);
    if s' != s {
      SignFollows(c, e, base, s, Prevote, PrevoteChoice(c, s));
      QuietFollows(c, base, SignAddVote(c, e, s, Prevote, PrevoteChoice(c, s)), s');
    }
  }

  lemma EnterProposeFollows(c: Chain, e: Env, base: Node, s: Node, height: int, round: int)
    requires Follows(c, base, s)
    ensures Follows(c, base, EnterPropose(c, e, s, height, round))
  {
    hide Follows, EnterPrevote, IsProposalComplete;
    var s1 := Propose(c, e, s, round);
    QuietFollows(c, base, s, s1);
    EnterPrevoteFollows(c, e, base, s1, height, s1.round);
  }

  lemma SetRoundRecords(h: HeightVotes, round: int, w: Vote)
    requires RecordedIn(SetRound(h, round), w)
    ensures RecordedIn(h, w)
  {
    var h' := SetRound(h, round);
    var r :| r in h'.sets && (Recorded(h'.sets[r].prevotes, w) || Recorded(h'.sets[r].precommits, w));
    assert r in h.sets;
  }

  lemma SetRoundVotes(base: Node, s: Node, round: int)
    requires VotesFrom(base, s)
    ensures VotesFrom(base, s.(votes := SetRound(s.votes, round)))
  {
    forall w | RecordedAt(SetRound(s.votes, round), s.lastCommit, w) ensures RecordedAt(s.votes, s.lastCommit, w) {
      if RecordedIn(SetRound(s.votes, round), w) { SetRoundRecords(s.votes, round, w); }
    }
  }

  lemma SetRoundFollows(c: Chain, base: Node, s: Node, round: int)
    requires Follows(c, base, s)
    ensures Follows(c, base, s.(votes := SetRound(s.votes, round)))
  {
    hide VotesFrom;
    SetRoundVotes(base, s, round);
    SetRoundKeeps(s.votes, round);
  }

  lemma StartRoundFollows(c: Chain, base: Node, s: Node, round: int)
    requires Follows(c, base, s)
    ensures Follows(c, base, StartRound(s, round))
  {
    hide Follows, SetRound;
    var s1 := s.(round := round, step := NEW_ROUND);
    var s2 := if round == 0 then s1 else s1.(proposal := None, proposalBlock := None, proposalParts := None);
    QuietFollows(c, base, s, s2);
    QuietFollows(c, base, s2, s2.(halt := SetRoundPanic));
    SetRoundFollows(c, base, s2, round + 1);
  }

  lemma EnterNewRoundFollows(c: Chain, e: Env, base: Node, s: Node, height: int, round: int)
    requires Follows(c, base, s)
    ensures Follows(c, base, EnterNewRound(c, e, s, height, round))
  {
    hide Follows, StartRound, EnterPropose;
    var s1 := StartRound(s, round);
    StartRoundFollows(c, base, s, round);
    QuietFollows(c, base, s1, Schedule(s1, round, NEW_ROUND));
    EnterProposeFollows(c, e, base, s1, height, round);
  }

  lemma PrecommittedFollows(c: Chain, e: Env, base: Node, s: Node, round: int)
    requires Follows(c, base, s)
    ensures Follows(c, base, Precommitted(c, e, s, round))
  {
    hide Follows, SignAddVote;
    match s.votes.Polka(round)
    case None => SignFollows(c, e, base, s, Precommit, NilBlock);
    case Some(b) =>
      if POLInfo(s.votes, s.votes.round).0 < round { QuietFollows(c, base, s, s.(halt := POLRoundPanic)); }
      else if b.NoHash? {
        QuietFollows(c, base, s, Unlocked(s));
        SignFollows(c, e, base, Unlocked(s), Precommit, NilBlock);
      } else if HashesTo(s.lockedBlock, b) {
        QuietFollows(c, base, s, s.(lockedRound := round));
        SignFollows(c, e, base, s.(lockedRound := round), Precommit, b);
      } else if HashesTo(s.proposalBlock, b) {
        if c.valid(s.height, b.id) {
          var s1 := Locked(s, round);
          QuietFollows(c, base, s, s1);
          SignFollows(c, e, base, s1, Precommit, b);
        } else {
          InvalidPolkaFollows(c, base, s, round);
        }
      } else {
        QuietFollows(c, base, s, Unlocked(s));
        FetchFollows(c, base, Unlocked(s), round, b);
        SignFollows(c, e, base, FetchParts(Unlocked(s), b.parts), Precommit, NilBlock);
      }
  }

  lemma FetchFollows(c: Chain, base: Node, s: Node, r: int, b: BlockID)
    requires Follows(c, base, s) && Majority(s.votes, r, b)
    ensures Follows(c, base, FetchParts(s, b.parts))
  {
    assert Majority(base.votes, r, b);
  }

  lemma InvalidPolkaFollows(c: Chain, base: Node, s: Node, round: int)
    requires Follows(c, base, s)
    requires s.votes.Polka(round).Some? && s.votes.Polka(round).value.Block?
    requires !c.valid(s.height, s.votes.Polka(round).value.id)
    ensures Follows(c, base, s.(halt := InvalidPolkaPanic))
  {
  }

  lemma EnterPrecommitFollows(c: Chain, e: Env, base: Node, s: Node, height: int, round: int)
    requires Follows(c, base, s)
    ensures Follows(c, base, EnterPrecommit(c, e, s, height, round))
  {
    hide Follows;
    var s' := EnterPrecommit(c, e, s, height, round);
    if s' != s {
      PrecommittedFollows(c, e, base, s, round);
      QuietFollows(c, base, Precommitted(c, e, s, round), s');
    }
  }

  lemma NewHeightRecords(chain: ChainID, height: int, vals: seq<Validator>, w: Vote)
    ensures !RecordedIn(NewHeightVotes(chain, height, vals), w)
  {
  }

  lemma UpdateToStateVotes(c: Chain, base: Node, s: Node)
    requires VotesFrom(base, s)
    ensures VotesFrom(base, UpdateToState(c, s))
  {
    var s' := UpdateToState(c, s);
    if s'.height != s.height {
      forall w | RecordedAt(s'.votes, s'.lastCommit, w) ensures RecordedAt(s.votes, s.lastCommit, w) {
        NewHeightRecords(c.id, s'.height, c.vals(s'.height), w);
        assert RecordedIn(s.votes, w);
      }
    }
  }

  lemma UpdateToStateFollows(c: Chain, base: Node, s: Node)
    requires Follows(c, base, s)
    ensures Follows(c, base, UpdateToState(c, s))
  {
    hide VotesFrom;
    UpdateToStateVotes(c, base, s);
  }

  // Recording the decision of the tallies, or complaining that its block is invalid.
  lemma DecisionFollows(c: Chain, base: Node, s: Node, d: Decided)
    requires Follows(c, base, s) && Chose(s.votes, d)
    ensures Follows(c, base, s.(decided := s.decided[s.height := d]))
    ensures !c.valid(s.height, d.block) ==> Follows(c, base, s.(halt := InvalidCommitPanic))
  {
  }

  lemma FinalizeCommitFollows(c: Chain, e: Env, base: Node, s: Node, height: int)
    requires Follows(c, base, s)
    ensures Follows(c, base, FinalizeCommit(c, e, s, height))
  {
    hide Follows, UpdateToState;
    QuietFollows(c, base, s, s.(halt := FinalizeMajorityPanic));
    QuietFollows(c, base, s, s.(halt := PartsPanic));
    QuietFollows(c, base, s, s.(halt := SaveBlockPanic));
    if s.height == height && s.votes.Decision(s.commitRound).Some? && s.votes.Decision(s.commitRound).value.Block? {
      var b := s.votes.Decision(s.commitRound).value;
      var d := Decided(b.id, b.parts, s.commitRound);
      DecisionFollows(c, base, s, d);
      var s1 := s.(decided := s.decided[height := d]);
      QuietFollows(c, base, s1, s1.(halt := ApplyFailed));
      UpdateToStateFollows(c, base, s1);
    }
  }

  lemma TryFinalizeCommitFollows(c: Chain, e: Env, base: Node, s: Node, height: int)
    requires Follows(c, base, s)
    ensures Follows(c, base, TryFinalizeCommit(c, e, s, height))
  {
    hide Follows;
    FinalizeCommitFollows(c, e, base, s, height);
    QuietFollows(c, base, s, s.(halt := FinalizeHeightPanic));
  }

  lemma CommittingFollows(c: Chain, base: Node, s: Node, commitRound: int, b: BlockID)
    requires Follows(c, base, s) && s.votes.Decision(commitRound) == Some(b)
    ensures Follows(c, base, Committing(s, commitRound, b))
  {
    hide Follows;
    var s1 := if HashesTo(s.lockedBlock, b)
              then s.(proposalBlock := s.lockedBlock, proposalParts := s.lockedParts) else s;
    QuietFollows(c, base, s, s1);
    FetchFollows(c, base, s1, commitRound, b);
    var s2 := if HashesTo(s1.proposalBlock, b) then s1 else FetchParts(s1, b.parts);
    QuietFollows(c, base, s2, Committing(s, commitRound, b));
  }

  lemma EnterCommitFollows(c: Chain, e: Env, base: Node, s: Node, height: int, commitRound: int)
    requires Follows(c, base, s)
    ensures Follows(c, base, EnterCommit(c, e, s, height, commitRound))
  {
    hide Follows, TryFinalizeCommit;
    match s.votes.Decision(commitRound)
    case None => QuietFollows(c, base, s, s.(halt := CommitPanic));
    case Some(b) =>
      var s1 := Committing(s, commitRound, b);
      CommittingFollows(c, base, s, commitRound, b);
      TryFinalizeCommitFollows(c, e, base, s1, height);
  }

  lemma WaitFollows(c: Chain, base: Node, s: Node, height: int, round: int)
    requires Follows(c, base, s)
    ensures Follows(c, base, EnterPrevoteWait(s, height, round))
    ensures Follows(c, base, EnterPrecommitWait(s, height, round))
  {
    hide Follows;
    QuietFollows(c, base, s, EnterPrevoteWait(s, height, round));
    QuietFollows(c, base, s, EnterPrecommitWait(s, height, round));
  }

  lemma OnPrevoteFollows(c: Chain, e: Env, base: Node, s: Node, r: int)
    requires Follows(c, base, s)
    ensures Follows(c, base, OnPrevote(c, e, s, r))
  {
    hide Follows, EnterNewRound, EnterPrevote, EnterPrecommit, EnterPrevoteWait;
    var s1 := Validating(Unlocking(s, r), r);
    QuietFollows(c, base, s, s1);
    EnterPrevoteFollows(c, e, base, s1, s1.height, s1.round);
    var s2 := EnterNewRound(c, e, s1, s1.height, r);
    EnterNewRoundFollows(c, e, base, s1, s1.height, r);
    EnterPrecommitFollows(c, e, base, s2, s1.height, r);
    EnterPrevoteFollows(c, e, base, s2, s1.height, r);
    WaitFollows(c, base, EnterPrevote(c, e, s2, s1.height, r), s1.height, r);
  }

  lemma OnPrecommitFollows(c: Chain, e: Env, base: Node, s: Node, r: int)
    requires Follows(c, base, s)
    ensures Follows(c, base, OnPrecommit(c, e, s, r))
  {
    hide Follows, EnterNewRound, EnterPrecommit, EnterCommit, EnterPrecommitWait;
    EnterNewRoundFollows(c, e, base, s, s.height, r + 1);
    var s1 := EnterNewRound(c, e, s, s.height, r);
    EnterNewRoundFollows(c, e, base, s, s.height, r);
    var s2 := EnterPrecommit(c, e, s1, s.height, r);
    EnterPrecommitFollows(c, e, base, s1, s.height, r);
    var s3 := EnterCommit(c, e, s2, s.height, r);
    EnterCommitFollows(c, e, base, s2, s.height, r);
    EnterNewRoundFollows(c, e, base, s3, s3.height, 0);
    WaitFollows(c, base, s2, s.height, r);
  }

  // The node right after it took an input into its tallies, or failed to.
  function Received(s: Node, ev: Event): Node
    requires ShapeAll(s.votes) && (s.lastCommit.Some? ==> Shape(s.lastCommit.value))
  {
    if s.halt != Running then s
    else
      match ev
      case VoteMsg(v, peer) =>
        if v.height + 1 == s.height then
          if !(s.step == NEW_HEIGHT && v.kind == Precommit) then s
          else if s.lastCommit.None? then s.(halt := NilLastCommitPanic)
          else s.(lastCommit := Some(AddVote(s.lastCommit.value, v).tally))
        else if v.height == s.height then s.(votes := AddVoteTo(s.votes, v, peer).votes)
        else s
      case PeerMaj23Msg(height, round, kind, peer, b) =>
        if height == s.height then s.(votes := SetPeerMaj23In(s.votes, round, kind, peer, b)) else s
      case _ => s
  }

  lemma HandleVoteFollows(c: Chain, e: Env, s: Node, v: Vote, peer: Peer)
    requires ShapeAll(s.votes) && (s.lastCommit.Some? ==> Shape(s.lastCommit.value)) && s.halt == Running
    ensures Follows(c, Received(s, VoteMsg(v, peer)), HandleVote(c, e, s, v, peer))
  {
    hide Follows, EnterNewRound, OnPrevote, OnPrecommit, AddVoteTo, AddVote;
    var base := Received(s, VoteMsg(v, peer));
    FollowsSelf(c, base);
    EnterNewRoundFollows(c, e, base, base, base.height, 0);
    OnPrevoteFollows(c, e, base, base, v.round);
    OnPrecommitFollows(c, e, base, base, v.round);
  }

  lemma HandlePartFollows(c: Chain, e: Env, s: Node, height: int, header: PartsHeader, outcome: PartOutcome)
    ensures Follows(c, s, HandlePart(c, e, s, height, header, outcome))
  {
    hide Follows, EnterPrevote, TryFinalizeCommit;
    FollowsSelf(c, s);
    QuietFollows(c, s, s, s.(halt := PartIndexPanic));
    var s1 := s.(proposalParts := Some(Parts(header, true)));
    QuietFollows(c, s, s, s1);
    if outcome.Completes? {
      var s2 := Assembled(s1, outcome.block);
      QuietFollows(c, s, s, s2);
      EnterPrevoteFollows(c, e, s, s2, height, s2.round);
      TryFinalizeCommitFollows(c, e, s, s2, height);
    }
  }

  lemma HandleTimeoutFollows(c: Chain, e: Env, s: Node, ti: Timeout)
    ensures Follows(c, s, HandleTimeout(c, e, s, ti))
  {
    hide Follows, EnterNewRound, EnterPropose, EnterPrevote, EnterPrecommit;
    FollowsSelf(c, s);
    EnterNewRoundFollows(c, e, s, s, ti.height, 0);
    EnterNewRoundFollows(c, e, s, s, ti.height, ti.round + 1);
    EnterProposeFollows(c, e, s, s, ti.height, 0);
    EnterPrevoteFollows(c, e, s, s, ti.height, ti.round);
    EnterPrecommitFollows(c, e, s, s, ti.height, ti.round);
  }

  // Whatever a node does with an input rests on its tallies with that input taken in.
  lemma HandleFollows(c: Chain, e: Env, s: Node, ev: Event)
    requires ShapeAll(s.votes) && (s.lastCommit.Some? ==> Shape(s.lastCommit.value))
    ensures Follows(c, Received(s, ev), Handle(c, e, s, ev))
  {
    hide Follows, EnterPropose, HandlePart, HandleVote, HandleTimeout;
    FollowsSelf(c, s);
    if s.halt == Running {
      match ev
      case ProposalMsg(p) => QuietFollows(c, s, s, HandleProposal(s, p));
      case PartMsg(height, header, outcome) => HandlePartFollows(c, e, s, height, header, outcome);
      case VoteMsg(v, peer) => HandleVoteFollows(c, e, s, v, peer);
      case TimeoutMsg(ti) => HandleTimeoutFollows(c, e, s, ti);
      case TxsAvailable(height) => EnterProposeFollows(c, e, s, s, height, 0);
      case PeerMaj23Msg(_, _, _, _, _) => FollowsSelf(c, Received(s, ev));
    }
  }
}
