# A verified model of the consensus engine

This project models, in Dafny, the Byzantine fault tolerant consensus engine of
the repository and the data structures under it, and proves what they promise:
that correct nodes never decide different blocks, and that each layer below
keeps the invariants the layer above relies on.

Nothing here executes the original program.  The model follows the code, branch by
branch; where a comment in the code says something else, the code is what is modelled.

## How the model is laid out

Most of the code updates objects in place, so most of the model is classes whose
methods follow the Go methods.  Beside each class stands a specification on
values, and every method is proved to do what the specification says; the
theorems are about the specification, for all inputs and all runs.

| layer | specification and theorems | objects |
|---|---|---|
| int64 arithmetic, voting power | `Arith`, `Power` | |
| vote accounting | `VoteSets`, `HeightVoteSets`, `QuorumRange` | `VoteSetObject`, `HeightVoteSetObject` |
| one node | `Consensus`, `NodeInvariants`, `NodeTheorems`, `NodeProgress`, `NodePanics` | `ConsensusState` |
| many nodes | `Provenance`, `Agreement`, `HeaderAgreement`, `HeaderSplit` (with `Four`, `FourNode`) | |
| signer | `Signer` | `Signer.FilePV` |
| crash recovery | `Recovery` | `RecoveryObject` |
| validators | `Rotation`, `ValidatorSets`, `History` | `ValidatorSets.ValidatorSet`, `History.StateStore` |
| commits, light client | `Commits`, `CommitsAny`, `Lite` | `Lite.MemStore`, `Lite.InquiringCertifier` |
| block parts, mempool | `PartSets`, `Mempools`, `TxCaches` | `PartSetObject`, `MempoolObject` |
| inputs on which the code fails | `Counterexamples` | |

The main theorems, hardest first:

- `Agreement.AgreementTheorem`: over every run of any number of nodes, with the network
  delaying, dropping, repeating and reordering, and faulty validators holding less
  than a third of the power signing anything, no two nodes decide different blocks
  at a height, nor in one round under different part-set headers, none of the eight
  consistency panics listed below fires, and no majority forms behind an invalid
  block or an impossible header.
- `HeaderSplit.OneHeaderIff`: correct nodes agree on the part-set header too, in every run on every
  chain, if and only if each block is cut into parts in one way only.  `HeaderAgreement.HeadersAgree` is
  the one half; for the other, `HeaderSplit.HeadersSplit` builds a run of three correct nodes and a faulty
  validator in which two nodes decide in different rounds, each under the header given.
- `NodeTheorems.LockDiscipline` and `NodeInvariants.HandleInv`: the same for one node whose
  peers are arbitrary: lock discipline, one vote for each height, round and kind,
  progress of (height, round, step), and the same eight panics unreachable.
- `NodePanics.PeerPanicsIff` and `NodePanics.NilLastCommitIff`: the messages on which
  the five panics that are left do fire, exactly, in every reachable state.
- `Recovery.RecoveryIsExactlyOnce`: in every life of a node, crashing anywhere
  and with the application rolled back at will, the application's log is each block
  once and in order.  `Recovery.RestartIff`: an uninterrupted restart brings the three heights together
  if and only if the number of validators has not changed over the blocks to be run again;
  if it has, by `Recovery.NeverUpAgain` no later restart does either.
  `Recovery.ExecutedOnceIff`: the blocks executed are those committed, in order, if and only if nothing
  stopped between executing a block and committing it.
- `Commits.CommitRoundTrip`, `Rotation.RunLedgerIff` with `Rotation.BoundedFairness`, `Signer.NoDoubleSigning`,
  `Mempools.RecheckIsFilter`, `TxCaches.RememberedIff`, `PartSets.GatherRoundTrip` and the
  contracts of `Lite` and `History`.

### Conventions

- A signature is the key that made it and the message it covers, and sign bytes are
  the structured value they encode: signing is unforgeable and encodings are injective.
  A `BlockID` is a block hash and a part-set header, independent of each other, as in the code: one block may
  be cut into parts in several ways.  `NilBlock` is the zero `BlockID`.
  A Merkle root, a validators hash and an app hash are what they commit to.
- Timestamps count the milliseconds that sign bytes keep.
- A Go panic is the value `halt` of a node, an error value with `Panic` in its name, or,
  where it is proved unreachable, an `assert false` in the branch that would panic.
- The consistency panics proved unreachable are eight: those of SetRound, enterPrevoteWait,
  enterPrecommit (POLInfo below the round), enterPrecommitWait, enterCommit, tryFinalizeCommit (height),
  finalizeCommit (majority) and updateToState.  Five more panics can be reached by messages from peers:
  addVote's nil LastCommit, finalizeCommit's check of the part-set header, SaveBlock's check that the parts are
  complete, a proposal whose header has a negative total, and a part with a negative index.  A majority for a
  header with a negative total panics too; less than a third of the power cannot bring it about.
- Clocks, the mempool's content, the application's answers and the signer's
  availability are the parameter `Env` of the consensus steps.
- The validators of a height are the same for every node.

### Voting power near the top of int64

The threshold is computed as `total * 2 / 3` on int64.  `Arith.TwoThirdsExact` proves that this is the
mathematical threshold exactly while the total is at most half of the largest int64; above that it is zero
or negative.  The vote-accounting and consensus layers therefore assume `ExactPowers`: powers are
not negative and their sum is in that range.  What happens outside it is stated too:
`QuorumRange.NoMajorityAboveHalf` proves that just above the range no votes ever make a majority, and
`QuorumRange.FirstVoteWins` that from MaxInt64 on the first vote of positive power is one.  `VerifyCommit` and
`VerifyCommitAny` are modelled with wrap-around and without that assumption.

### Where the code falls short

- `NodePanics.FreshNodePanics`: one precommit for height 0, signed by nobody, panics any node of a new chain.
- `Counterexamples.LateProposalPanics`: a node that has fetched the block of a polka and then gets the
  proposal of the round panics when the block is decided, even if it is the proposal of that very block.
- `Counterexamples.RecutBlockPanics`: so does a node that has locked the block as another proposal cut it.
- `Recovery.SizeChangeStops`: an application that lost the block at which the number of validators
  changed keeps its node from ever starting again.
- `Recovery.ExecutedTwice`: a block whose execution was cut short is executed twice.
- `Commits.MisplacedCommit`: a precommit's validator index is under no signature and VerifyCommit does not
  look at it, so every accepted commit has accepted variants from which LastCommit is not rebuilt.
- `Counterexamples.UnnamedValidators`: the light client's update installs validators that the header's hash
  does not name.  The hash is compared only when a header is certified, and there always
  (`Lite.InquiringCertifier.CertifyCert`).
- `Counterexamples.StubbornSource`: against a source that keeps answering one consistent commit out of reach,
  the bisection of `Lite.InquiringCertifier.UpdateToHeight` asks the same question for ever.
- `HeaderSplit.HeadersSplit`: nodes that decide a block in different rounds can store it under different part-set headers.
- `Rotation.ClippingIsUnfair`: a rotation that clips gives a validator turns it has not earned.
- `TxCaches.StaleEntryForgets`: a transaction removed from the mempool's cache and pushed again leaves a stale
  entry, and is then forgotten before its time.

## Model

| member | source | states |
|---|---|---|
| `Arith.QuotientTest` | types/validator_set.go:455-470 | the wrap-around test `c/b != a` of safeMul is exact: it fails precisely when the product leaves the int64 range |
| `Arith.SafeMulClipIsClamp` | types/validator_set.go:490-499 | safeMulClip is the mathematical product clamped to int64, for all inputs |
| `Arith.SafeAddClipIsClamp` | types/validator_set.go:501-510 | safeAddClip is the clamped sum |
| `Arith.SafeSubClipIsClamp` | types/validator_set.go:512-521 | safeSubClip is the clamped difference |
| `Arith.TwoThirdsExact` | types/vote_set.go:263-263 | `TotalVotingPower()*2/3` is two thirds of the total if and only if the total is at most half of MaxInt64, and is not positive above that |
| `Power.TotalIsClampedSum` | types/validator_set.go:125-133 | the clipped running total is the clamped sum of the powers |
| `Power.QuorumsOverlap` | types/vote_set.go:263-263 | two sets above the threshold share more than a third of the power |
| `Power.CorrectInBoth` | types/vote_set.go:263-263 | with under a third faulty, two such sets share a correct validator |
| `VoteSets.NewTallyInv` | types/vote_set.go:71-88 | a new vote set satisfies the representation invariant |
| `VoteSets.AddVoteInv` | types/vote_set.go:142-202 | adding any vote, double-signed ones included, keeps the invariant, and neither internal panic is reached |
| `VoteSets.AddVerifiedInv` | types/vote_set.go:217-284 | sums are the power of the votes held, bits match, the majority is the first block to reach the quorum and its votes are canonical |
| `VoteSets.SetPeerMaj23Inv` | types/vote_set.go:291-324 | a peer's claim keeps the invariant |
| `VoteSets.AddedIff` | types/vote_set.go:142-284 | a vote is added exactly when it is new, properly signed, and its validator's first or for a block some peer claims |
| `VoteSets.AddVoteEffect` | types/vote_set.go:217-284 | what adding a vote does to the votes recorded for every block |
| `VoteSets.AddVoteRecords` | types/vote_set.go:217-284 | after an addition every recorded vote was recorded before or is the one added |
| `VoteSets.SetPeerMaj23Records` | types/vote_set.go:291-324 | a claim records no vote |
| `VoteSets.MajorityIsWriteOnce` | types/vote_set.go:268-281 | once set, the majority never changes, whatever is added or claimed |
| `VoteSets.MajorityIsBacked` | types/vote_set.go:371-419 | a majority has valid votes for its block from over two thirds of the power, hence HasTwoThirdsAny |
| `VoteSets.RunInv` | types/vote_set.go:142-324 | the invariant over every sequence of AddVote and SetPeerMaj23 |
| `QuorumRange.NoMajorityAboveHalf` | types/vote_set.go:217-284 | with a total above half of MaxInt64 and short of MaxInt64, no sequence of votes and claims ever gives a majority |
| `QuorumRange.FirstVoteWins` | types/vote_set.go:217-284 | from a total of MaxInt64 on, the first vote of positive power that is added is a majority for its block, in any vote set |
| `QuorumRange.ThresholdAboveHalf` | types/vote_set.go:263-263 | above half of MaxInt64 the threshold is negative, and from MaxInt64 on it is zero |
| `VoteSetObject.VoteSet.constructor` | types/vote_set.go:71-88 | NewVoteSet makes the empty tally |
| `VoteSetObject.VoteSet.GetVote` | types/vote_set.go:205-213 | the canonical vote if it is for the block, else the block's own |
| `VoteSetObject.VoteSet.AddVote` | types/vote_set.go:142-202 | tally, result and error are those of the specification; the panic on a vote that is not added is unreachable |
| `VoteSetObject.VoteSet.AddVerifiedVote` | types/vote_set.go:217-284 | the in-place update is the specified one; the panic on duplicates is unreachable |
| `VoteSetObject.VoteSet.CopyOver` | types/vote_set.go:274-279 | the loop copies the majority's votes over the canonical ones |
| `VoteSetObject.VoteSet.SetPeerMaj23` | types/vote_set.go:291-324 | the in-place update is the specified one |
| `VoteSetObject.VoteSet.HasTwoThirdsAny` | types/vote_set.go:392-399 | a majority for one block implies a majority of votes |
| `HeightVoteSets.SetRoundInv` | consensus/types/height_vote_set.go:83-96 | moving the round on keeps every tally and majority, and rounds 0 to the new one exist |
| `HeightVoteSets.AddVoteToInv` | consensus/types/height_vote_set.go:113-133 | any vote from any peer keeps the invariant (two catch-up rounds a peer) and every majority; an added vote is of this height |
| `HeightVoteSets.SetPeerMaj23InInv` | consensus/types/height_vote_set.go:182-193 | a peer's claim keeps the invariant and every majority |
| `HeightVoteSets.POLInfoIsHighest` | consensus/types/height_vote_set.go:149-160 | POLInfo finds the highest round with a polka, or -1 when there is none |
| `HeightVoteSetObject.HeightVoteSet.constructor` | consensus/types/height_vote_set.go:49-68 | round 0 is there from the start |
| `HeightVoteSetObject.HeightVoteSet.AddRound` | consensus/types/height_vote_set.go:98-109 | adds two empty vote sets of its own for the round |
| `HeightVoteSetObject.HeightVoteSet.SetRound` | consensus/types/height_vote_set.go:83-96 | the loop creates exactly the missing rounds |
| `HeightVoteSetObject.HeightVoteSet.AddVote` | consensus/types/height_vote_set.go:113-133 | tallies, catch-up rounds and result are the specified ones; addRound is never called for an existing round |
| `HeightVoteSetObject.HeightVoteSet.SetPeerMaj23` | consensus/types/height_vote_set.go:182-193 | only the addressed vote set changes; an error exactly for an unknown type and for a second, different claim of the peer, none for a round not there |
| `HeightVoteSetObject.HeightVoteSet.POLInfo` | consensus/types/height_vote_set.go:149-160 | the downward loop computes the specified round and block |
| `NodeInvariants.EnterNewRoundInv` | consensus/state.go:710-763 | keeps the node invariant and moves forward; SetRound does not panic |
| `NodeInvariants.StartRoundInv` | consensus/state.go:731-747 | SetRound is called with a round that moves the tallies on, so its panic is unreachable |
| `NodeInvariants.EnterProposeInv` | consensus/state.go:805-849 | keeps the invariant and moves forward |
| `NodeInvariants.EnterPrevoteInv` | consensus/state.go:965-1024 | past its guard the round argument is the node's own round; the prevote is fit to sign |
| `NodeInvariants.EnterPrevoteWaitInv` | consensus/state.go:1027-1047 | with +2/3 prevotes of any kind its panic is unreachable |
| `NodeInvariants.NoPOLRoundPanic` | consensus/state.go:1088-1092 | POLInfo is never below the round being precommitted |
| `NodeInvariants.EnterPrecommitInv` | consensus/state.go:1055-1148 | past its guard the round argument is the node's own round; lock, signature and step stay consistent |
| `NodeInvariants.EnterPrecommitWaitInv` | consensus/state.go:1151-1172 | with +2/3 precommits of any kind its panic is unreachable |
| `NodeInvariants.EnterCommitInv` | consensus/state.go:1175-1222 | with a decision on record its panics are unreachable |
| `NodeInvariants.TryFinalizeCommitInv` | consensus/state.go:1225-1246 | the height check cannot fail and the invariant is kept |
| `NodeInvariants.FinalizeCommitInv` | consensus/state.go:1249-1343 | the +2/3 check cannot fail; the decision is recorded once |
| `NodeInvariants.UpdateToStateInv` | consensus/state.go:471-540 | the next height starts clean, with the deciding precommits as LastCommit |
| `NodeInvariants.UnlockingInv` | consensus/state.go:1557-1575 | a lock is dropped only for a polka for something else at a later round |
| `NodeInvariants.HandleVoteInv` | consensus/state.go:1503-1639 | any vote keeps the invariant |
| `NodeInvariants.HandlePartInv` | consensus/state.go:1414-1473 | any block part keeps the invariant |
| `NodeInvariants.HandleTimeoutInv` | consensus/state.go:656-691 | any scheduled timeout keeps the invariant |
| `NodeInvariants.HandleInv` | consensus/state.go:561-698 | every input from any sender keeps the invariant: none of the eight consistency panics, locks kept or released for cause, (height, round, step) never decreases |
| `NodeInvariants.InitInv` | consensus/state.go:130-166 | a starting node satisfies the invariant |
| `NodeTheorems.RunNodeInv` | consensus/state.go:561-609 | the same over every sequence of inputs |
| `NodeTheorems.LockDiscipline` | consensus/state.go:994-1148 | in every reachable state a lock has its polka, a precommitted block had one at its round, prevotes respect earlier precommits, and votes are unique and in order |
| `NodeTheorems.PrecommitLocks` | consensus/state.go:1055-1148 | a precommit is for the polka's block and leaves the node locked on it at that round; a polka for another block unlocks; without one the precommit is nil |
| `NodeTheorems.PrevoteFollowsLock` | consensus/state.go:994-1024 | step fact: a locked node prevotes the locked block; otherwise the proposal block exactly when it is valid, else nil; each under the header of the parts it has |
| `NodeTheorems.ProposalFollowsLock` | consensus/state.go:855-891 | a proposer offers its locked block, else its valid block, else a new one, with the highest polka on record as proof of lock |
| `NodeTheorems.ProposalIsCurrent` | consensus/state.go:1377-1410 | in every reachable state a proposal held is for the node's own height and round, with an earlier proof-of-lock round or none |
| `NodePanics.NilLastCommitIff` | consensus/state.go:1506-1514 | addVote dereferences a nil LastCommit exactly on a precommit for the previous height while waiting at NewHeight without one |
| `NodePanics.FreshNodePanics` | consensus/state.go:1503-1514 | any precommit for height 0 does that to any node of a new chain |
| `NodePanics.PeerPanicsIff` | consensus/state.go:1175-1443 | on any input at any reachable node: finalizeCommit's header check fails exactly on a counted precommit that completes a majority which the node reaches holding that block, as lock or proposal after its own precommit, under another header; SaveBlock's completeness check exactly if under this header with parts missing; the part set of a proposal cannot be made exactly if its total is negative and the proposal is taken; a part panics exactly if its index is negative and parts are awaited |
| `NodePanics.EnterPrecommitHolds` | consensus/state.go:1055-1148 | what a node holds after its precommit: as lock and as proposal, each with its parts, for every polka |
| `NodePanics.EnterCommitFails` | consensus/state.go:1175-1275 | enterCommit on a decision fails either check exactly on what the node holds of that block |
| `NodePanics.WrongHeaderIsHeld` | consensus/state.go:1107-1123 | a node that fails the header check has that block, locked or proposed, under another header |
| `NodePanics.MissingPartsAreLate` | consensus/state.go:1377-1410 | a node that fails the completeness check is unlocked and past its precommit, with the parts of a proposal that came after the block |
| `Counterexamples.LateProposalPanics` | consensus/state.go:1406-1407 | a run of a node from its start, with well-signed votes, the decided block and then a proposal: for the same header SaveBlock panics, for any other finalizeCommit |
| `Counterexamples.RecutBlockPanics` | consensus/state.go:1107-1123 | a run in which the node locks the block of the polka under the header of its own proposal, and panics on the decision |
| `NodeProgress.RunArmed` | consensus/state.go:421-430 | in every reachable state a node that waits has scheduled the timeout of its own height, round and step |
| `NodeProgress.TimeoutMovesOn` | consensus/state.go:656-691 | when that timeout fires the node leaves the step |
| `NodeProgress.RunFetching` | consensus/state.go:1204-1222 | in every reachable state a node at Commit is collecting parts under the header decided, and does not have the block |
| `NodeProgress.EnterCommitDecides` | consensus/state.go:1175-1343 | step fact: with the decided block at hand, under the header decided and complete, enterCommit finalizes it and keeps its precommits as LastCommit |
| `NodeProgress.EnterCommitFetches` | consensus/state.go:1175-1222 | step fact: without the block it waits at Commit for the parts under the header decided |
| `NodeProgress.LastPartDecides` | consensus/state.go:1414-1473 | step fact: the last part of the decided block finalizes it |
| `ConsensusState.State.constructor` | consensus/state.go:130-166 | the state a node starts in |
| `ConsensusState.State.SignAddVote` | consensus/state.go:1641-1673 | signs for the node's own height and round if it is a validator |
| `ConsensusState.State.DoPrevote` | consensus/state.go:994-1024 | the four branches make the specified prevote |
| `ConsensusState.State.EnterPrevote` | consensus/state.go:965-992 | guard, prevote and deferred step update as specified |
| `ConsensusState.State.DecideProposal` | consensus/state.go:855-891 | locked block, else valid block, else a new one, with the proof-of-lock round |
| `ConsensusState.State.EnterPropose` | consensus/state.go:805-849 | timeout, proposal and deferred prevote as specified |
| `ConsensusState.State.StartRound` | consensus/state.go:731-747 | moves the round and the vote sets on, clearing the proposal except in round 0 |
| `ConsensusState.State.EnterNewRound` | consensus/state.go:710-763 | the in-place update is the specified one |
| `ConsensusState.State.EnterPrevoteWait` | consensus/state.go:1027-1047 | the in-place update is the specified one |
| `ConsensusState.State.DoPrecommit` | consensus/state.go:1070-1147 | polka none, nil, locked, proposed or unknown: the specified lock and precommit |
| `ConsensusState.State.EnterPrecommit` | consensus/state.go:1055-1148 | with its deferred step update |
| `ConsensusState.State.EnterPrecommitWait` | consensus/state.go:1151-1172 | the in-place update is the specified one |
| `ConsensusState.State.EnterCommit` | consensus/state.go:1175-1222 | points the proposal at the lock or at the header decided, then tries to finalize |
| `ConsensusState.State.TryFinalizeCommit` | consensus/state.go:1225-1246 | finalizes only a non-nil decided block that is at hand |
| `ConsensusState.State.FinalizeCommit` | consensus/state.go:1249-1343 | the checks of header, hash, validity and completeness, decision and move to the next height as specified |
| `ConsensusState.State.UpdateToState` | consensus/state.go:471-540 | fresh vote sets, the deciding precommits as LastCommit, and the round-0 timeout |
| `ConsensusState.State.HandleProposal` | consensus/state.go:1377-1410 | the proposal taken is the specified one |
| `ConsensusState.State.HandlePart` | consensus/state.go:1414-1473 | valid block, prevote or commit on the last part, as specified |
| `ConsensusState.State.OnPrevote` | consensus/state.go:1552-1607 | unlock, valid block, then round skip, precommit, prevote or wait |
| `ConsensusState.State.OnPrecommit` | consensus/state.go:1609-1633 | commit, next round, or round skip and wait |
| `ConsensusState.State.HandleVote` | consensus/state.go:1503-1639 | votes of this height and late precommits of the one before |
| `ConsensusState.State.HandleTimeout` | consensus/state.go:656-691 | dispatch on the step of a timeout that is not stale |
| `ConsensusState.State.Handle` | consensus/state.go:561-698 | one turn of the receive routine keeps the node invariant, fires none of the eight consistency panics, and moves nothing back |
| `Provenance.HandleFollows` | consensus/state.go:561-698 | whatever a node signs, decides or complains about rests on majorities of its tallies with the input taken in |
| `Agreement.NoOpposingPolka` | consensus/state.go:994-1222 | once a block has a quorum of precommits, no later round has a quorum of prevotes for anything else |
| `Agreement.QuorumsAgree` | consensus/state.go:1175-1222 | two quorums of precommits at a height, in whatever rounds, are for one block; in one round also for one header |
| `Agreement.QuorumHeader` | consensus/state.go:994-1024 | a quorum of prevotes or precommits is for a header that a part set can have |
| `Agreement.MajorityIsQuorum` | types/vote_set.go:409-419 | a majority recorded by a node is a quorum of votes really signed |
| `Agreement.DeliverInv` | consensus/state.go:612-654 | every possible delivery to any node keeps the network invariant |
| `Agreement.RunNetInv` | consensus/state.go:561-609 | the network invariant over every run |
| `Agreement.AgreementTheorem` | consensus/state.go:994-1222 | agreement, absence of the eight consistency panics and of those on a majority for an invalid block or impossible header, and validity of decided blocks, for every run |
| `HeaderAgreement.HandleCut` | consensus/state.go:561-698 | if parts make up a block under one header only, a node locks and prevotes a block only under that header, whatever else it is sent |
| `HeaderAgreement.HeadersAgree` | consensus/state.go:994-1222 | then every decision of every node in every run is under that header, whatever the rounds |
| `HeaderSplit.HeadersSplit` | consensus/state.go:710-1343 | for any block and any two headers, a run of four equal validators, one faulty, meeting the assumptions of the agreement theorem, in which one node decides the block in round 0 under the one header and another in round 1 under the other |
| `HeaderSplit.OneHeaderIff` | consensus/state.go:994-1222 | agreement on the header holds in all runs over a set of ways to make up blocks if and only if the set cuts each block in one way |
| `FourNode.ThreePrevotes` | consensus/state.go:1552-1607 | three of four prevotes for a block held under another header: the node locks it as held and precommits it as voted |
| `FourNode.GoesOn` | consensus/state.go:1609-1633 | three of four precommits that disagree: the node waits, times out, and prevotes in the next round by its lock or the new proposal |
| `Signer.SignInv` | privval/priv_validator.go:198-283 | one request, crashing anywhere or not at all, keeps file and memory in step and ahead of all released signatures |
| `Signer.ReleasedCoversRequest` | privval/priv_validator.go:209-231 | a released signature covers the request with the returned time, which is the caller's unless the message was signed before |
| `Signer.ReleasesIff` | privval/priv_validator.go:168-232 | a request is answered exactly when it is ahead of the file or repeats its message up to the time |
| `Signer.RunInv` | privval/priv_validator.go:147-283 | the invariant over every interleaving of requests, crashes and reloads |
| `Signer.NoDoubleSigning` | privval/priv_validator.go:147-283 | from a new file, all signatures released for one height, round and step are over the same bytes and the file is behind none |
| `Signer.FilePV.constructor` | privval/priv_validator.go:69-109 | a new file |
| `Signer.FilePV.CheckHRS` | privval/priv_validator.go:168-193 | regressions refused, a repeat recognised; the missing-signature branches are unreachable |
| `Signer.FilePV.SignBytes` | privval/priv_validator.go:198-283 | the updates to fields and file are the specified ones; the unmarshal panics are unreachable |
| `Signer.FilePV.SignVote` | privval/priv_validator.go:147-232 | the vote that comes back verifies under the signer's key |
| `Signer.FilePV.SignProposal` | privval/priv_validator.go:158-271 | the signature covers the proposal that comes back |
| `Signer.FilePV.SaveSigned` | privval/priv_validator.go:274-283 | fields and file hold the new record |
| `Signer.FilePV.Load` | privval/priv_validator.go:83-96 | the fields are what the file holds |
| `Recovery.FinalizeCommitSafe` | consensus/state.go:1275-1333 | every crash point keeps the recovery invariant, and the full run brings store, state and app to the next height |
| `Recovery.ReplaySafeIff` | consensus/replay.go:258-419 | from every crash point and app height the handshake finds a plan if and only if every block to be run again has a commit as long as the state's LastValidators, and else ends in the panic on that length; no other panic, no missing responses, no hash mismatch; every prefix of the plan is safe and the end is in step |
| `Recovery.LengthPanicSafe` | state/execution.go:275-287 | at that panic the blocks before are committed, the world is recoverable, and the next handshake meets the same block |
| `Recovery.SafeExecs` | state/execution.go:104-153 | any safe plan executes what it commits, in order, and after that at most the block the app is left with |
| `Recovery.ReplayRunsOnce` | consensus/replay.go:363-419 | an uninterrupted replay with a plan executes and commits the blocks above the app's height up to the store's, each once and in order, and no other |
| `Recovery.FinalizeRunsOnce` | consensus/state.go:1275-1333 | finalizing executes and commits the one new block once |
| `Recovery.ExecutedOnceIff` | state/execution.go:104-153 | in every life, from any recoverable world, there are as many executions beyond the commits as there are stops between the two: the blocks executed are those committed, in order, if and only if there is no such stop |
| `Recovery.ExecutedTwice` | state/execution.go:104-153 | a crash between executing and committing the first block has it executed twice |
| `Recovery.RecoveryIsExactlyOnce` | consensus/replay.go:224-419 | in every life from genesis the app's log is the first blocks in order, the heights agree whenever the node is up, and no saved block or state is lost |
| `Recovery.RestartIff` | consensus/replay.go:258-419 | an uninterrupted restart brings the node up if and only if the number of validators fits the blocks to be run again |
| `Recovery.NeverUpAgain` | consensus/replay.go:363-401 | once it does not fit, no sequence of restarts, whatever the app keeps, brings the node up |
| `Recovery.SizeChangeStops` | state/execution.go:275-287 | a life of two blocks, the second with one more validator, and an app that comes back without the second: the node is down for good |
| `RecoveryObject.Machine.ApplyBlock` | state/execution.go:104-153 | wherever it dies the world is recoverable, nothing saved is lost and the app's log only grows; if it survives the three heights agree at the block's |
| `RecoveryObject.Machine.FinalizeCommit` | consensus/state.go:1275-1333 | the same from heights that agree, to the next height if it survives |
| `RecoveryObject.Machine.ExecBlocks` | consensus/replay.go:380-388 | the loop executes and commits each old block up to the first whose commit has another length than LastValidators, where it panics |
| `RecoveryObject.Machine.ReplayOld` | consensus/replay.go:363-401 | the loop, then the last block through ApplyBlock if asked: the specified plan; wherever it ends the world is recoverable and nothing is lost, if it survives the heights agree, and if it panics no handshake will pass |
| `RecoveryObject.Machine.ReplayBlocks` | consensus/replay.go:258-361 | performs the plan up to the crash; it panics on the commit length only if the number of validators changed, its other panics and error branches are unreachable, and if it survives the heights agree |
| `RecoveryObject.Machine.CheckAppHash` | consensus/replay.go:421-426 | the mismatch panic is unreachable |
| `Rotation.MostestIsFirst` | types/validator.go:39-58 | nobody comes before the chosen proposer: higher accumulator, then lower address |
| `Rotation.IncrementConservesIff` | types/validator_set.go:50-71 | for any number of rounds at once the sum of accumulators is conserved if and only if no accumulator is clipped; then each gains its power for every round, pays the total for every turn and stays above minus the total |
| `Rotation.RunLedgerIff` | types/validator_set.go:50-71 | over any calls the sum is conserved if and only if none clips, and otherwise is negative ever after; without clipping each accumulator is rounds times power less turns times total |
| `Rotation.RoomIsEnough` | types/validator_set.go:50-71 | no call clips while (n - 1 + rounds) * T is at most MaxInt64 for each |
| `Rotation.ClippingIsUnfair` | types/validator_set.go:50-71 | two validators and one call of six rounds that clips: the validator of power one gets two turns, outside the fairness bound |
| `Rotation.BoundedFairness` | types/validator_set.go:50-71 | after k rounds, however called, without clipping: a validator of power p with c turns has abs(k*p - c*T) at most (n-1)*T |
| `Rotation.NobodyStarves` | types/validator_set.go:50-71 | a validator whose power has added up to more than (n-1)*T has had a turn |
| `ValidatorSets.SortedIsCanonical` | types/validator_set.go:176-235 | the sorted list is determined by the map it stands for, whatever history led to it |
| `ValidatorSets.SortByAddress` | types/validator_set.go:32-47 | distinct addresses end up strictly sorted, nothing lost or added |
| `ValidatorSets.ValidatorSet.constructor` | types/validator_set.go:32-47 | the sorted validators after one round of rotation |
| `ValidatorSets.ValidatorSet.Search` | types/validator_set.go:98-101 | binary search finds the first address not below the one asked for |
| `ValidatorSets.ValidatorSet.GetByAddress` | types/validator_set.go:98-106 | lookup equals lookup in the map |
| `ValidatorSets.ValidatorSet.HasAddress` | types/validator_set.go:89-94 | true exactly for the addresses of the map |
| `ValidatorSets.ValidatorSet.TotalVotingPower` | types/validator_set.go:125-133 | the cache is the clipped sum of the powers |
| `ValidatorSets.ValidatorSet.Add` | types/validator_set.go:176-200 | inserts into the map if absent |
| `ValidatorSets.ValidatorSet.Update` | types/validator_set.go:204-214 | replaces in the map if present |
| `ValidatorSets.ValidatorSet.Remove` | types/validator_set.go:218-235 | deletes from the map and returns what was there |
| `ValidatorSets.ValidatorSet.UpdateValidators` | state/execution.go:310-341 | folds insert, replace and delete over the map; neither the conversion of the updates nor the set returns an error |
| `ValidatorSets.ValidatorSet.IncrementAccum` | types/validator_set.go:50-71 | the two loops compute the specified rotation and the proposer of its last turn |
| `ValidatorSets.ValidatorSet.Peek` | types/validator_set.go:61-61 | the validator first under CompareAccum |
| `History.SaveVals` | state/store.go:210-218 | saving one more height extends the dense history by one |
| `History.SaveParams` | state/store.go:275-283 | the same for the consensus parameters |
| `History.StateStore.constructor` | state/store.go:46-58 | genesis is saved in full for height 1 |
| `History.StateStore.SaveState` | state/store.go:87-92 | the sparse history keeps agreeing with the dense one |
| `History.StateStore.LoadValidators` | state/store.go:170-186 | found exactly for heights 1 to the next one, with the addresses, keys and powers in force there; the panic is unreachable |
| `History.StateStore.LoadConsensusParams` | state/store.go:234-251 | found exactly for those heights, with the parameters in force; the panic is unreachable |
| `History.StateStore.NextValidators` | state/execution.go:344-365 | updates folded in, then one rotation; without updates the set is unchanged but for accumulators |
| `History.StateStore.Apply` | state/execution.go:344-396 | one more block keeps the agreement and changes no earlier height |
| `Commits.VerifyCommit` | types/validator_set.go:248-291 | accepts exactly the commits with well-formed, validly signed precommits whose power for the block exceeds the threshold |
| `Commits.ValidateBasic` | types/block.go:372-404 | accepts exactly non-nil, non-empty commits of uniform height, round and type |
| `Commits.ConflictingCommits` | types/validator_set.go:248-291 | two accepted commits for different blocks of one height and round are both signed by over a third of the power |
| `Commits.MadeCommitCertifies` | types/vote_set.go:531-550 | MakeCommit of any reachable vote set with a majority passes VerifyCommit and ValidateBasic |
| `Commits.ReconstructIff` | consensus/state.go:448-467 | an accepted commit rebuilds its majority if and only if every precommit names the validator at its position; otherwise reconstructLastCommit panics |
| `Commits.MisplacedCommit` | types/validator_set.go:248-291 | any accepted commit with another index in one vote is accepted too, and reconstructLastCommit panics on it |
| `Counterexamples.AcceptedNotRebuilt` | consensus/state.go:448-467 | a concrete commit of that kind |
| `Commits.CommitRoundTrip` | consensus/state.go:448-467 | a commit made from a vote set rebuilds its majority and its votes |
| `Commits.ReconstructLastCommit` | consensus/state.go:448-467 | the loop computes that, succeeding exactly when the majority is rebuilt |
| `CommitsAny.VerifyCommitAny` | types/validator_set.go:306-371 | accepts exactly when the specified scan ends with enough old and new power |
| `CommitsAny.ScanSound` | types/validator_set.go:320-357 | every old validator counted signed the block at a position of its own |
| `CommitsAny.AcceptedAnyIsSigned` | types/validator_set.go:306-371 | acceptance means over two thirds of the old power signed, each validator once, and those still in the new set hold over two thirds of the new power |
| `CommitsAny.AcceptedAnyIsTrusted` | types/validator_set.go:306-371 | with under a third of the old power faulty, a correct old validator signed |
| `Lite.MemStore.StoreCommit` | lite/memprovider.go:43-59 | consistent commits are appended and indexed by validators hash, others refused; a nil header panics |
| `Lite.MemStore.SortIfNecessary` | lite/memprovider.go:76-81 | sorted by height, a permutation |
| `Lite.MemStore.LinearSearch` | lite/memprovider.go:83-94 | the greatest stored height up to the one asked for, or none |
| `Lite.MemStore.BinarySearch` | lite/memprovider.go:96-127 | the greatest stored height up to the one asked for, or none |
| `Lite.MemStore.GetByHeight` | lite/memprovider.go:62-74 | the same, by whichever search |
| `Lite.StepInChain` | lite/dynamic_certifier.go:70-96 | an accepted update extends the chain of trust |
| `Counterexamples.UnnamedValidators` | lite/dynamic_certifier.go:70-96 | an accepted update whose validators are not those the header's hash names |
| `Counterexamples.NeverComesBack` | lite/inquiring_certifier.go:137-163 | for any trusted commit and any source whose every answer is out of its reach, UpdateToHeight exhausts any stack |
| `Counterexamples.StubbornSource` | lite/inquiring_certifier.go:137-163 | there is such a source: its answer is a consistent commit of other validators |
| `Lite.InquiringCertifier.New` | lite/inquiring_certifier.go:28-42 | succeeds exactly when the store takes the commit, and then starts at it with the stored validators as roots; otherwise the store is unchanged |
| `Lite.InquiringCertifier.constructor` | lite/inquiring_certifier.go:37-41 | stands at a commit of the store |
| `Lite.InquiringCertifier.UpdateCert` | lite/dynamic_certifier.go:70-96 | moves to a later commit exactly when it is consistent and the known validators vouch for it; too much change is reported exactly when they do not |
| `Lite.InquiringCertifier.UseClosestTrust` | lite/inquiring_certifier.go:106-118 | stands at the greatest trusted height up to the one asked for, or fails exactly when there is none |
| `Lite.InquiringCertifier.Update` | lite/inquiring_certifier.go:93-104 | on success the commit is trusted and current; everything trusted stays so |
| `Lite.InquiringCertifier.UpdateToHeight` | lite/inquiring_certifier.go:137-163 | never lowers LastHeight, raises it on success and stays in the chain of trust, whatever the source answers; for a source that answers at or below the height asked the recursion is no deeper than the heights to go, and against one that always answers the same commit out of reach it exhausts any stack |
| `Lite.InquiringCertifier.UpdateToHash` | lite/inquiring_certifier.go:122-134 | never lowers LastHeight and stays in the chain of trust |
| `Lite.InquiringCertifier.CertifyCert` | lite/dynamic_certifier.go:57-64 | succeeds exactly when the current validators are the header's and over two thirds of their power signed it |
| `Lite.InquiringCertifier.Certify` | lite/inquiring_certifier.go:67-89 | a header is accepted only on the signatures of validators reached from the roots by accepted steps |
| `Mempools.ExpectedResponse` | mempool/mempool.go:318-326 | during a recheck the next response is for the element at the cursor |
| `Mempools.AnswerRefines` | mempool/mempool.go:283-354 | each response settles the next transaction: recheck first, then new ones, in order |
| `Mempools.UpdateRefines` | mempool/mempool.go:410-475 | Update leaves the uncommitted transactions, all to be rechecked |
| `Mempools.RecheckIsFilter` | mempool/mempool.go:283-475 | rechecking exactly while a remaining transaction awaits its verdict; then the list is the old one without the committed and the invalid, followed by the newly accepted, in order |
| `TxCaches.PushInv` | mempool/mempool.go:528-547 | Push is refused exactly for a transaction in the cache, which never holds more than its size |
| `TxCaches.RememberedIff` | mempool/mempool.go:499-554 | over any use of the cache for other transactions, one it has seen is still refused exactly if its oldest entry has not been dropped for room |
| `TxCaches.FreshIsRemembered` | mempool/mempool.go:528-547 | without a stale entry it is refused for exactly the next size - 1 transactions let through |
| `TxCaches.StaleEntryForgets` | mempool/mempool.go:549-554 | with a stale entry it can be forgotten after one |
| `MempoolObject.TxCache.Push` | mempool/mempool.go:528-547 | the in-place update and the answer are the specified ones |
| `MempoolObject.TxCache.Remove` | mempool/mempool.go:549-554 | takes the transaction out of the map and leaves the list |
| `MempoolObject.Mempool.CheckTx` | mempool/mempool.go:237-280 | refused exactly when the pool is full, else when the cache has seen the transaction; otherwise the transaction is in the cache and, if the application is connected, one request is queued |
| `MempoolObject.Mempool.ResCb` | mempool/mempool.go:283-354 | list and cursor as specified, a rejected transaction leaves the cache; the unexpected-response and empty-notification panics are unreachable |
| `MempoolObject.Mempool.Update` | mempool/mempool.go:410-437 | the in-place update is the specified one |
| `MempoolObject.Mempool.FilterTxs` | mempool/mempool.go:439-456 | the loop removes exactly the block's transactions |
| `MempoolObject.Mempool.RecheckTxs` | mempool/mempool.go:459-475 | cursor at the front, end at the back, one request for each |
| `MempoolObject.Mempool.Reap` | mempool/mempool.go:379-405 | a prefix of the list of the requested length, all of it if negative |
| `PartSets.JoinSplit` | types/part_set.go:87-114 | joining the parts gives the data back |
| `PartSets.SplitCount` | types/part_set.go:87-90 | there are as many parts as computed up front |
| `PartSets.AddPartSound` | types/part_set.go:178-202 | any part, good or bad, keeps count, bits and parts in step and only proven parts in |
| `PartSets.AddPartOutcomes` | types/part_set.go:178-202 | panics exactly on a negative index; only a verified part that was missing goes in, at its place, and nothing else changes |
| `PartSets.CompleteIff` | types/part_set.go:210-212 | the count reaches the total exactly when no part is missing, and then the parts are the leaves of the root |
| `PartSets.GatherComplete` | types/part_set.go:117-202 | parts in any order, with repeats, are complete exactly when all arrived |
| `PartSets.GatherRoundTrip` | types/part_set.go:87-202 | parts of the data that make a complete set hold the data |
| `PartSetObject.PartSet.FromData` | types/part_set.go:87-114 | a complete set of the data's pieces |
| `PartSetObject.PartSet.FromHeader` | types/part_set.go:117-125 | an empty set |
| `PartSetObject.PartSet.AddPart` | types/part_set.go:178-202 | array, bits and count change as specified; the slice access panics exactly on a negative index |
| `PartSetObject.PartSet.IsComplete` | types/part_set.go:210-212 | exactly when every part is present |
| `PartSetObject.PartSet.GetReader` | types/part_set.go:214-233 | the reader holds the bytes of all parts in order |
| `PartSetObject.PartSetReader.Read` | types/part_set.go:235-254 | as many bytes as fit, in order, and end of file exactly when a non-empty buffer could not be filled |
| `PartSetObject.ReadAll` | types/part_set.go:235-254 | any sequence of non-empty buffers ends and yields exactly the bytes |

## Left out

- Restart of a consensus node from its write-ahead log: nodes of the agreement theorem do not crash; the signer and the recovery layer are proved separately.
- Overflow of rounds, heights and `hvs.round+1` as machine integers.
- Proposal signatures (their check is commented out in the code), gossip, peers' state, tickers and the WAL file format.
- Decoding a block into an existing Block object, and part sets shared between lock, valid block and proposal, are modelled by value: a lock's set is complete and no longer changes, and of a valid block only the parts are offered again.
- The height checks of the block store, other than the completeness of the parts.
- Validator updates of the application carry no public key (types/protobuf.go:177-186); the model's updates name one, and what a validator without a key does is not followed up.
- Power.TotalIsClampedSum: powers are not negative; a negative power is refused nowhere in this code and its effect on the total is not stated.
- `mockProxyApp` gives no answer to GetValidatorSet, so the validators of the state after the mock path are not claimed to be reproduced.
- InitChain's response during a handshake is taken as empty; the genesis app hash is taken as the hash of the empty log.
- A failed write of the signer's file counts as a crash; `FilePV.Reset` and heartbeats are not modelled.
- `ValidatorSet.Copy` shares the Proposer object with the original; the model copies the value, so later accumulators seen through it are not captured.
- ValidatorSets.ValidatorSet.constructor: requires distinct addresses; with duplicates CompareAccum may panic.
- Rotation.BoundedFairness: for runs in which no accumulator is clipped; that clipping can break it is shown, which clipped runs are fair all the same is not.
- Rotation.NobodyStarves: the same.
- Lite.InquiringCertifier.UpdateToHeight: the bound on the depth is for a source that answers at or below the height asked and for non-negative heights; Go's call stack is the parameter `depth`, and `start + end` does not overflow.
- VoteSetObject.VoteSet.constructor: assumes the powers in range, as `VoteSets.NewTallyInv` does.
- VoteSets.NewTallyInv: assumes the powers in range; outside it the accounting invariant is not claimed, and `QuorumRange` states what the threshold does there.
- The mempool's WAL, `Flush`, the TxsAvailable channel and the unordered gRPC callback path: responses come in request order, and Update is called with every request answered, as BlockExecutor.Commit arranges.
- Commit's memoised fields, `GetProposer`, evidence, `MakeBlock` and the transaction buckets, fast sync, p2p and the RPC layer.
