// Vote sets whose total power is above half of the largest int64, where the
// threshold `total * 2 / 3` has wrapped around (see Arith.TwoThirdsExact).
module QuorumRange {
  import opened Arith
  import opened Types
  import opened Power
  import opened VoteSets

  // Just below the top of the range the threshold is negative; at the top it is zero.
  lemma ThresholdAboveHalf(vals: seq<Validator>)
    requires NonNegative(vals) && MAX64 / 2 < Sum(vals)
    ensures if Sum(vals) < MAX64 then Threshold(vals) < 0 else Threshold(vals) == 0
  {
    TotalIsClampedSum(vals);
    var total := TotalVotingPower(vals);
    assert 0 <= total * 2 - MIN64 - MODULUS < MODULUS;
    assert Wrap(total * 2) == total * 2 - MODULUS;
  }

  // No block has a majority, and none can get one: every sum starts at or above the quorum.
  predicate Stuck(t: Tally) {
    && Shape(t) && NonNegative(t.vals) && Threshold(t.vals) < 0 && t.maj23.None?
    && forall b :: b in t.byBlock ==> t.byBlock[b].sum >= 0
  }

  lemma AddStuck(t: Tally, v: Vote)
    requires Stuck(t)
    ensures Stuck(AddVote(t, v).tally)
  {
    hide Threshold;
    if AddVote(t, v).tally != t {
      var t1 := Canonical(t, v);
      var bv := if v.block in t.byBlock then t.byBlock[v.block] else NewBlockVotes(false, |t.vals|);
      CanonicalEffect(t, v);
      assert bv.sum >= 0 && t.vals[v.index].power >= 0;
    }
  }

  lemma StepStuck(t: Tally, op: Op)
    requires Stuck(t)
    ensures Stuck(Step(t, op))
  {
    hide Threshold, AddVote;
    if op.Add? { AddStuck(t, op.v); }
  }

  ghost function RunStuck(t: Tally, ops: seq<Op>): (r: Tally)
    requires Stuck(t)
    ensures Stuck(r)
    decreases |ops|
  {
    if ops == [] then t
    else
      StepStuck(t, ops[0]);
      RunStuck(Step(t, ops[0]), ops[1..])
  }

  lemma NewIsStuck(chain: ChainID, height: int, round: int, kind: VoteType, vals: seq<Validator>)
    requires NonNegative(vals) && MAX64 / 2 < Sum(vals) < MAX64
    ensures Stuck(NewTally(chain, height, round, kind, vals))
  {
    ThresholdAboveHalf(vals);
  }

  // Above half of the range, and short of its top, no votes ever make a majority,
  // not even those of all validators.
  lemma NoMajorityAboveHalf(chain: ChainID, height: int, round: int, kind: VoteType, vals: seq<Validator>, ops: seq<Op>)
    requires NonNegative(vals) && MAX64 / 2 < Sum(vals) < MAX64
    ensures Stuck(NewTally(chain, height, round, kind, vals))
    ensures RunStuck(NewTally(chain, height, round, kind, vals), ops).maj23.None?
  {
    NewIsStuck(chain, height, round, kind, vals);
  }

  // From the top of the range on, the first vote of positive power that is added is a
  // majority for its block, whatever votes of no power came before.
  lemma FirstVoteWins(t: Tally, v: Vote)
    requires Shape(t) && NonNegative(t.vals) && Sum(t.vals) >= MAX64
    requires t.maj23.None? && forall b :: b in t.byBlock ==> t.byBlock[b].sum == 0
    requires AddVote(t, v).added && 0 <= v.index < |t.vals| && t.vals[v.index].power > 0
    ensures AddVote(t, v).tally.maj23 == Some(v.block)
  {
    ThresholdAboveHalf(t.vals);
    hide Threshold, Sum;
    CanonicalEffect(t, v);
  }
}
