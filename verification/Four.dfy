// Four validators of equal power, and a tally of theirs told by its ballots alone.
module Four {
  import opened Types
  import opened Power
  import opened VoteSets
  import opened Commits
  import opened Consensus
  import opened NodeInvariants
  import opened Agreement

  const QUAD := [Validator(AddressOf(0), 0, 1, 0), Validator(AddressOf(1), 1, 1, 0),
                 Validator(AddressOf(2), 2, 1, 0), Validator(AddressOf(3), 3, 1, 0)]
  const CHAIN := Chain("quad", (h: int) => QUAD, (h: int, b: nat) => true, false, false, false)
  const ENV := Env(0, true, false, None, true, true, true)

  function V(i: nat, r: int, kind: VoteType, b: BlockID): Vote {
    Vote(AddressOf(i), i, 1, r, 0, kind, b, Signature(i, VoteBytes("quad", 1, r, kind, b, 0), 0))
  }

  lemma Prefixes()
    ensures QUAD[..3] == [QUAD[0], QUAD[1], QUAD[2]] && [QUAD[0], QUAD[1], QUAD[2]][..2] == [QUAD[0], QUAD[1]]
    ensures [QUAD[0], QUAD[1]][..1] == [QUAD[0]] && [QUAD[0]][..0] == []
  {
  }

  lemma QuadPower()
    ensures ExactPowers(QUAD) && Sum(QUAD) == 4 && TotalVotingPower(QUAD) == 4 && Threshold(QUAD) == 2
  {
    Prefixes();
    assert Sum([QUAD[0]]) == 1;
    assert Sum([QUAD[0], QUAD[1]]) == 2;
    assert Sum([QUAD[0], QUAD[1], QUAD[2]]) == 3;
    TotalIsClampedSum(QUAD);
    ThresholdExact(QUAD);
  }

  lemma FaultyPower()
    ensures Weight(QUAD, {3}) == 1
  {
    Prefixes();
    WeightEmpty([QUAD[0], QUAD[1], QUAD[2]], {3});
  }

  lemma AssumptionsHold()
    ensures ChainOK(CHAIN) && FaultBound(CHAIN, {0, 1, 2})
  {
    QuadPower();
    FaultyPower();
    hide Sum, Weight;
    forall h ensures 3 * Weight(CHAIN.vals(h), Faulty(CHAIN, {0, 1, 2}, h)) < Sum(CHAIN.vals(h)) {
      assert Faulty(CHAIN, {0, 1, 2}, h) == {3};
    }
  }

  // ---- What a tally holds: at most one ballot from each of the four ----

  type Ballots = seq<Option<BlockID>>

  const NONE: Ballots := [None, None, None, None]

  function One(v: Option<BlockID>, b: BlockID): nat { if v == Some(b) then 1 else 0 }

  function For(bs: Ballots, b: BlockID): nat
    requires |bs| == 4
  {
    One(bs[0], b) + One(bs[1], b) + One(bs[2], b) + One(bs[3], b)
  }

  function Present(v: Option<BlockID>): nat { if v.Some? then 1 else 0 }

  function Cast(bs: Ballots): nat
    requires |bs| == 4
  {
    Present(bs[0]) + Present(bs[1]) + Present(bs[2]) + Present(bs[3])
  }

  // The ballots as votes, and those among them for one block.
  function Votes(r: int, kind: VoteType, bs: Ballots): seq<Option<Vote>> {
    seq(|bs|, i requires 0 <= i < |bs| => if bs[i].Some? then Some(V(i, r, kind, bs[i].value)) else None)
  }

  function VotesFor(r: int, kind: VoteType, bs: Ballots, b: BlockID): seq<Option<Vote>> {
    seq(|bs|, i requires 0 <= i < |bs| => if bs[i] == Some(b) then Some(V(i, r, kind, b)) else None)
  }

  ghost predicate Shows(t: Tally, r: int, kind: VoteType, bs: Ballots) {
    && TallyInv(t) && t.chain == "quad" && t.height == 1 && t.round == r && t.kind == kind && t.vals == QUAD
    && |bs| == 4 && t.votes == Votes(r, kind, bs) && forall b :: VoteSets.Entry(t, b) == VotesFor(r, kind, bs, b)
  }

  lemma EmptyShows(r: int, kind: VoteType)
    ensures Shows(NewTally("quad", 1, r, kind, QUAD), r, kind, NONE)
  {
    QuadPower();
    NewTallyInv("quad", 1, r, kind, QUAD);
    hide TallyInv;
    var t := NewTally("quad", 1, r, kind, QUAD);
    forall b ensures VoteSets.Entry(t, b) == VotesFor(r, kind, NONE, b) {}
  }

  lemma BallotIsFresh(t: Tally, r: int, kind: VoteType, bs: Ballots, i: nat, b: BlockID)
    requires Shows(t, r, kind, bs) && i < 4 && bs[i].None?
    ensures Fresh(t, V(i, r, kind, b)) && t.votes[i].None?
    ensures forall k :: 0 <= k < 4 && VoteSets.Entry(t, b)[k].Some? ==> t.votes[k] == VoteSets.Entry(t, b)[k]
  {
    assert VoteSets.Entry(t, b) == VotesFor(r, kind, bs, b);
    ShapeOfTally(t);
    hide TallyInv, Shows;
  }

  lemma BallotAdded(r: int, kind: VoteType, bs: Ballots, i: nat, b: BlockID, c: BlockID)
    requires |bs| == 4 && i < 4 && bs[i].None?
    ensures Votes(r, kind, bs[i := Some(b)]) == Votes(r, kind, bs)[i := Some(V(i, r, kind, b))]
    ensures VotesFor(r, kind, bs[i := Some(b)], c) ==
      if c == b then VotesFor(r, kind, bs, c)[i := Some(V(i, r, kind, b))] else VotesFor(r, kind, bs, c)
  {
    hide V;
  }

  // A new ballot is counted.
  lemma BallotCounts(t: Tally, r: int, kind: VoteType, bs: Ballots, i: nat, b: BlockID)
    requires Shows(t, r, kind, bs) && i < 4 && bs[i].None?
    ensures Shape(t)
    ensures var x := AddVote(t, V(i, r, kind, b));
      x.added && Shape(x.tally) && Shows(x.tally, r, kind, bs[i := Some(b)])
  {
    var v, bs' := V(i, r, kind, b), bs[i := Some(b)];
    ShapeOfTally(t);
    AddVoteInv(t, v);
    BallotIsFresh(t, r, kind, bs, i, b);
    hide TallyInv, AddVote, Fresh, Shape, VoteSets.Entry, Votes, VotesFor;
    FirstVoteEffect(t, v);
    var t' := AddVote(t, v).tally;
    ShapeOfTally(t');
    BallotAdded(r, kind, bs, i, b, b);
    forall c ensures VoteSets.Entry(t', c) == VotesFor(r, kind, bs', c) {
      assert VoteSets.Entry(t, c) == VotesFor(r, kind, bs, c);
      BallotAdded(r, kind, bs, i, b, c);
    }
  }

  lemma ShapeOfTally(t: Tally)
    requires TallyInv(t)
    ensures Shape(t) && |t.votes| == |t.vals|
  {
  }

  function In(i: int, who: set<int>): nat { if i in who then 1 else 0 }

  lemma QuadWeight(who: set<int>)
    ensures Weight(QUAD, who) == In(0, who) + In(1, who) + In(2, who) + In(3, who)
  {
    Prefixes();
    assert Weight([QUAD[0]], who) == In(0, who);
    assert Weight([QUAD[0], QUAD[1]], who) == In(0, who) + In(1, who);
    assert Weight([QUAD[0], QUAD[1], QUAD[2]], who) == In(0, who) + In(1, who) + In(2, who);
  }

  // Three ballots are two thirds of anything, and three for one block its majority.
  lemma Counted(t: Tally, r: int, kind: VoteType, bs: Ballots, b: BlockID)
    requires Shows(t, r, kind, bs)
    ensures t.HasTwoThirdsAny() <==> Cast(bs) >= 3
    ensures For(bs, b) >= 3 ==> t.maj23 == Some(b)
    ensures t.maj23.Some? ==> For(bs, t.maj23.value) >= 3
  {
    QuadPower();
    QuadWeight(Voters(Votes(r, kind, bs)));
    EntryPower(t, r, kind, bs, b);
    if t.maj23.Some? { EntryPower(t, r, kind, bs, t.maj23.value); }
    hide Threshold, Weight;
    assert MajorityInv(t);
    if t.maj23.Some? && For(bs, b) >= 3 { OnlyOne(bs, b, t.maj23.value); }
  }

  lemma OnlyOne(bs: Ballots, b: BlockID, c: BlockID)
    requires |bs| == 4 && For(bs, b) >= 3 && For(bs, c) >= 3
    ensures b == c
  {
  }

  lemma EntryPower(t: Tally, r: int, kind: VoteType, bs: Ballots, b: BlockID)
    requires Shows(t, r, kind, bs)
    ensures b in t.byBlock ==> t.byBlock[b].sum == For(bs, b)
    ensures For(bs, b) > 0 ==> b in t.byBlock
  {
    var votes := VotesFor(r, kind, bs, b);
    assert VoteSets.Entry(t, b) == votes;
    QuadWeight(Voters(votes));
    hide Weight;
    if b in t.byBlock { assert BlockInv(t, b, t.byBlock[b]); }
    assert forall i :: 0 <= i < 4 ==> (i in Voters(votes) <==> bs[i] == Some(b));
  }
}
