// Commits: VoteSet.MakeCommit, Commit.ValidateBasic, ValidatorSet.VerifyCommit,
// ValidatorSet.VerifyCommitAny and ConsensusState.reconstructLastCommit.
module Commits {
  import opened Arith
  import opened Types
  import opened Power
  import opened VoteSets
  import opened VoteSetObject
  import opened ValidatorSets

  datatype Commit = Commit(block: BlockID, precommits: seq<Option<Vote>>)

  datatype CommitError =
    | Accepted | NilBlockCommit | NoPrecommits | WrongSize | WrongHeight | WrongRound
    | NotPrecommit | BadSignature | InsufficientPower | InsufficientNewPower

  // FirstPrecommit: the first vote present, if any.
  function First(pre: seq<Option<Vote>>): (v: Option<Vote>)
    ensures v.Some? <==> Voters(pre) != {}
    ensures v.Some? ==> v in pre
  {
    if pre == [] then None
    else if pre[0].Some? then
      assert 0 in Voters(pre);
      pre[0]
    else
      FirstOfRest(pre);
      First(pre[1..])
  }

  lemma FirstOfRest(pre: seq<Option<Vote>>)
    requires pre != [] && pre[0].None?
    ensures Voters(pre) == {} <==> Voters(pre[1..]) == {}
  {
    if i :| i in Voters(pre) { assert i - 1 in Voters(pre[1..]); }
    if i :| i in Voters(pre[1..]) { assert i + 1 in Voters(pre); }
  }

  function CommitHeight(c: Commit): int {
    if First(c.precommits).Some? then First(c.precommits).value.height else 0
  }

  function CommitRound(c: Commit): int {
    if First(c.precommits).Some? then First(c.precommits).value.round else 0
  }

  // The indices whose precommit is for block `b`.
  function Signers(pre: seq<Option<Vote>>, b: BlockID): set<int> {
    set i | 0 <= i < |pre| && pre[i].Some? && pre[i].value.block == b
  }

  predicate Uniform(v: Vote, height: int, round: int) {
    v.height == height && v.round == round && v.kind == Precommit
  }

  predicate SignedBy(v: Vote, chain: ChainID, key: PubKey) {
    v.sig.key == key && v.sig.msg == v.Bytes(chain)
  }

  predicate AllUniform(pre: seq<Option<Vote>>, height: int, round: int) {
    forall i :: 0 <= i < |pre| && pre[i].Some? ==> Uniform(pre[i].value, height, round)
  }

  predicate AllSigned(vals: seq<Validator>, pre: seq<Option<Vote>>, chain: ChainID)
    requires |pre| <= |vals|
  {
    forall i :: 0 <= i < |pre| && pre[i].Some? ==> SignedBy(pre[i].value, chain, vals[i].key)
  }

  // What VerifyCommit is meant to establish.
  ghost predicate Certifies(vals: seq<Validator>, chain: ChainID, b: BlockID, height: int, c: Commit) {
    && |c.precommits| == |vals| && CommitHeight(c) == height
    && AllUniform(c.precommits, height, CommitRound(c)) && AllSigned(vals, c.precommits, chain)
    && Power64(vals, Signers(c.precommits, b)) > Threshold(vals)
  }

  // A running sum of voting powers, as int64 addition leaves it.
  function Power64(vals: seq<Validator>, who: set<int>): Int64 {
    Wrap(Weight(vals, who))
  }

  lemma SignersNext(vals: seq<Validator>, pre: seq<Option<Vote>>, b: BlockID, k: nat)
    requires k < |pre| <= |vals|
    ensures Power64(vals, Signers(pre[..k + 1], b))
         == if pre[k].Some? && pre[k].value.block == b then Wrap(Power64(vals, Signers(pre[..k], b)) + vals[k].power)
            else Power64(vals, Signers(pre[..k], b))
  {
    WrapAdd(Weight(vals, Signers(pre[..k], b)), vals[k].power);
    if pre[k].Some? && pre[k].value.block == b {
      WeightInsert(vals, Signers(pre[..k], b), k);
      assert Signers(pre[..k + 1], b) == Signers(pre[..k], b) + {k};
    } else {
      assert Signers(pre[..k + 1], b) == Signers(pre[..k], b);
    }
  }

  // Under exact powers no partial tally wraps.
  lemma TallyFits(vals: seq<Validator>, who: set<int>)
    requires ExactPowers(vals)
    ensures Power64(vals, who) == Weight(vals, who) >= 0
  {
    WeightBounds(vals, who);
    var k := WrapIsCongruent(Weight(vals, who));
  }

  // ValidatorSet.VerifyCommit
  method VerifyCommit(vals: seq<Validator>, chain: ChainID, b: BlockID, height: int, c: Commit)
    returns (err: CommitError)
    ensures err == Accepted <==> Certifies(vals, chain, b, height, c)
    ensures err == WrongSize <==> |vals| != |c.precommits|
    ensures err == InsufficientPower ==> Power64(vals, Signers(c.precommits, b)) <= Threshold(vals)
  {
    if |vals| != |c.precommits| { return WrongSize; }
    if height != CommitHeight(c) { return WrongHeight; }
    var tallied: Int64, round := 0, CommitRound(c);
    var pre := c.precommits;
    var idx := 0;
    WeightEmpty(vals, Signers(pre[..0], b));
    while idx < |pre|
      invariant 0 <= idx <= |pre|
      invariant AllUniform(pre[..idx], height, round) && AllSigned(vals, pre[..idx], chain)
      invariant tallied == Power64(vals, Signers(pre[..idx], b))
    {
      SignersNext(vals, pre, b, idx);
      if pre[idx].Some? {
        var precommit := pre[idx].value;
        if precommit.height != height { return WrongHeight; }
        if precommit.round != round { return WrongRound; }
        if precommit.kind != Precommit { return NotPrecommit; }
        if !SignedBy(precommit, chain, vals[idx].key) { return BadSignature; }
        if b == precommit.block { tallied := Wrap(tallied + vals[idx].power); }
      }
      idx := idx + 1;
    }
    assert pre[..idx] == pre;
    if tallied > Threshold(vals) { return Accepted; }
    return InsufficientPower;
  }

  // Commit.ValidateBasic
  method ValidateBasic(c: Commit) returns (err: CommitError)
    ensures err == Accepted <==>
      !c.block.IsZero() && c.precommits != [] && AllUniform(c.precommits, CommitHeight(c), CommitRound(c))
  {
    if c.block.IsZero() { return NilBlockCommit; }
    if c.precommits == [] { return NoPrecommits; }
    var height, round := CommitHeight(c), CommitRound(c);
    var k := 0;
    while k < |c.precommits|
      invariant 0 <= k <= |c.precommits|
      invariant AllUniform(c.precommits[..k], height, round)
    {
      if c.precommits[k].Some? {
        var v := c.precommits[k].value;
        if v.kind != Precommit { return NotPrecommit; }
        if v.height != height { return WrongHeight; }
        if v.round != round { return WrongRound; }
      }
      k := k + 1;
    }
    assert c.precommits[..k] == c.precommits;
    return Accepted;
  }

  // Two commits for different blocks of one height and round, both accepted under
  // one validator set: more than a third of the power signed both.
  lemma ConflictingCommits(vals: seq<Validator>, chain: ChainID, b: BlockID, c: Commit,
                           b': BlockID, c': Commit, height: int)
    requires ExactPowers(vals)
    requires Certifies(vals, chain, b, height, c) && Certifies(vals, chain, b', height, c')
    requires b != b' && CommitRound(c) == CommitRound(c')
    ensures var both := Signers(c.precommits, b) * Signers(c'.precommits, b');
      && 3 * Weight(vals, both) > Sum(vals)
      && forall i :: i in both ==> DoubleSigned(chain, vals[i].key, c.precommits[i].value, c'.precommits[i].value)
  {
    TallyFits(vals, Signers(c.precommits, b));
    TallyFits(vals, Signers(c'.precommits, b'));
    QuorumsOverlap(vals, Signers(c.precommits, b), Signers(c'.precommits, b'));
  }

  // Two precommits of one height and round, for different blocks, both signed by `key`.
  predicate DoubleSigned(chain: ChainID, key: PubKey, v: Vote, w: Vote) {
    && SignedBy(v, chain, key) && SignedBy(w, chain, key)
    && v.height == w.height && v.round == w.round && v.kind == w.kind == Precommit && v.block != w.block
  }

  // ---- From a vote set to a commit and back ----

  // VoteSet.MakeCommit, for a precommit vote set with a majority.
  function MakeCommit(t: Tally): Commit
    requires t.maj23.Some? && t.kind == Precommit
  {
    Commit(t.maj23.value, t.votes)
  }

  lemma MajoritySigned(t: Tally)
    requires TallyInv(t) && t.maj23.Some?
    ensures Weight(t.vals, Signers(t.votes, t.maj23.value)) > Threshold(t.vals)
  {
    var m := t.maj23.value;
    var bv := t.byBlock[m];
    assert BlockInv(t, m, bv);
    WeightMonotone(t.vals, Voters(bv.votes), Signers(t.votes, m));
  }

  lemma SomebodySigned(vals: seq<Validator>, pre: seq<Option<Vote>>, b: BlockID)
    requires ExactPowers(vals) && Weight(vals, Signers(pre, b)) > Threshold(vals)
    ensures First(pre).Some? && Signers(pre, b) <= Voters(pre)
  {
    ThresholdExact(vals);
    if Signers(pre, b) == {} { WeightEmpty(vals, Signers(pre, b)); }
    var i :| i in Signers(pre, b);
    assert i in Voters(pre);
  }

  // MakeCommit yields a commit that VerifyCommit and ValidateBasic accept.
  lemma MadeCommitCertifies(t: Tally)
    requires TallyInv(t) && t.kind == Precommit && t.maj23.Some?
    ensures Certifies(t.vals, t.chain, t.maj23.value, t.height, MakeCommit(t))
    ensures MakeCommit(t).precommits != []
    ensures AllUniform(t.votes, CommitHeight(MakeCommit(t)), CommitRound(MakeCommit(t)))
    ensures CommitRound(MakeCommit(t)) == t.round
    ensures InPlace(t.vals, MakeCommit(t).precommits)
  {
    MajoritySigned(t);
    TallyFits(t.vals, Signers(t.votes, t.maj23.value));
    SomebodySigned(t.vals, t.votes, t.maj23.value);
    forall i | 0 <= i < |t.votes| && t.votes[i].Some? ensures Good(t, i, t.votes[i].value) {}
  }

  // Every precommit names the validator at its own position.
  predicate InPlace(vals: seq<Validator>, pre: seq<Option<Vote>>) {
    && |pre| <= |vals|
    && forall i :: 0 <= i < |pre| && pre[i].Some? ==> pre[i].value.index == i && pre[i].value.addr == vals[i].addr
  }

  // The loop of reconstructLastCommit: None where it panics.
  ghost function Feed(t: Tally, pre: seq<Option<Vote>>): (r: Option<Tally>)
    requires TallyInv(t)
    ensures r.Some? ==> TallyInv(r.value)
  {
    if pre == [] then Some(t)
    else
      var n := |pre| - 1;
      var u := Feed(t, pre[..n]);
      if u.None? || pre[n].None? then u
      else
        AddVoteInv(u.value, pre[n].value);
        var r := AddVote(u.value, pre[n].value);
        if r.added && r.err == NoError then Some(r.tally) else None
  }

  // The precommits for block `b`, each at its position.
  function Filtered(pre: seq<Option<Vote>>, b: BlockID, n: nat): seq<Option<Vote>> {
    seq(n, i requires 0 <= i < n => if i in Signers(pre, b) then pre[i] else None)
  }

  lemma FilteredNext(pre: seq<Option<Vote>>, v: Option<Vote>, b: BlockID, n: nat)
    requires |pre| < n
    ensures Filtered(pre + [v], b, n)
         == if v.Some? && v.value.block == b then Filtered(pre, b, n)[|pre| := v] else Filtered(pre, b, n)
  {
    var pre' := pre + [v];
    forall i | 0 <= i < n ensures i in Signers(pre', b) <==>
        i in Signers(pre, b) || (i == |pre| && v.Some? && v.value.block == b)
    {
      assert i < |pre| ==> pre'[i] == pre[i];
    }
  }

  // A tally holding just these precommits, one for each position, each under its block.
  ghost predicate Rebuilt(t: Tally, u: Tally, pre: seq<Option<Vote>>) {
    && TallyInv(u) && SameTag(t, u) && |pre| <= |u.vals|
    && (forall i :: 0 <= i < |u.votes| ==> u.votes[i] == if i < |pre| then pre[i] else None)
    && (forall b :: Entry(u, b) == Filtered(pre, b, |u.vals|))
  }

  // Keys and addresses of a validator set match, and no two validators share one.
  predicate Keyed(vals: seq<Validator>) {
    DistinctAddresses(vals) && forall i :: 0 <= i < |vals| ==> vals[i].addr == AddressOf(vals[i].key)
  }

  // A validator's first vote is recorded and displaces nothing.
  lemma FirstVoteEffect(u: Tally, v: Vote)
    requires TallyInv(u) && Fresh(u, v) && v.addr != 0 && u.votes[v.index].None?
    requires forall i :: 0 <= i < |u.vals| && Entry(u, v.block)[i].Some? ==> u.votes[i] == Entry(u, v.block)[i]
    ensures var r := AddVote(u, v);
      && r.added && r.err == NoError && SameTag(u, r.tally)
      && r.tally.votes == u.votes[v.index := Some(v)]
      && forall b :: Entry(r.tally, b) == if b == v.block then Entry(u, b)[v.index := Some(v)] else Entry(u, b)
  {
    var t1 := Canonical(u, v);
    CanonicalEffect(u, v);
    var bv := if v.block in u.byBlock then u.byBlock[v.block] else NewBlockVotes(false, |u.vals|);
    assert Entry(u, v.block) == bv.votes;
    assert bv.votes[v.index].None?;
    forall b ensures Entry(Track(t1, v, bv), b) == if b == v.block then bv.votes[v.index := Some(v)] else Entry(u, b) {
      TrackEffect(t1, v, bv, b);
    }
    assert Overlay(t1.votes, bv.Add(v, u.vals[v.index].power).votes) == t1.votes;
  }

  lemma RebuiltNext(t: Tally, u: Tally, u': Tally, pre: seq<Option<Vote>>, v: Vote)
    requires Rebuilt(t, u, pre) && |pre| < |u.vals| && TallyInv(u') && SameTag(u, u')
    requires u'.votes == u.votes[|pre| := Some(v)]
    requires forall b :: Entry(u', b) == if b == v.block then Entry(u, b)[|pre| := Some(v)] else Entry(u, b)
    ensures Rebuilt(t, u', pre + [Some(v)])
  {
    LengthsOf(u);
    hide TallyInv, Entry, Filtered;
    forall b ensures Entry(u', b) == Filtered(pre + [Some(v)], b, |u'.vals|) {
      FilteredNext(pre, Some(v), b, |u.vals|);
    }
  }

  // Feeding one more precommit works exactly when it is in its place.
  lemma FeedNext(t: Tally, u: Tally, pre: seq<Option<Vote>>, v: Vote)
    requires Rebuilt(t, u, pre) && |pre| < |u.vals| && Keyed(u.vals)
    requires Uniform(v, u.height, u.round) && u.kind == Precommit && SignedBy(v, u.chain, u.vals[|pre|].key)
    ensures var r := AddVote(u, v);
      && (r.added && r.err == NoError <==> v.index == |pre| && v.addr == u.vals[|pre|].addr)
      && (v.index == |pre| && v.addr == u.vals[|pre|].addr ==> Rebuilt(t, r.tally, pre + [Some(v)]))
  {
    var k := |pre|;
    AddedIff(u, v);
    AddVoteInv(u, v);
    if v.index == k && v.addr == u.vals[k].addr {
      assert Entry(u, v.block) == Filtered(pre, v.block, |u.vals|);
      assert Fresh(u, v);
      FirstVoteEffect(u, v);
      RebuiltNext(t, u, AddVote(u, v).tally, pre, v);
    }
  }

  lemma RebuiltSkip(t: Tally, u: Tally, pre: seq<Option<Vote>>)
    requires Rebuilt(t, u, pre) && |pre| < |u.vals|
    ensures Rebuilt(t, u, pre + [None])
  {
    hide TallyInv, Entry, Filtered;
    forall b ensures Entry(u, b) == Filtered(pre + [None], b, |u.vals|) { FilteredNext(pre, None, b, |u.vals|); }
  }

  lemma RebuiltNone(t: Tally)
    requires TallyInv(t) && t == NewTally(t.chain, t.height, t.round, Precommit, t.vals)
    ensures Rebuilt(t, t, []) && t.kind == Precommit
  {
    var t0 := NewTally(t.chain, t.height, t.round, Precommit, t.vals);
    forall b ensures Entry(t0, b) == Filtered([], b, |t.vals|) {
      assert Signers([], b) == {};
      forall i | 0 <= i < |t.vals| ensures Entry(t0, b)[i] == Filtered([], b, |t.vals|)[i] {
        assert i !in Signers([], b);
        assert Filtered([], b, |t.vals|)[i] == None;
      }
    }
  }

  lemma LengthsOf(u: Tally)
    requires TallyInv(u)
    ensures |u.votes| == |u.vals| && forall b :: |Entry(u, b)| == |u.vals|
  {
  }

  // reconstructLastCommit gets through the precommits exactly when all are in place.
  lemma {:induction false} FeedIff(t: Tally, pre: seq<Option<Vote>>)
    requires TallyInv(t) && t == NewTally(t.chain, t.height, t.round, Precommit, t.vals) && Keyed(t.vals)
    requires |pre| <= |t.vals| && AllUniform(pre, t.height, t.round) && AllSigned(t.vals, pre, t.chain)
    ensures Feed(t, pre).Some? <==> InPlace(t.vals, pre)
    ensures Feed(t, pre).Some? ==> Rebuilt(t, Feed(t, pre).value, pre)
  {
    hide TallyInv, NewTally, Rebuilt;
    RebuiltNone(t);
    if pre != [] {
      var n := |pre| - 1;
      FeedIff(t, pre[..n]);
      assert pre[..n] + [pre[n]] == pre;
      assert InPlace(t.vals, pre) ==> InPlace(t.vals, pre[..n]);
      var u := Feed(t, pre[..n]);
      if u.Some? {
        RebuiltTag(t, u.value, pre[..n]);
        if pre[n].Some? {
          FeedNext(t, u.value, pre[..n], pre[n].value);
        } else {
          RebuiltSkip(t, u.value, pre[..n]);
        }
      }
    }
  }

  lemma RebuiltTag(t: Tally, u: Tally, pre: seq<Option<Vote>>)
    requires Rebuilt(t, u, pre)
    ensures SameTag(t, u)
  {
  }

  // The block with the majority of the precommits has the majority of the tally.
  lemma RebuiltMajority(t: Tally, u: Tally, pre: seq<Option<Vote>>, b: BlockID)
    requires Rebuilt(t, u, pre) && Weight(u.vals, Signers(pre, b)) > Threshold(u.vals)
    ensures u.maj23 == Some(b)
  {
    EntryWeight(t, u, pre, b);
    ThresholdExact(u.vals);
    if u.maj23.Some? && u.maj23.value != b {
      EntryWeight(t, u, pre, u.maj23.value);
      QuorumsOverlap(u.vals, Signers(pre, b), Signers(pre, u.maj23.value));
      WeightEmpty(u.vals, Signers(pre, b) * Signers(pre, u.maj23.value));
      SumNonNegative(u.vals);
    }
  }

  lemma EntryWeight(t: Tally, u: Tally, pre: seq<Option<Vote>>, b: BlockID)
    requires Rebuilt(t, u, pre)
    ensures b in u.byBlock ==> u.byBlock[b].sum == Weight(u.vals, Signers(pre, b))
    ensures Weight(u.vals, Signers(pre, b)) > 0 ==> b in u.byBlock
  {
    if b in u.byBlock {
      assert BlockInv(u, b, u.byBlock[b]);
      assert Entry(u, b) == u.byBlock[b].votes;
      assert Voters(Filtered(pre, b, |u.vals|)) == Signers(pre, b);
    } else {
      forall i | i in Signers(pre, b) ensures Entry(u, b)[i].Some? {
        assert Entry(u, b) == Filtered(pre, b, |u.vals|);
      }
      WeightEmpty(u.vals, Signers(pre, b));
    }
  }

  // A commit that VerifyCommit accepts rebuilds the same majority exactly when its
  // precommits are in place; otherwise reconstructLastCommit panics.
  lemma ReconstructIff(vals: seq<Validator>, chain: ChainID, b: BlockID, height: int, c: Commit)
    requires ExactPowers(vals) && Keyed(vals) && Certifies(vals, chain, b, height, c)
    ensures TallyInv(NewTally(chain, height, CommitRound(c), Precommit, vals))
    ensures var r := Feed(NewTally(chain, height, CommitRound(c), Precommit, vals), c.precommits);
      && (r.Some? <==> InPlace(vals, c.precommits))
      && (r.Some? ==> r.value.maj23 == Some(b))
  {
    hide TallyInv, Rebuilt;
    NewTallyInv(chain, height, CommitRound(c), Precommit, vals);
    var t := NewTally(chain, height, CommitRound(c), Precommit, vals);
    FeedIff(t, c.precommits);
    var r := Feed(t, c.precommits);
    if r.Some? {
      TallyFits(vals, Signers(c.precommits, b));
      RebuiltTag(t, r.value, c.precommits);
      RebuiltMajority(t, r.value, c.precommits, b);
    }
  }

  // The commit with another validator index in the vote at position `i`.
  function Misplaced(c: Commit, i: nat, index: int): Commit
    requires i < |c.precommits| && c.precommits[i].Some?
  {
    c.(precommits := c.precommits[i := Some(c.precommits[i].value.(index := index))])
  }

  // The index is under no signature, and VerifyCommit does not look at it: every
  // accepted commit has variants that are accepted too and do not rebuild.
  lemma MisplacedCommit(vals: seq<Validator>, chain: ChainID, b: BlockID, height: int, c: Commit, i: nat, index: int)
    requires ExactPowers(vals) && Keyed(vals) && Certifies(vals, chain, b, height, c)
    requires i < |c.precommits| && c.precommits[i].Some? && index != i
    ensures var c' := Misplaced(c, i, index);
      && Certifies(vals, chain, b, height, c')
      && TallyInv(NewTally(chain, height, CommitRound(c'), Precommit, vals))
      && Feed(NewTally(chain, height, CommitRound(c'), Precommit, vals), c'.precommits).None?
  {
    var c' := Misplaced(c, i, index);
    FirstButIndex(c.precommits, c'.precommits);
    assert Signers(c'.precommits, b) == Signers(c.precommits, b);
    hide TallyInv, Rebuilt;
    assert !InPlace(vals, c'.precommits) by { assert c'.precommits[i].value.index != i; }
    ReconstructIff(vals, chain, b, height, c');
  }

  lemma {:induction false} FirstButIndex(pre: seq<Option<Vote>>, pre': seq<Option<Vote>>)
    requires |pre| == |pre'|
    requires forall k :: 0 <= k < |pre| ==> pre[k].Some? == pre'[k].Some?
    requires forall k :: 0 <= k < |pre| && pre[k].Some? ==>
      pre'[k].value == pre[k].value.(index := pre'[k].value.index)
    ensures First(pre).Some? == First(pre').Some?
    ensures First(pre).Some? ==>
      First(pre').value.height == First(pre).value.height && First(pre').value.round == First(pre).value.round
  {
    if pre != [] && pre[0].None? { FirstButIndex(pre[1..], pre'[1..]); }
  }

  // The commit round trip: what MakeCommit makes of any reachable precommit vote
  // set gives back its majority.
  lemma CommitRoundTrip(t: Tally)
    requires TallyInv(t) && t.kind == Precommit && t.maj23.Some? && Keyed(t.vals)
    ensures TallyInv(NewTally(t.chain, t.height, CommitRound(MakeCommit(t)), Precommit, t.vals))
    ensures var c := MakeCommit(t);
            var r := Feed(NewTally(t.chain, t.height, CommitRound(c), Precommit, t.vals), c.precommits);
      r.Some? && r.value.maj23 == t.maj23 && r.value.votes == t.votes
  {
    ExactOfTally(t);
    hide TallyInv, Rebuilt;
    var c := MakeCommit(t);
    MadeCommitCertifies(t);
    ReconstructIff(t.vals, t.chain, t.maj23.value, t.height, c);
    var t0 := NewTally(t.chain, t.height, CommitRound(c), Precommit, t.vals);
    FeedIff(t0, c.precommits);
    RebuiltVotes(t0, Feed(t0, c.precommits).value, c.precommits);
  }

  lemma ExactOfTally(t: Tally)
    requires TallyInv(t)
    ensures ExactPowers(t.vals)
  {
  }

  lemma RebuiltVotes(t: Tally, u: Tally, pre: seq<Option<Vote>>)
    requires Rebuilt(t, u, pre) && |pre| == |t.vals|
    ensures u.votes == pre
  {
  }

  // reconstructLastCommit; the flag is false where the source panics.
  method ReconstructLastCommit(chain: ChainID, height: int, vals: seq<Validator>, c: Commit)
    returns (lastCommit: VoteSet, ok: bool)
    requires height != 0 && ExactPowers(vals)
    ensures fresh(lastCommit) && lastCommit.Valid()
    ensures TallyInv(NewTally(chain, height, CommitRound(c), Precommit, vals))
    ensures var r := Feed(NewTally(chain, height, CommitRound(c), Precommit, vals), c.precommits);
      && (ok <==> r.Some? && r.value.maj23.Some?)
      && (ok ==> lastCommit.View() == r.value)
  {
    hide TallyInv, NewTally;
    NewTallyInv(chain, height, CommitRound(c), Precommit, vals);
    lastCommit := new VoteSet(chain, height, CommitRound(c), Precommit, vals);
    ok := FeedAll(lastCommit, c.precommits);
    if ok { ok := lastCommit.HasTwoThirdsMajority(); }
  }

  // Its loop over the precommits
  method FeedAll(voteSet: VoteSet, pre: seq<Option<Vote>>) returns (ok: bool)
    requires voteSet.Valid()
    modifies voteSet
    ensures voteSet.Valid() && ok == Feed(old(voteSet.View()), pre).Some?
    ensures ok ==> Feed(old(voteSet.View()), pre) == Some(voteSet.View())
  {
    hide TallyInv, VoteSet.View, VoteSets.AddVote;
    var k := 0;
    while k < |pre|
      invariant 0 <= k <= |pre|
      invariant voteSet.Valid() && Feed(old(voteSet.View()), pre[..k]) == Some(voteSet.View())
    {
      assert pre[..k + 1][..k] == pre[..k];
      if pre[k].Some? {
        var added, err := voteSet.AddVote(pre[k].value);
        if !added || err != NoError {
          FeedStops(old(voteSet.View()), pre, k + 1);
          return false;
        }
      }
      k := k + 1;
    }
    assert pre[..k] == pre;
    return true;
  }

  lemma {:induction false} FeedStops(t: Tally, pre: seq<Option<Vote>>, k: nat)
    requires TallyInv(t) && k <= |pre| && Feed(t, pre[..k]).None?
    ensures Feed(t, pre).None?
    decreases |pre|
  {
    if k < |pre| {
      assert pre[..|pre| - 1][..k] == pre[..k];
      FeedStops(t, pre[..|pre| - 1], k);
    } else {
      assert pre[..k] == pre;
    }
  }
}
