// ValidatorSet.VerifyCommitAny of types/validator_set.go: does a commit signed by
// a new validator set also convince those who only know an old one?
module CommitsAny {
  import opened Arith
  import opened Types
  import opened Power
  import opened Commits

  // GetByAddress, by position.
  function Find(vals: seq<Validator>, a: Address): (i: int)
    ensures -1 <= i < |vals|
    ensures i >= 0 ==> vals[i].addr == a
    ensures i < 0 ==> forall k :: 0 <= k < |vals| ==> vals[k].addr != a
  {
    if vals == [] then -1
    else
      var n := |vals| - 1;
      if vals[n].addr == a then n else Find(vals[..n], a)
  }

  // Which position of the commit speaks for each old validator seen so far, or
  // None where the check fails.  A second vote under one address is skipped.
  function Scan(known: seq<Validator>, chain: ChainID, b: BlockID, height: int, round: int, pre: seq<Option<Vote>>)
    : (seats: Option<map<int, int>>)
    ensures seats.Some? ==> forall vi :: vi in seats.value ==> 0 <= vi < |known| && 0 <= seats.value[vi] < |pre|
  {
    if pre == [] then Some(map[])
    else
      var n := |pre| - 1;
      var seats := Scan(known, chain, b, height, round, pre[..n]);
      if seats.None? then None else ScanOne(known, chain, b, height, round, seats.value, pre[n], n)
  }

  // One turn of the loop, at position `n`.
  function ScanOne(known: seq<Validator>, chain: ChainID, b: BlockID, height: int, round: int,
                   seats: map<int, int>, precommit: Option<Vote>, n: int): Option<map<int, int>>
  {
    if precommit.None? then Some(seats)
    else
      var v := precommit.value;
      var vi := Find(known, v.addr);
      if !Uniform(v, height, round) then None
      else if v.block != b || vi < 0 || vi in seats then Some(seats)
      else if !SignedBy(v, chain, known[vi].key) then None
      else Some(seats[vi := n])
  }

  // The positions where the new validator is the old one that signed.
  function Counted(known: seq<Validator>, next: seq<Validator>, seats: map<int, int>): set<int>
    requires forall vi :: vi in seats ==> 0 <= vi < |known| && 0 <= seats[vi] < |next|
  {
    set vi | vi in seats && next[seats[vi]].key == known[vi].key :: seats[vi]
  }

  predicate AcceptsAny(known: seq<Validator>, next: seq<Validator>, chain: ChainID, b: BlockID,
                       height: int, c: Commit)
  {
    && |c.precommits| == |next| && CommitHeight(c) == height
    && var seats := Scan(known, chain, b, height, CommitRound(c), c.precommits);
       && seats.Some?
       && Power64(known, seats.value.Keys) > Threshold(known)
       && Power64(next, Counted(known, next, seats.value)) > Threshold(next)
  }

  // Position `idx` holds a precommit for `b` that old validator `vi` signed.
  predicate Vouches(known: seq<Validator>, chain: ChainID, b: BlockID, height: int, round: int,
                    pre: seq<Option<Vote>>, vi: int, idx: int)
    requires 0 <= vi < |known| && 0 <= idx < |pre|
  {
    && pre[idx].Some? && Uniform(pre[idx].value, height, round) && pre[idx].value.block == b
    && pre[idx].value.addr == known[vi].addr && SignedBy(pre[idx].value, chain, known[vi].key)
  }

  // Nobody counts twice: different old validators are vouched for at different positions.
  lemma {:induction false} ScanSound(known: seq<Validator>, chain: ChainID, b: BlockID, height: int, round: int,
                                     pre: seq<Option<Vote>>)
    requires Scan(known, chain, b, height, round, pre).Some?
    ensures var seats := Scan(known, chain, b, height, round, pre).value;
      && (forall vi :: vi in seats ==> Vouches(known, chain, b, height, round, pre, vi, seats[vi]))
      && (forall vi, vj :: vi in seats && vj in seats && seats[vi] == seats[vj] ==> vi == vj)
  {
    if pre != [] { ScanSound(known, chain, b, height, round, pre[..|pre| - 1]); }
  }

  // Acceptance means: over two thirds of the old power signed the block, each
  // validator once, and those of them still in the new set hold over two thirds
  // of the new power, under the same keys.
  lemma AcceptedAnyIsSigned(known: seq<Validator>, next: seq<Validator>, chain: ChainID, b: BlockID,
                            height: int, c: Commit)
    requires ExactPowers(known) && ExactPowers(next) && AcceptsAny(known, next, chain, b, height, c)
    ensures var seats := Scan(known, chain, b, height, CommitRound(c), c.precommits).value;
      && (forall vi :: vi in seats ==> Vouches(known, chain, b, height, CommitRound(c), c.precommits, vi, seats[vi]))
      && (forall vi, vj :: vi in seats && vj in seats && seats[vi] == seats[vj] ==> vi == vj)
      && Weight(known, seats.Keys) > Threshold(known)
      && Weight(next, Counted(known, next, seats)) > Threshold(next)
  {
    var seats := Scan(known, chain, b, height, CommitRound(c), c.precommits).value;
    ScanSound(known, chain, b, height, CommitRound(c), c.precommits);
    TallyFits(known, seats.Keys);
    TallyFits(next, Counted(known, next, seats));
  }

  // With under a third of the old power faulty, a correct old validator signed it.
  lemma AcceptedAnyIsTrusted(known: seq<Validator>, next: seq<Validator>, chain: ChainID, b: BlockID,
                             height: int, c: Commit,
                             faulty: set<int>)
    requires ExactPowers(known) && ExactPowers(next) && AcceptsAny(known, next, chain, b, height, c)
    requires 3 * Weight(known, faulty) < Sum(known)
    ensures exists vi, idx ::
      && 0 <= vi < |known| && vi !in faulty && 0 <= idx < |c.precommits|
      && Vouches(known, chain, b, height, CommitRound(c), c.precommits, vi, idx)
  {
    AcceptedAnyIsSigned(known, next, chain, b, height, c);
    var seats := Scan(known, chain, b, height, CommitRound(c), c.precommits).value;
    var vi := CorrectInQuorum(known, seats.Keys, faulty);
    assert Vouches(known, chain, b, height, CommitRound(c), c.precommits, vi, seats[vi]);
  }

  lemma CountedNext(known: seq<Validator>, next: seq<Validator>, seats: map<int, int>, vi: int, n: nat)
    requires forall k :: k in seats ==> 0 <= k < |known| && 0 <= seats[k] < n
    requires n < |next| && 0 <= vi < |known| && vi !in seats
    ensures Weight(next, Counted(known, next, seats[vi := n]))
         == Weight(next, Counted(known, next, seats)) + if next[n].key == known[vi].key then next[n].power else 0
    ensures Weight(known, seats[vi := n].Keys) == Weight(known, seats.Keys) + known[vi].power
  {
    var seats' := seats[vi := n];
    WeightInsert(known, seats.Keys, vi);
    assert seats'.Keys == seats.Keys + {vi};
    forall k | k in seats ensures seats'[k] == seats[k] {}
    if next[n].key == known[vi].key {
      forall x | x in Counted(known, next, seats) ensures x in Counted(known, next, seats') {
        var k :| k in seats && next[seats[k]].key == known[k].key && seats[k] == x;
        assert k in seats' && seats'[k] == x;
      }
      assert seats'[vi] == n;
      assert Counted(known, next, seats') == Counted(known, next, seats) + {n};
      WeightInsert(next, Counted(known, next, seats), n);
    } else {
      forall x | x in Counted(known, next, seats) ensures x in Counted(known, next, seats') {
        var k :| k in seats && next[seats[k]].key == known[k].key && seats[k] == x;
        assert k in seats' && seats'[k] == x;
      }
      assert Counted(known, next, seats') == Counted(known, next, seats);
    }
  }

  // The running state of the loop: who was seen, and the power on either side.
  ghost predicate Tallied(known: seq<Validator>, next: seq<Validator>, seats: map<int, int>, n: int,
                          seen: set<int>, oldPower: int, newPower: int)
  {
    && n <= |next| && (forall k :: k in seats ==> 0 <= k < |known| && 0 <= seats[k] < n)
    && seen == seats.Keys && oldPower == Power64(known, seen) && newPower == Power64(next, Counted(known, next, seats))
  }

  lemma TalliedNone(known: seq<Validator>, next: seq<Validator>)
    ensures Tallied(known, next, map[], 0, {}, 0, 0)
  {
    var none: map<int, int> := map[];
    WeightEmpty(known, {});
    WeightEmpty(next, Counted(known, next, none));
  }

  lemma TalliedNext(known: seq<Validator>, next: seq<Validator>, seats: map<int, int>, n: nat,
                    seen: set<int>, oldPower: Int64, newPower: Int64, vi: int)
    requires Tallied(known, next, seats, n, seen, oldPower, newPower) && n < |next| && 0 <= vi < |known| && vi !in seen
    ensures Tallied(known, next, seats[vi := n], n + 1, seen + {vi}, Wrap(oldPower + known[vi].power),
                    if next[n].key == known[vi].key then Wrap(newPower + next[n].power) else newPower)
  {
    var seats' := seats[vi := n];
    CountedNext(known, next, seats, vi, n);
    assert seats'.Keys == seen + {vi};
    WrapAdd(Weight(known, seen), known[vi].power);
    WrapAdd(Weight(next, Counted(known, next, seats)), next[n].power);
  }

  method VerifyCommitAny(known: seq<Validator>, next: seq<Validator>, chain: ChainID, b: BlockID,
                         height: int, c: Commit)
    returns (err: CommitError)
    ensures err == Accepted <==> AcceptsAny(known, next, chain, b, height, c)
  {
    if |next| != |c.precommits| { return WrongSize; }
    if height != CommitHeight(c) { return WrongHeight; }
    var pre, round := c.precommits, CommitRound(c);
    var oldPower: Int64, newPower: Int64, seen: set<int> := 0, 0, {};
    ghost var seats: map<int, int> := map[];
    TalliedNone(known, next);
    var idx := 0;
    while idx < |pre|
      invariant 0 <= idx <= |pre|
      invariant Scan(known, chain, b, height, round, pre[..idx]) == Some(seats)
      invariant Tallied(known, next, seats, idx, seen, oldPower, newPower)
    {
      var bad;
      ghost var seats';
      bad, seen, oldPower, newPower, seats' :=
        CountOne(known, next, chain, b, height, round, seats, pre[idx], idx, seen, oldPower, newPower);
      assert pre[..idx + 1][..idx] == pre[..idx];
      if bad.Some? {
        ScanStops(known, chain, b, height, round, pre, idx + 1);
        return bad.value;
      }
      seats, idx := seats', idx + 1;
    }
    assert pre[..idx] == pre;
    if oldPower <= Threshold(known) { return InsufficientPower; }
    if newPower <= Threshold(next) { return InsufficientNewPower; }
    return Accepted;
  }

  // The body of its loop; `bad` is the error it returns with, if any.
  method CountOne(known: seq<Validator>, next: seq<Validator>, chain: ChainID, b: BlockID, height: int, round: int,
                  ghost seats: map<int, int>, precommit: Option<Vote>, n: nat,
                  seen: set<int>, oldPower: Int64, newPower: Int64)
    returns (bad: Option<CommitError>, seen': set<int>, oldPower': Int64, newPower': Int64, ghost seats': map<int, int>)
    requires n < |next|
    requires Tallied(known, next, seats, n, seen, oldPower, newPower)
    ensures bad.Some? ==> bad.value != Accepted && ScanOne(known, chain, b, height, round, seats, precommit, n).None?
    ensures bad.None? ==>
      && ScanOne(known, chain, b, height, round, seats, precommit, n) == Some(seats')
      && Tallied(known, next, seats', n + 1, seen', oldPower', newPower')
  {
    hide Counted, Weight;
    bad, seen', oldPower', newPower', seats' := None, seen, oldPower, newPower, seats;
    if precommit.None? { return; }
    var v := precommit.value;
    if v.height != height { bad := Some(WrongHeight); return; }
    if v.round != round { bad := Some(WrongRound); return; }
    if v.kind != Precommit { bad := Some(NotPrecommit); return; }
    if b != v.block { return; }
    var vi := Find(known, v.addr);
    if vi < 0 || vi in seen { return; }
    if !SignedBy(v, chain, known[vi].key) { bad := Some(BadSignature); return; }
    TalliedNext(known, next, seats, n, seen, oldPower, newPower, vi);
    seats', seen', oldPower' := seats[vi := n], seen + {vi}, Wrap(oldPower + known[vi].power);
    if next[n].key == known[vi].key { newPower' := Wrap(newPower + next[n].power); }
  }

  lemma {:induction false} ScanStops(known: seq<Validator>, chain: ChainID, b: BlockID, height: int, round: int,
                                     pre: seq<Option<Vote>>, k: nat)
    requires k <= |pre| && Scan(known, chain, b, height, round, pre[..k]).None?
    ensures Scan(known, chain, b, height, round, pre).None?
    decreases |pre|
  {
    if k < |pre| {
      assert pre[..|pre| - 1][..k] == pre[..k];
      ScanStops(known, chain, b, height, round, pre[..|pre| - 1], k);
    } else {
      assert pre[..k] == pre;
    }
  }
}
