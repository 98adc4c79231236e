// Voting power held by sets of validators, and the quorum facts every safety
// argument rests on.  Validators are referred to by their index in the set.
module Power {
  import opened Arith
  import opened Types

  // Power of the validators whose index is in `who`.
  function Weight(vals: seq<Validator>, who: set<int>): int {
    if vals == [] then 0
    else
      var n := |vals| - 1;
      Weight(vals[..n], who) + if n in who then vals[n].power else 0
  }

  function Sum(vals: seq<Validator>): int {
    if vals == [] then 0 else Sum(vals[..|vals| - 1]) + vals[|vals| - 1].power
  }

  // ValidatorSet.TotalVotingPower: the powers added left to right with clipping.
  function TotalVotingPower(vals: seq<Validator>): Int64 {
    if vals == [] then 0
    else SafeAddClip(TotalVotingPower(vals[..|vals| - 1]), vals[|vals| - 1].power)
  }

  // The threshold `TotalVotingPower()*2/3` that a majority has to exceed.
  function Threshold(vals: seq<Validator>): Int64 {
    TwoThirds64(TotalVotingPower(vals))
  }

  predicate NonNegative(vals: seq<Validator>) {
    forall i :: 0 <= i < |vals| ==> vals[i].power >= 0
  }

  // Powers on which the int64 threshold is the mathematical one (Arith.TwoThirdsExact).
  predicate ExactPowers(vals: seq<Validator>) {
    NonNegative(vals) && Sum(vals) <= MAX64 / 2
  }

  lemma {:induction false} SumNonNegative(vals: seq<Validator>)
    requires NonNegative(vals)
    ensures Sum(vals) >= 0
  {
    if vals != [] { SumNonNegative(vals[..|vals| - 1]); }
  }

  // On non-negative powers the clipped total is the clamped sum.
  lemma {:induction false} TotalIsClampedSum(vals: seq<Validator>)
    requires NonNegative(vals)
    ensures TotalVotingPower(vals) == Clamp(Sum(vals))
  {
    if vals != [] {
      var rest := vals[..|vals| - 1];
      TotalIsClampedSum(rest);
      SumNonNegative(rest);
      SafeAddClipIsClamp(TotalVotingPower(rest), vals[|vals| - 1].power);
    }
  }

  lemma ThresholdExact(vals: seq<Validator>)
    requires ExactPowers(vals)
    ensures Threshold(vals) == Sum(vals) * 2 / 3 >= 0
  {
    TotalIsClampedSum(vals);
    SumNonNegative(vals);
    TwoThirdsExact(TotalVotingPower(vals));
  }

  lemma {:induction false} WeightBounds(vals: seq<Validator>, who: set<int>)
    requires NonNegative(vals)
    ensures 0 <= Weight(vals, who) <= Sum(vals)
  {
    if vals != [] { WeightBounds(vals[..|vals| - 1], who); }
  }

  lemma {:induction false} WeightMonotone(vals: seq<Validator>, a: set<int>, b: set<int>)
    requires NonNegative(vals)
    requires forall i :: 0 <= i < |vals| && i in a ==> i in b
    ensures Weight(vals, a) <= Weight(vals, b)
  {
    if vals != [] { WeightMonotone(vals[..|vals| - 1], a, b); }
  }

  lemma {:induction false} WeightInsert(vals: seq<Validator>, who: set<int>, i: int)
    requires 0 <= i < |vals| && i !in who
    ensures Weight(vals, who + {i}) == Weight(vals, who) + vals[i].power
  {
    var n := |vals| - 1;
    if i == n {
      WeightAgree(vals[..n], who + {i}, who);
    } else {
      WeightInsert(vals[..n], who, i);
    }
  }

  lemma {:induction false} WeightAgree(vals: seq<Validator>, a: set<int>, b: set<int>)
    requires forall i :: 0 <= i < |vals| ==> (i in a <==> i in b)
    ensures Weight(vals, a) == Weight(vals, b)
  {
    if vals != [] { WeightAgree(vals[..|vals| - 1], a, b); }
  }

  lemma {:induction false} WeightEmpty(vals: seq<Validator>, who: set<int>)
    requires forall i :: 0 <= i < |vals| ==> i !in who
    ensures Weight(vals, who) == 0
  {
    if vals != [] { WeightEmpty(vals[..|vals| - 1], who); }
  }

  lemma {:induction false} WeightInclusionExclusion(vals: seq<Validator>, a: set<int>, b: set<int>)
    ensures Weight(vals, a) + Weight(vals, b) == Weight(vals, a + b) + Weight(vals, a * b)
  {
    if vals != [] { WeightInclusionExclusion(vals[..|vals| - 1], a, b); }
  }

  // Two majorities share more than one third of the power.
  lemma QuorumsOverlap(vals: seq<Validator>, a: set<int>, b: set<int>)
    requires ExactPowers(vals)
    requires Weight(vals, a) > Threshold(vals) && Weight(vals, b) > Threshold(vals)
    ensures 3 * Weight(vals, a * b) > Sum(vals)
  {
    ThresholdExact(vals);
    WeightInclusionExclusion(vals, a, b);
    WeightBounds(vals, a + b);
  }

  // A set heavier than another has a member outside it.
  lemma {:induction false} HeavierHasOther(vals: seq<Validator>, a: set<int>, b: set<int>) returns (i: int)
    requires NonNegative(vals)
    requires Weight(vals, a) > Weight(vals, b)
    ensures 0 <= i < |vals| && i in a && i !in b
  {
    var n := |vals| - 1;
    if n in a && n !in b {
      i := n;
    } else {
      i := HeavierHasOther(vals[..n], a, b);
    }
  }

  // With less than a third of the power faulty, a majority has a correct member ...
  lemma CorrectInQuorum(vals: seq<Validator>, a: set<int>, faulty: set<int>) returns (i: int)
    requires ExactPowers(vals)
    requires Weight(vals, a) > Threshold(vals)
    requires 3 * Weight(vals, faulty) < Sum(vals)
    ensures 0 <= i < |vals| && i in a && i !in faulty
  {
    ThresholdExact(vals);
    i := HeavierHasOther(vals, a, faulty);
  }

  // ... and two majorities have a correct member in common.
  lemma CorrectInBoth(vals: seq<Validator>, a: set<int>, b: set<int>, faulty: set<int>) returns (i: int)
    requires ExactPowers(vals)
    requires Weight(vals, a) > Threshold(vals) && Weight(vals, b) > Threshold(vals)
    requires 3 * Weight(vals, faulty) < Sum(vals)
    ensures 0 <= i < |vals| && i in a && i in b && i !in faulty
  {
    QuorumsOverlap(vals, a, b);
    i := HeavierHasOther(vals, a * b, faulty);
  }
}
