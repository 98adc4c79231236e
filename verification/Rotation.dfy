// Proposer rotation: ValidatorSet.IncrementAccum of types/validator_set.go and
// Validator.CompareAccum of types/validator.go.
//
// Every round each validator's accumulator grows by its power and the one with
// the most pays the total.  The heap is taken at its contract: Peek is the
// greatest element under CompareAccum.
module Rotation {
  import opened Arith
  import opened Types
  import opened Power

  // How many rounds IncrementAccum is asked to move on by.
  type Times = n: int | 0 <= n <= MAX64

  // CompareAccum prefers the higher accumulator, then the lower address.
  predicate Precedes(v: Validator, w: Validator) {
    v.accum > w.accum || (v.accum == w.accum && v.addr < w.addr)
  }

  // The top of the heap.
  function Mostest(vals: seq<Validator>): (m: int)
    requires vals != []
    ensures 0 <= m < |vals|
  {
    var n := |vals| - 1;
    if n == 0 then 0
    else
      var m := Mostest(vals[..n]);
      if Precedes(vals[n], vals[m]) then n else m
  }

  function Boosted(v: Validator, times: Times): Validator {
    v.(accum := SafeAddClip(v.accum, SafeMulClip(v.power, times)))
  }

  // Add VotingPower * times to each validator.
  function Boost(vals: seq<Validator>, times: Times): seq<Validator> {
    seq(|vals|, i requires 0 <= i < |vals| => Boosted(vals[i], times))
  }

  // The mostest validator pays the total.
  function Charge(vals: seq<Validator>): seq<Validator>
    requires vals != []
  {
    var m := Mostest(vals);
    vals[m := vals[m].(accum := SafeSubClip(vals[m].accum, TotalVotingPower(vals)))]
  }

  // The validators after `n` turns.
  function Charges(vals: seq<Validator>, n: nat): (r: seq<Validator>)
    requires vals != []
    ensures |r| == |vals|
  {
    if n == 0 then vals else Charge(Charges(vals, n - 1))
  }

  // Who took those turns.
  function Turns(vals: seq<Validator>, n: nat): (t: seq<int>)
    requires vals != []
    ensures |t| == n
  {
    if n == 0 then [] else Turns(vals, n - 1) + [Mostest(Charges(vals, n - 1))]
  }

  function Increment(vals: seq<Validator>, times: Times): (r: seq<Validator>)
    requires vals != []
    ensures |r| == |vals|
  {
    Charges(Boost(vals, times), times)
  }

  function IncrementTurns(vals: seq<Validator>, times: Times): seq<int>
    requires vals != []
  {
    Turns(Boost(vals, times), times)
  }

  // Nobody comes before the validator on top.
  lemma {:induction false} MostestIsFirst(vals: seq<Validator>, i: int)
    requires 0 <= i < |vals|
    ensures !Precedes(vals[i], vals[Mostest(vals)])
  {
    var n := |vals| - 1;
    if i < n { MostestIsFirst(vals[..n], i); }
  }

  // ---- Conservation ----

  function AccumSum(vals: seq<Validator>): int {
    if vals == [] then 0 else AccumSum(vals[..|vals| - 1]) + vals[|vals| - 1].accum
  }

  // The same validators but for their accumulators.
  predicate SameButAccum(a: seq<Validator>, b: seq<Validator>) {
    |a| == |b| && forall i :: 0 <= i < |a| ==> b[i] == a[i].(accum := b[i].accum)
  }

  predicate Positive(vals: seq<Validator>) {
    forall i :: 0 <= i < |vals| ==> vals[i].power > 0
  }

  predicate AboveMinus(vals: seq<Validator>, t: int) {
    forall i :: 0 <= i < |vals| ==> vals[i].accum > -t
  }

  lemma {:induction false} SumSameButAccum(a: seq<Validator>, b: seq<Validator>)
    requires SameButAccum(a, b)
    ensures Sum(a) == Sum(b)
  {
    if a != [] { SumSameButAccum(a[..|a| - 1], b[..|b| - 1]); }
  }

  lemma {:induction false} AccumSumUpdate(vals: seq<Validator>, m: int, v: Validator)
    requires 0 <= m < |vals|
    ensures AccumSum(vals[m := v]) == AccumSum(vals) - vals[m].accum + v.accum
  {
    var n := |vals| - 1;
    if m < n {
      AccumSumUpdate(vals[..n], m, v);
      assert vals[m := v][..n] == vals[..n][m := v];
    } else {
      assert vals[m := v][..n] == vals[..n];
    }
  }

  lemma {:induction false} PowerAtMostSum(vals: seq<Validator>, i: int)
    requires Positive(vals) && 0 <= i < |vals|
    ensures vals[i].power <= Sum(vals) && Sum(vals) > 0
  {
    var n := |vals| - 1;
    if i < n {
      PowerAtMostSum(vals[..n], i);
    } else if n > 0 {
      PowerAtMostSum(vals[..n], 0);
    }
  }

  // What one accumulator may reach when all are above -t.
  lemma {:induction false} AccumUpper(vals: seq<Validator>, i: int, t: int)
    requires AboveMinus(vals, t) && 0 <= i < |vals|
    ensures vals[i].accum <= AccumSum(vals) + (|vals| - 1) * t
  {
    var n := |vals| - 1;
    assert n * t == (n - 1) * t + t;
    if i < n {
      AccumUpper(vals[..n], i, t);
    } else {
      AccumLower(vals[..n], t);
    }
  }

  lemma {:induction false} AccumLower(vals: seq<Validator>, t: int)
    requires AboveMinus(vals, t)
    ensures AccumSum(vals) >= -|vals| * t
  {
    if vals != [] {
      AccumLower(vals[..|vals| - 1], t);
      assert -|vals| * t == -(|vals| - 1) * t - t;
    }
  }

  // Somebody is above zero when the sum is.
  lemma {:induction false} PositiveSumHasPositive(vals: seq<Validator>, bound: int)
    requires forall i :: 0 <= i < |vals| ==> vals[i].accum <= bound
    requires bound <= 0
    ensures AccumSum(vals) <= 0
  {
    if vals != [] { PositiveSumHasPositive(vals[..|vals| - 1], bound); }
  }

  lemma MostestIsPositive(vals: seq<Validator>)
    requires vals != [] && AccumSum(vals) > 0
    ensures vals[Mostest(vals)].accum > 0
  {
    var top := vals[Mostest(vals)].accum;
    forall i | 0 <= i < |vals| ensures vals[i].accum <= top { MostestIsFirst(vals, i); }
    if top <= 0 { PositiveSumHasPositive(vals, top); }
  }

  // A rotation in progress: total t, and `due` still to be charged.
  predicate Rotating(vals: seq<Validator>, t: int, due: int) {
    && vals != [] && Positive(vals) && Sum(vals) == t <= MAX64
    && AboveMinus(vals, t) && AccumSum(vals) == due
  }

  lemma ChargeEffect(vals: seq<Validator>, t: int)
    requires vals != [] && Positive(vals) && Sum(vals) == t <= MAX64 && AccumSum(vals) > 0
    ensures var m := Mostest(vals);
      && 0 < vals[m].accum && MIN64 <= vals[m].accum - t <= MAX64
      && Charge(vals) == vals[m := vals[m].(accum := vals[m].accum - t)]
  {
    PowerAtMostSum(vals, 0);
    MostestIsPositive(vals);
    TotalIsClampedSum(vals);
    SafeSubClipIsClamp(vals[Mostest(vals)].accum, t);
  }

  // One charge takes exactly t from one validator and nothing clips.
  lemma ChargeExact(vals: seq<Validator>, t: int, due: int)
    requires Rotating(vals, t, due) && due >= t
    ensures forall i :: 0 <= i < |vals| ==>
      Charge(vals)[i].accum == vals[i].accum - if i == Mostest(vals) then t else 0
    ensures Rotating(Charge(vals), t, due - t) && SameButAccum(vals, Charge(vals))
  {
    hide Charge, Mostest;
    PowerAtMostSum(vals, 0);
    ChargeEffect(vals, t);
    var m := Mostest(vals);
    AccumSumUpdate(vals, m, vals[m].(accum := vals[m].accum - t));
    SumSameButAccum(vals, Charge(vals));
  }

  // Nothing is clipped when this validator, or each of these, is boosted.
  predicate FitsOne(v: Validator, times: Times) {
    v.power * times <= MAX64 && v.accum + v.power * times <= MAX64
  }

  predicate Fits(vals: seq<Validator>, times: Times) {
    forall i :: 0 <= i < |vals| ==> FitsOne(vals[i], times)
  }

  // A boost is exact if it fits, and else falls short.
  lemma BoostedIff(v: Validator, times: Times)
    requires v.power > 0
    ensures var a := Boosted(v, times).accum;
      v.accum <= a <= v.accum + v.power * times && (a == v.accum + v.power * times <==> FitsOne(v, times))
  {
    MulMonotone(0, v.power, times);
    SafeMulClipIsClamp(v.power, times);
    SafeAddClipIsClamp(v.accum, SafeMulClip(v.power, times));
  }

  // Enough room for `times` rounds at once, whatever the accumulators.
  predicate Room(vals: seq<Validator>, times: Times) {
    (|vals| - 1 + times) * Sum(vals) <= MAX64
  }

  lemma RoomForOne(n: int, times: Times, t: int, accum: int, power: int)
    requires n >= 1 && 0 < power <= t && -t < accum <= (n - 1) * t && (n - 1 + times) * t <= MAX64
    ensures accum + power * times <= MAX64 && power * times <= MAX64
  {
    MulMonotone(power, t, times);
    MulMonotone(0, t, n - 1);
    assert (n - 1 + times) * t == (n - 1) * t + t * times;
  }

  lemma RoomFits(vals: seq<Validator>, times: Times)
    requires Rotating(vals, Sum(vals), 0) && Room(vals, times)
    ensures Fits(vals, times)
  {
    var t := Sum(vals);
    forall i | 0 <= i < |vals| ensures FitsOne(vals[i], times) {
      PowerAtMostSum(vals, i);
      AccumUpper(vals, i, t);
      RoomForOne(|vals|, times, t, vals[i].accum, vals[i].power);
    }
  }

  lemma MulMonotone(a: int, b: int, n: nat)
    requires 0 <= a <= b
    ensures 0 <= a * n <= b * n
  {
  }

  lemma {:induction false} BoostSum(vals: seq<Validator>, times: Times)
    requires Positive(vals)
    ensures var sum := AccumSum(vals) + Sum(vals) * times;
      AccumSum(Boost(vals, times)) <= sum && (AccumSum(Boost(vals, times)) == sum <==> Fits(vals, times))
  {
    if vals != [] {
      var n := |vals| - 1;
      BoostSum(vals[..n], times);
      BoostedIff(vals[n], times);
      assert Boost(vals, times)[..n] == Boost(vals[..n], times);
      Distribute(Sum(vals[..n]), vals[n].power, times);
      FitsPrefix(vals, times);
    }
  }

  lemma FitsPrefix(vals: seq<Validator>, times: Times)
    requires vals != []
    ensures var n := |vals| - 1; Fits(vals, times) <==> Fits(vals[..n], times) && FitsOne(vals[n], times)
  {
    var n := |vals| - 1;
    assert vals == vals[..n] + [vals[n]];
    assert forall i :: 0 <= i < n ==> vals[..n][i] == vals[i];
  }

  lemma BoostExact(vals: seq<Validator>, times: Times)
    requires Rotating(vals, Sum(vals), 0) && Fits(vals, times)
    ensures Rotating(Boost(vals, times), Sum(vals), Sum(vals) * times) && SameButAccum(vals, Boost(vals, times))
    ensures forall i :: 0 <= i < |vals| ==> Boost(vals, times)[i].accum == vals[i].accum + vals[i].power * times
  {
    hide Sum, AccumSum, Boosted, FitsOne;
    var b := Boost(vals, times);
    forall i | 0 <= i < |vals| ensures b[i].accum == vals[i].accum + vals[i].power * times >= vals[i].accum {
      BoostedIff(vals[i], times);
    }
    BoostSum(vals, times);
    BoostSame(vals, times);
    SumSameButAccum(vals, b);
  }

  lemma BoostSame(vals: seq<Validator>, times: Times)
    ensures SameButAccum(vals, Boost(vals, times))
  {
  }

  // ---- What clipping does ----

  lemma ChargeSame(vals: seq<Validator>)
    requires vals != []
    ensures SameButAccum(vals, Charge(vals))
  {
  }

  // A charge takes exactly t, or it is clipped, and then all are in debt.
  lemma ChargeFalls(vals: seq<Validator>, t: int)
    requires vals != [] && Positive(vals) && Sum(vals) == t <= MAX64
    ensures AccumSum(Charge(vals)) == AccumSum(vals) - t || (AccumSum(Charge(vals)) < 0 && AccumSum(vals) < 0)
  {
    hide Mostest;
    var m := Mostest(vals);
    PowerAtMostSum(vals, 0);
    TotalIsClampedSum(vals);
    SafeSubClipIsClamp(vals[m].accum, t);
    AccumSumUpdate(vals, m, Charge(vals)[m]);
    if vals[m].accum - t < MIN64 {
      forall i | 0 <= i < |vals| ensures vals[i].accum <= -1 { MostestIsFirst(vals, i); }
      AllInDebt(vals);
    }
  }

  lemma {:induction false} AllInDebt(vals: seq<Validator>)
    requires forall i :: 0 <= i < |vals| ==> vals[i].accum <= -1
    ensures AccumSum(vals) <= -|vals|
  {
    if vals != [] { AllInDebt(vals[..|vals| - 1]); }
  }

  lemma {:induction false} ChargesFall(vals: seq<Validator>, t: int, n: nat)
    requires vals != [] && Positive(vals) && Sum(vals) == t <= MAX64
    ensures SameButAccum(vals, Charges(vals, n))
    ensures var sum := AccumSum(Charges(vals, n)); sum == AccumSum(vals) - n * t || sum < 0
  {
    hide Charge;
    PowerAtMostSum(vals, 0);
    if n > 0 {
      ChargesFall(vals, t, n - 1);
      var prev := Charges(vals, n - 1);
      SumSameButAccum(vals, prev);
      ChargeSame(prev);
      ChargeFalls(prev, t);
      Distribute(n - 1, 1, t);
    }
  }

  // From accumulators that add up to nothing or to a debt, the sum stays what it is
  // if the boost fits, and else falls below zero; and a debt is never made up.
  lemma IncrementFalls(vals: seq<Validator>, times: Times)
    requires vals != [] && Positive(vals) && Sum(vals) <= MAX64 && AccumSum(vals) <= 0
    ensures SameButAccum(vals, Increment(vals, times))
    ensures AccumSum(vals) < 0 || !Fits(vals, times) ==> AccumSum(Increment(vals, times)) < 0
  {
    hide Boost, Fits, Sum, AccumSum, Positive;
    var t, b := Sum(vals), Boost(vals, times);
    BoostSum(vals, times);
    BoostSame(vals, times);
    SumSameButAccum(vals, b);
    PositiveSame(vals, b);
    ChargesFall(b, t, times);
    SameTransitive(vals, b, Increment(vals, times));
  }

  lemma PositiveSame(a: seq<Validator>, b: seq<Validator>)
    requires SameButAccum(a, b) && Positive(a)
    ensures Positive(b)
  {
  }

  lemma SameTransitive(a: seq<Validator>, b: seq<Validator>, c: seq<Validator>)
    requires SameButAccum(a, b) && SameButAccum(b, c)
    ensures SameButAccum(a, c)
  {
  }

  // ---- Fairness ----

  function Count(turns: seq<int>, i: int): nat {
    if turns == [] then 0
    else Count(turns[..|turns| - 1], i) + if turns[|turns| - 1] == i then 1 else 0
  }

  lemma {:induction false} CountAppend(a: seq<int>, b: seq<int>, i: int)
    ensures Count(a + b, i) == Count(a, i) + Count(b, i)
  {
    if b == [] {
      assert a + b == a;
    } else {
      assert (a + b)[..|a + b| - 1] == a + b[..|b| - 1];
      CountAppend(a, b[..|b| - 1], i);
    }
  }

  // Each accumulator is what was earned less what was paid.
  predicate Ledger(base: seq<Validator>, vals: seq<Validator>, t: int, turns: seq<int>) {
    && SameButAccum(base, vals)
    && forall i :: 0 <= i < |vals| ==> vals[i].accum == base[i].accum - Count(turns, i) * t
  }

  lemma {:induction false} ChargesExact(vals: seq<Validator>, t: int, due: int, n: nat)
    requires Rotating(vals, t, due) && n * t <= due && vals != [] && t >= 0
    ensures Rotating(Charges(vals, n), t, due - n * t) && Ledger(vals, Charges(vals, n), t, Turns(vals, n))
  {
    hide Rotating, Charge;
    if n > 0 {
      Distribute(n - 1, 1, t);
      ChargesExact(vals, t, due, n - 1);
      var prev := Charges(vals, n - 1);
      ChargeExact(prev, t, due - (n - 1) * t);
      LedgerStep(vals, prev, Charge(prev), t, Turns(vals, n - 1), Mostest(prev));
    } else {
      assert Turns(vals, 0) == [];
    }
  }

  lemma LedgerStep(base: seq<Validator>, prev: seq<Validator>, next: seq<Validator>, t: int, turns: seq<int>, m: int)
    requires Ledger(base, prev, t, turns) && SameButAccum(prev, next)
    requires forall i :: 0 <= i < |prev| ==> next[i].accum == prev[i].accum - if i == m then t else 0
    ensures Ledger(base, next, t, turns + [m])
  {
    forall i | 0 <= i < |next| ensures next[i].accum == base[i].accum - Count(turns + [m], i) * t {
      CountAppend(turns, [m], i);
      Distribute(Count(turns, i), 1, t);
    }
  }

  // IncrementAccum conserves the sum of accumulators, for any number of rounds at once,
  // if and only if nothing is clipped; and then each stays above minus the total.
  lemma IncrementConservesIff(vals: seq<Validator>, times: Times)
    requires Rotating(vals, Sum(vals), 0)
    ensures AccumSum(Increment(vals, times)) == 0 <==> Fits(vals, times)
    ensures Fits(vals, times) ==>
      var r := Increment(vals, times);
      && Rotating(r, Sum(vals), 0) && SameButAccum(vals, r)
      && forall i :: 0 <= i < |vals| ==>
           r[i].accum == vals[i].accum + vals[i].power * times - Count(IncrementTurns(vals, times), i) * Sum(vals)
  {
    var t := Sum(vals);
    PowerAtMostSum(vals, 0);
    if Fits(vals, times) {
      BoostExact(vals, times);
      ChargesExact(Boost(vals, times), t, t * times, times);
    } else {
      IncrementFalls(vals, times);
    }
  }

  // Any sequence of calls, with the turns taken so far.
  function Run(vals: seq<Validator>, calls: seq<Times>): (r: (seq<Validator>, seq<int>))
    requires vals != []
    ensures |r.0| == |vals|
    decreases |calls|
  {
    if calls == [] then (vals, [])
    else
      var n := |calls| - 1;
      var (v, turns) := Run(vals, calls[..n]);
      (Increment(v, calls[n]), turns + IncrementTurns(v, calls[n]))
  }

  function Rounds(calls: seq<Times>): nat {
    if calls == [] then 0 else Rounds(calls[..|calls| - 1]) + calls[|calls| - 1]
  }

  // Each accumulator is what it was, plus the power of every round, less T for every turn.
  predicate Accounts(vals: seq<Validator>, v: seq<Validator>, rounds: int, turns: seq<int>) {
    && SameButAccum(vals, v)
    && forall i :: 0 <= i < |vals| ==>
         v[i].accum == vals[i].accum + rounds * vals[i].power - Count(turns, i) * Sum(vals)
  }

  lemma AccountsNext(vals: seq<Validator>, v: seq<Validator>, rounds: int, turns: seq<int>, times: Times)
    requires vals != [] && Accounts(vals, v, rounds, turns) && Sum(vals) == Sum(v)
    requires Rotating(v, Sum(v), 0) && Fits(v, times)
    ensures Accounts(vals, Increment(v, times), rounds + times, turns + IncrementTurns(v, times))
  {
    hide Rotating, Increment, IncrementTurns, Fits, Sum, Count;
    IncrementConservesIff(v, times);
    var more := IncrementTurns(v, times);
    forall i | 0 <= i < |vals|
      ensures Increment(v, times)[i].accum
           == vals[i].accum + (rounds + times) * vals[i].power - Count(turns + more, i) * Sum(vals)
    {
      CountAppend(turns, more, i);
      Settle(vals[i].accum, v[i].accum, vals[i].power, rounds, times, Count(turns, i), Count(more, i), Sum(vals));
    }
  }

  lemma Settle(base: int, accum: int, p: int, r: int, k: int, c: int, d: int, t: int)
    requires accum == base + r * p - c * t
    ensures accum + p * k - d * t == base + (r + k) * p - (c + d) * t
  {
  }

  // No call of the run clips.
  ghost predicate Unclipped(vals: seq<Validator>, calls: seq<Times>)
    requires vals != []
  {
    forall j :: 0 <= j < |calls| ==> Fits(Run(vals, calls[..j]).0, calls[j])
  }

  lemma UnclippedPrefix(vals: seq<Validator>, calls: seq<Times>)
    requires vals != [] && calls != []
    ensures var n := |calls| - 1;
      Unclipped(vals, calls) <==> Unclipped(vals, calls[..n]) && Fits(Run(vals, calls[..n]).0, calls[n])
  {
    hide Run, Fits;
    var n := |calls| - 1;
    assert forall j :: 0 <= j < n ==> calls[..n][..j] == calls[..j];
    if Unclipped(vals, calls[..n]) && Fits(Run(vals, calls[..n]).0, calls[n]) {
      forall j | 0 <= j < |calls| ensures Fits(Run(vals, calls[..j]).0, calls[j]) {
        if j < n { assert Fits(Run(vals, calls[..n][..j]).0, calls[..n][j]); }
      }
    }
  }

  // Over any run the sum of accumulators is conserved if and only if no call clips; and
  // then each accumulator is what was earned less what was paid.
  lemma {:induction false} RunLedgerIff(vals: seq<Validator>, calls: seq<Times>)
    requires vals != [] && Rotating(vals, Sum(vals), 0)
    ensures var v := Run(vals, calls).0;
      SameButAccum(vals, v) && AccumSum(v) <= 0 && (AccumSum(v) == 0 <==> Unclipped(vals, calls))
    ensures Unclipped(vals, calls) ==>
      var (v, turns) := Run(vals, calls); Rotating(v, Sum(vals), 0) && Accounts(vals, v, Rounds(calls), turns)
    decreases |calls|
  {
    hide Increment, IncrementTurns, Fits, Sum, AccumSum, Accounts;
    if calls == [] {
      AccountsNone(vals);
    } else {
      var n := |calls| - 1;
      RunLedgerIff(vals, calls[..n]);
      UnclippedPrefix(vals, calls);
      var (v, turns) := Run(vals, calls[..n]);
      SumSameButAccum(vals, v);
      IncrementFalls(v, calls[n]);
      if Unclipped(vals, calls[..n]) { IncrementConservesIff(v, calls[n]); }
      if Unclipped(vals, calls) { AccountsNext(vals, v, Rounds(calls[..n]), turns, calls[n]); }
    }
  }

  // Room for each call is enough.
  lemma {:induction false} RoomIsEnough(vals: seq<Validator>, calls: seq<Times>)
    requires vals != [] && Rotating(vals, Sum(vals), 0)
    requires forall j :: 0 <= j < |calls| ==> Room(vals, calls[j])
    ensures Unclipped(vals, calls)
    decreases |calls|
  {
    hide Rotating, Increment, Fits, Sum, Accounts, Unclipped;
    if calls == [] {
      NothingClips(vals);
    } else {
      var n := |calls| - 1;
      RoomIsEnough(vals, calls[..n]);
      RunLedgerIff(vals, calls[..n]);
      SameRoom(vals, Run(vals, calls[..n]).0, calls[n]);
      RoomFits(Run(vals, calls[..n]).0, calls[n]);
      UnclippedPrefix(vals, calls);
    }
  }

  lemma NothingClips(vals: seq<Validator>)
    requires vals != []
    ensures Unclipped(vals, [])
  {
  }

  lemma AccountsNone(vals: seq<Validator>)
    ensures Accounts(vals, vals, 0, [])
  {
    assert forall i :: 0 <= i < |vals| ==> Count([], i) * Sum(vals) == 0;
  }

  lemma SameRoom(a: seq<Validator>, b: seq<Validator>, times: Times)
    requires SameButAccum(a, b) && Room(a, times)
    ensures Room(b, times) && Sum(a) == Sum(b)
  {
    SumSameButAccum(a, b);
  }

  lemma Distribute(a: int, b: int, c: int)
    ensures (a + b) * c == a * c + b * c == a * c + c * b
  {
  }

  lemma AccumBand(vals: seq<Validator>, t: int, i: int)
    requires Rotating(vals, t, 0) && 0 <= i < |vals|
    ensures -(|vals| - 1) * t <= vals[i].accum <= (|vals| - 1) * t
  {
    PowerAtMostSum(vals, i);
    AccumUpper(vals, i, t);
    if |vals| > 1 {
      MulMonotone(0, t, |vals| - 2);
      Distribute(|vals| - 2, 1, t);
    } else {
      assert vals[..0] == [];
      assert AccumSum(vals) == vals[0].accum;
    }
  }

  // The start of the chain: zero accumulators, positive powers.
  predicate FreshSet(vals: seq<Validator>) {
    && vals != [] && Positive(vals) && Sum(vals) <= MAX64
    && forall j :: 0 <= j < |vals| ==> vals[j].accum == 0
  }

  lemma FreshIsRotating(vals: seq<Validator>)
    requires FreshSet(vals)
    ensures Rotating(vals, Sum(vals), 0)
  {
  }

  // What validator `i` has earned in `k` rounds less what it paid for `c` turns.
  function Owed(vals: seq<Validator>, i: int, k: int, c: int): int
    requires 0 <= i < |vals|
  {
    k * vals[i].power - c * Sum(vals)
  }

  // Bounded fairness: from zero accumulators, after k rounds a validator of power
  // p with c turns has |k * p - c * T| <= (n - 1) * T.
  lemma BoundedFairness(vals: seq<Validator>, calls: seq<Times>, i: int)
    requires FreshSet(vals) && 0 <= i < |vals|
    requires Unclipped(vals, calls)
    ensures -(|vals| - 1) * Sum(vals)
      <= Owed(vals, i, Rounds(calls), Count(Run(vals, calls).1, i))
      <= (|vals| - 1) * Sum(vals)
  {
    hide Rotating, Run, Unclipped;
    FreshIsRotating(vals);
    RunLedgerIff(vals, calls);
    AccumBand(Run(vals, calls).0, Sum(vals), i);
  }

  // Nobody starves: once its power has added up to (n - 1) * T, a validator has had a turn.
  lemma NobodyStarves(vals: seq<Validator>, calls: seq<Times>, i: int)
    requires FreshSet(vals) && 0 <= i < |vals|
    requires Unclipped(vals, calls)
    requires Rounds(calls) * vals[i].power > (|vals| - 1) * Sum(vals)
    ensures i in Run(vals, calls).1
  {
    hide Rotating, Run, Unclipped, FreshSet, Sum, Count, Rounds;
    BoundedFairness(vals, calls, i);
    if i !in Run(vals, calls).1 { NoCount(Run(vals, calls).1, i); }
  }

  lemma {:induction false} NoCount(turns: seq<int>, i: int)
    requires i !in turns
    ensures Count(turns, i) == 0
  {
    if turns != [] { NoCount(turns[..|turns| - 1], i); }
  }

  // ---- A call that clips ----

  // Two validators, one of power 1 and one of 2^62 - 1.
  function Pair(a: Int64, b: Int64): seq<Validator> {
    [Validator(1, 1, 1, a), Validator(2, 2, 0x3fff_ffff_ffff_ffff, b)]
  }

  const TOTAL := 0x4000_0000_0000_0000

  lemma PairPower(a: Int64, b: Int64)
    ensures Positive(Pair(a, b)) && Sum(Pair(a, b)) == TotalVotingPower(Pair(a, b)) == TOTAL
  {
    var p := Pair(a, b);
    assert p[..1] == [p[0]] && p[..1][..0] == [];
    assert Sum(p[..1]) == 1;
    TotalIsClampedSum(p);
  }

  lemma PairTurn(a: Int64, b: Int64)
    requires if b > a then b - TOTAL >= MIN64 else a - TOTAL >= MIN64
    ensures Mostest(Pair(a, b)) == if b > a then 1 else 0
    ensures Charge(Pair(a, b)) == if b > a then Pair(a, b - TOTAL) else Pair(a - TOTAL, b)
  {
    PairPower(a, b);
    hide TotalVotingPower, Sum;
    var p := Pair(a, b);
    assert p[..1] == [p[0]];
    assert Mostest(p[..1]) == 0;
    SafeSubClipIsClamp(p[Mostest(p)].accum, TOTAL);
  }

  lemma BoostPair()
    ensures Boost(Pair(0, 0), 6) == Pair(6, MAX64)
  {
    SafeMulClipIsClamp(1, 6);
    SafeMulClipIsClamp(0x3fff_ffff_ffff_ffff, 6);
    SafeAddClipIsClamp(0, 6);
    SafeAddClipIsClamp(0, MAX64);
  }

  // Six rounds at once: the large validator's gain is clipped, and the small one has two
  // turns, outside the bound of one total.
  lemma ClippingIsUnfair()
    ensures FreshSet(Pair(0, 0)) && !Fits(Pair(0, 0), 6)
    ensures Owed(Pair(0, 0), 0, 6, Count(IncrementTurns(Pair(0, 0), 6), 0)) < -Sum(Pair(0, 0))
  {
    var p := Pair(6, MAX64);
    PairPower(0, 0);
    BoostPair();
    PairTurn(6, MAX64);
    PairTurn(6, TOTAL - 1);
    PairTurn(6, -1);
    PairTurn(6 - TOTAL, -1);
    PairTurn(6 - TOTAL, -1 - TOTAL);
    hide Charge, Sum, Positive;
    assert Charges(p, 0) == p && Turns(p, 0) == [];
    assert Charges(p, 1) == Pair(6, TOTAL - 1) && Turns(p, 1) == [1];
    assert Charges(p, 2) == Pair(6, -1) && Turns(p, 2) == [1, 1];
    assert Charges(p, 3) == Pair(6 - TOTAL, -1) && Turns(p, 3) == [1, 1, 0];
    assert Charges(p, 4) == Pair(6 - TOTAL, -1 - TOTAL) && Turns(p, 4) == [1, 1, 0, 1];
    assert Charges(p, 5) == Pair(6 - 2 * TOTAL, -1 - TOTAL) && Turns(p, 5) == [1, 1, 0, 1, 0];
    TwoTurns(Turns(p, 6));
  }

  lemma TwoTurns(turns: seq<int>)
    requires |turns| == 6 && turns[..5] == [1, 1, 0, 1, 0]
    ensures Count(turns, 0) >= 2
  {
    CountAppend([1, 1], [0], 0);
    CountAppend([1, 1, 0], [1], 0);
    CountAppend([1, 1, 0, 1], [0], 0);
    assert [1, 1, 0, 1] + [0] == turns[..5];
  }
}
