// types/validator_set.go: validators kept sorted by address, with a cached total.
// The set refines a finite map from addresses to validators.
module ValidatorSets {
  import opened Arith
  import opened Types
  import opened Power
  import opened Rotation

  predicate Sorted(vals: seq<Validator>) {
    forall i, j :: 0 <= i < j < |vals| ==> vals[i].addr < vals[j].addr
  }

  predicate DistinctAddresses(vals: seq<Validator>) {
    forall i, j :: 0 <= i < j < |vals| ==> vals[i].addr != vals[j].addr
  }

  // The map a list of validators stands for.
  function Contents(vals: seq<Validator>): map<Address, Validator> {
    if vals == [] then map[]
    else Contents(vals[..|vals| - 1])[vals[|vals| - 1].addr := vals[|vals| - 1]]
  }

  lemma {:induction false} ContentsAt(vals: seq<Validator>)
    requires DistinctAddresses(vals)
    ensures forall i :: 0 <= i < |vals| ==> vals[i].addr in Contents(vals) && Contents(vals)[vals[i].addr] == vals[i]
    ensures forall a :: a in Contents(vals) ==> exists i :: 0 <= i < |vals| && vals[i].addr == a
  {
    if vals != [] {
      var n := |vals| - 1;
      ContentsAt(vals[..n]);
      forall a | a in Contents(vals) ensures exists i :: 0 <= i < |vals| && vals[i].addr == a {
        if a != vals[n].addr {
          var i :| 0 <= i < n && vals[..n][i].addr == a;
          assert vals[i].addr == a;
        }
      }
    }
  }

  // The list is determined by the map, whatever history led to it.
  lemma {:induction false} SortedIsCanonical(a: seq<Validator>, b: seq<Validator>)
    requires Sorted(a) && Sorted(b) && Contents(a) == Contents(b)
    ensures a == b
  {
    hide Contents;
    if a == [] && b == [] {
    } else if b == [] {
      LastIsThere(a, b);
      assert false;
    } else if a == [] {
      LastIsThere(b, a);
      assert false;
    } else {
      var m, n := |a| - 1, |b| - 1;
      LastIsThere(a, b);
      LastIsThere(b, a);
      DropLast(a);
      DropLast(b);
      SortedIsCanonical(a[..m], b[..n]);
      assert a == a[..m] + [a[m]] && b == b[..n] + [b[n]];
    }
  }

  // Of two lists for one map, the last of one is in the other, not after its last.
  lemma LastIsThere(a: seq<Validator>, b: seq<Validator>)
    requires Sorted(a) && Sorted(b) && Contents(a) == Contents(b) && a != []
    ensures b != [] && a[|a| - 1].addr <= b[|b| - 1].addr
    ensures a[|a| - 1].addr == b[|b| - 1].addr ==> a[|a| - 1] == b[|b| - 1]
  {
    hide Contents;
    ContentsAt(a);
    ContentsAt(b);
    var last := a[|a| - 1].addr;
    assert last in Contents(b);
    var i :| 0 <= i < |b| && b[i].addr == last;
  }

  lemma DropLast(a: seq<Validator>)
    requires Sorted(a) && a != []
    ensures Contents(a[..|a| - 1]) == Contents(a) - {a[|a| - 1].addr}
  {
    var m := |a| - 1;
    LastNotBefore(a);
  }

  lemma LastNotBefore(a: seq<Validator>)
    requires Sorted(a) && a != []
    ensures a[|a| - 1].addr !in Contents(a[..|a| - 1])
  {
    hide Contents;
    ContentsAt(a[..|a| - 1]);
  }

  // A list with distinct addresses stands for `m` when it holds just the values of `m`.
  lemma ContentsIs(vals: seq<Validator>, m: map<Address, Validator>)
    requires DistinctAddresses(vals)
    requires forall i :: 0 <= i < |vals| ==> vals[i].addr in m && m[vals[i].addr] == vals[i]
    requires forall a :: a in m ==> exists i :: 0 <= i < |vals| && vals[i].addr == a
    ensures Contents(vals) == m
  {
    hide Contents;
    ContentsAt(vals);
    var c := Contents(vals);
    forall a | a in c ensures a in m && m[a] == c[a] {
      var i :| 0 <= i < |vals| && vals[i].addr == a;
    }
    forall a | a in m ensures a in c {
      var i :| 0 <= i < |vals| && vals[i].addr == a;
    }
  }

  lemma SortedIsDistinct(vals: seq<Validator>)
    requires Sorted(vals)
    ensures DistinctAddresses(vals)
  {
  }

  lemma RemoveSorted(vals: seq<Validator>, i: nat)
    requires Sorted(vals) && i < |vals|
    ensures Sorted(vals[..i] + vals[i + 1..])
  {
  }

  lemma InsertSorted(vals: seq<Validator>, i: nat, v: Validator)
    requires Sorted(vals) && i <= |vals|
    requires forall k :: 0 <= k < i ==> vals[k].addr < v.addr
    requires forall k :: i <= k < |vals| ==> v.addr < vals[k].addr
    ensures Sorted(vals[..i] + [v] + vals[i..])
  {
  }

  lemma InsertContents(vals: seq<Validator>, i: nat, v: Validator)
    requires Sorted(vals) && i <= |vals|
    requires forall k :: 0 <= k < i ==> vals[k].addr < v.addr
    requires forall k :: i <= k < |vals| ==> v.addr < vals[k].addr
    ensures var r := vals[..i] + [v] + vals[i..]; Sorted(r) && Contents(r) == Contents(vals)[v.addr := v]
  {
    hide Contents, Sorted, DistinctAddresses;
    var r, m := vals[..i] + [v] + vals[i..], Contents(vals)[v.addr := v];
    InsertSorted(vals, i, v);
    SortedIsDistinct(vals);
    SortedIsDistinct(r);
    ContentsAt(vals);
    forall a | a in m ensures exists k :: 0 <= k < |r| && r[k].addr == a {
      if a == v.addr {
        assert r[i].addr == a;
      } else {
        var k :| 0 <= k < |vals| && vals[k].addr == a;
        assert r[if k < i then k else k + 1] == vals[k];
      }
    }
    ContentsIs(r, m);
  }

  lemma ReplaceContents(vals: seq<Validator>, i: nat, v: Validator)
    requires Sorted(vals) && i < |vals| && vals[i].addr == v.addr
    ensures Sorted(vals[i := v]) && Contents(vals[i := v]) == Contents(vals)[v.addr := v]
  {
    hide Contents;
    var r, m := vals[i := v], Contents(vals)[v.addr := v];
    ContentsAt(vals);
    forall a | a in m ensures exists k :: 0 <= k < |r| && r[k].addr == a {
      var k :| 0 <= k < |vals| && vals[k].addr == a;
      assert r[k].addr == a;
    }
    ContentsIs(r, m);
  }

  lemma RemoveContents(vals: seq<Validator>, i: nat)
    requires Sorted(vals) && i < |vals|
    ensures var r := vals[..i] + vals[i + 1..]; Sorted(r) && Contents(r) == Contents(vals) - {vals[i].addr}
  {
    hide Contents, Sorted;
    var r, m := vals[..i] + vals[i + 1..], Contents(vals) - {vals[i].addr};
    RemoveSorted(vals, i);
    SortedIsDistinct(vals);
    SortedIsDistinct(r);
    ContentsAt(vals);
    forall a | a in m ensures exists k :: 0 <= k < |r| && r[k].addr == a {
      var k :| 0 <= k < |vals| && vals[k].addr == a;
      assert r[if k < i then k else k - 1] == vals[k];
    }
    ContentsIs(r, m);
  }

  lemma {:induction false} SameTotal(a: seq<Validator>, b: seq<Validator>)
    requires SameButAccum(a, b)
    ensures TotalVotingPower(a) == TotalVotingPower(b) && (Sorted(a) ==> Sorted(b))
  {
    if a != [] { SameTotal(a[..|a| - 1], b[..|b| - 1]); }
  }

  lemma BoostKeeps(vals: seq<Validator>, times: Times)
    ensures |Boost(vals, times)| == |vals| && TotalVotingPower(Boost(vals, times)) == TotalVotingPower(vals)
    ensures Sorted(vals) ==> Sorted(Boost(vals, times))
  {
    SameTotal(vals, Boost(vals, times));
  }

  lemma LastTurn(vals: seq<Validator>, times: Times)
    requires vals != [] && times > 0
    ensures IncrementTurns(vals, times)[times - 1] == Mostest(Charges(Boost(vals, times), times - 1))
  {
  }

  // What sort.Sort(ValidatorsByAddress) is for, on distinct addresses.
  method SortByAddress(vals: seq<Validator>) returns (r: seq<Validator>)
    requires DistinctAddresses(vals)
    ensures Sorted(r) && Contents(r) == Contents(vals) && |r| == |vals|
  {
    r := [];
    var k := 0;
    while k < |vals|
      invariant 0 <= k <= |vals|
      invariant Sorted(r) && Contents(r) == Contents(vals[..k]) && |r| == k
    {
      var v, i := vals[k], 0;
      while i < |r| && r[i].addr < v.addr
        invariant 0 <= i <= |r|
        invariant forall j :: 0 <= j < i ==> r[j].addr < v.addr
      {
        i := i + 1;
      }
      NotYet(vals, k, r);
      InsertContents(r, i, v);
      assert vals[..k + 1][..k] == vals[..k];
      r := r[..i] + [v] + r[i..];
      k := k + 1;
    }
    assert vals[..k] == vals;
  }

  lemma NotYet(vals: seq<Validator>, k: nat, r: seq<Validator>)
    requires DistinctAddresses(vals) && k < |vals| && Sorted(r) && Contents(r) == Contents(vals[..k])
    ensures forall j :: 0 <= j < |r| ==> r[j].addr != vals[k].addr
  {
    ContentsAt(r);
    ContentsAt(vals[..k]);
  }

  // What one entry of the application's answer to GetValidatorSet does.
  function ApplyUpdate(m: map<Address, Validator>, v: Validator): map<Address, Validator> {
    if v.addr !in m then m[v.addr := v]
    else if v.power == 0 then m - {v.addr}
    else m[v.addr := v]
  }

  function ApplyUpdates(m: map<Address, Validator>, updates: seq<Validator>): map<Address, Validator> {
    if updates == [] then m
    else ApplyUpdate(ApplyUpdates(m, updates[..|updates| - 1]), updates[|updates| - 1])
  }

  class ValidatorSet {
    var validators: seq<Validator>
    var proposer: Option<Validator>
    var totalVotingPower: Int64

    // The cache is empty or right.
    ghost predicate Valid()
      reads this
    {
      && Sorted(validators)
      && (totalVotingPower == 0 || totalVotingPower == Power.TotalVotingPower(validators))
    }

    // NewValidatorSet(nil)
    constructor Nil()
      ensures Valid() && validators == [] && proposer.None?
    {
      validators, proposer, totalVotingPower := [], None, 0;
    }

    // Copy
    constructor Copy(other: ValidatorSet)
      requires other.Valid()
      ensures Valid() && validators == other.validators && proposer == other.proposer
    {
      validators, proposer, totalVotingPower := other.validators, other.proposer, other.totalVotingPower;
    }

    // NewValidatorSet; the source panics on an empty list that is not nil.
    constructor (vals: seq<Validator>)
      requires DistinctAddresses(vals) && vals != []
      ensures Valid()
      ensures exists sorted :: Sorted(sorted) && sorted != [] && Contents(sorted) == Contents(vals)
                && validators == Increment(sorted, 1)
    {
      var sorted := SortByAddress(vals);
      validators, proposer, totalVotingPower := sorted, None, 0;
      new;
      IncrementAccum(1);
    }

    // sort.Search for the first validator whose address is not below `a`
    method Search(a: Address) returns (i: nat)
      requires Valid()
      ensures i <= |validators|
      ensures forall k :: 0 <= k < i ==> validators[k].addr < a
      ensures forall k :: i <= k < |validators| ==> a <= validators[k].addr
    {
      var j: nat;
      i, j := 0, |validators|;
      while i < j
        invariant 0 <= i <= j <= |validators|
        invariant forall k :: 0 <= k < i ==> validators[k].addr < a
        invariant forall k :: j <= k < |validators| ==> a <= validators[k].addr
      {
        var h := (i + j) / 2;
        if validators[h].addr < a { i := h + 1; } else { j := h; }
      }
    }

    // Binary search finds exactly what is in the map.
    method GetByAddress(a: Address) returns (index: int, val: Option<Validator>)
      requires Valid()
      ensures val == if a in Contents(validators) then Some(Contents(validators)[a]) else None
      ensures if val.Some? then 0 <= index < |validators| && validators[index] == val.value && val.value.addr == a
              else index == -1
    {
      ContentsAt(validators);
      var i := Search(a);
      if i < |validators| && validators[i].addr == a { return i, Some(validators[i]); }
      return -1, None;
    }

    method HasAddress(a: Address) returns (found: bool)
      requires Valid()
      ensures found <==> a in Contents(validators)
    {
      ContentsAt(validators);
      var i := Search(a);
      return i < |validators| && validators[i].addr == a;
    }

    // TotalVotingPower: recomputed only when the cache is empty.
    method TotalVotingPower() returns (total: Int64)
      requires Valid()
      modifies this`totalVotingPower
      ensures Valid() && total == totalVotingPower == Power.TotalVotingPower(validators)
    {
      if totalVotingPower == 0 {
        var i := 0;
        while i < |validators|
          invariant 0 <= i <= |validators|
          invariant totalVotingPower == Power.TotalVotingPower(validators[..i])
        {
          assert validators[..i + 1][..i] == validators[..i];
          totalVotingPower := SafeAddClip(totalVotingPower, validators[i].power);
          i := i + 1;
        }
        assert validators[..i] == validators;
      }
      return totalVotingPower;
    }

    method Add(v: Validator) returns (added: bool)
      requires Valid()
      modifies this
      ensures Valid() && added == (v.addr !in old(Contents(validators)))
      ensures Contents(validators) ==
        if added then old(Contents(validators))[v.addr := v] else old(Contents(validators))
    {
      ContentsAt(validators);
      var i := Search(v.addr);
      if i < |validators| && validators[i].addr == v.addr { return false; }
      InsertContents(validators, i, v);
      validators := validators[..i] + [v] + validators[i..];
      proposer, totalVotingPower := None, 0;
      return true;
    }

    method Update(v: Validator) returns (updated: bool)
      requires Valid()
      modifies this
      ensures Valid() && updated == (v.addr in old(Contents(validators)))
      ensures Contents(validators) ==
        if updated then old(Contents(validators))[v.addr := v] else old(Contents(validators))
    {
      var i, same := GetByAddress(v.addr);
      if same.None? { return false; }
      ReplaceContents(validators, i, v);
      validators := validators[i := v];
      proposer, totalVotingPower := None, 0;
      return true;
    }

    method Remove(a: Address) returns (val: Option<Validator>, removed: bool)
      requires Valid()
      modifies this
      ensures Valid() && removed == (a in old(Contents(validators))) == val.Some?
      ensures removed ==> val == Some(old(Contents(validators))[a])
      ensures Contents(validators) == old(Contents(validators)) - {a}
    {
      ContentsAt(validators);
      var i := Search(a);
      if i >= |validators| || validators[i].addr != a { return None, false; }
      val, removed := Some(validators[i]), true;
      RemoveContents(validators, i);
      validators := validators[..i] + validators[i + 1..];
      proposer, totalVotingPower := None, 0;
    }

    // updateValidators of state/execution.go: none of its errors can occur.  The
    // conversion of the updates before it (PB2TM.Validators) returns none either.
    method UpdateValidators(updates: seq<Validator>) returns (ok: bool)
      requires Valid()
      modifies this
      ensures Valid() && ok
      ensures Contents(validators) == ApplyUpdates(old(Contents(validators)), updates)
    {
      var k := 0;
      while k < |updates|
        invariant 0 <= k <= |updates|
        invariant Valid() && Contents(validators) == ApplyUpdates(old(Contents(validators)), updates[..k])
      {
        var v := updates[k];
        assert updates[..k + 1][..k] == updates[..k];
        var _, val := GetByAddress(v.addr);
        if val.None? {
          var added := Add(v);
          if !added { return false; }
        } else if v.power == 0 {
          var _, removed := Remove(v.addr);
          if !removed { return false; }
        } else {
          var updated := Update(v);
          if !updated { return false; }
        }
        k := k + 1;
      }
      assert updates[..k] == updates;
      return true;
    }

    // IncrementAccum; Peek is a scan for the first under CompareAccum.
    method IncrementAccum(times: Times)
      requires Valid() && validators != []
      modifies this
      ensures Valid() && validators == Increment(old(validators), times)
      ensures times > 0 ==> proposer == Some(validators[IncrementTurns(old(validators), times)[times - 1]])
      ensures times == 0 ==> proposer == old(proposer)
    {
      hide Boost, Charge, Mostest, Sorted, Power.TotalVotingPower;
      BoostAll(times);
      BoostKeeps(old(validators), times);
      if times > 0 { LastTurn(old(validators), times); }
      var k := 0;
      while k < times
        invariant 0 <= k <= times && Valid()
        invariant validators == Charges(Boost(old(validators), times), k)
        invariant k < times || times == 0 ==> proposer == old(proposer)
        invariant k == times > 0 ==>
          proposer == Some(validators[Mostest(Charges(Boost(old(validators), times), times - 1))])
      {
        ChargeMostest(k == times - 1);
        k := k + 1;
      }
    }

    // The first loop of IncrementAccum
    method BoostAll(times: Times)
      modifies this`validators
      ensures validators == Boost(old(validators), times)
    {
      var i := 0;
      while i < |validators|
        invariant 0 <= i <= |validators| == |old(validators)|
        invariant forall k :: 0 <= k < i ==> validators[k] == Boosted(old(validators)[k], times)
        invariant forall k :: i <= k < |validators| ==> validators[k] == old(validators)[k]
      {
        var v := validators[i];
        validators := validators[i := v.(accum := SafeAddClip(v.accum, SafeMulClip(v.power, times)))];
        i := i + 1;
      }
    }

    // One turn of its second loop
    method ChargeMostest(last: bool)
      requires Valid() && validators != []
      modifies this
      ensures Valid() && validators == Charge(old(validators)) && |validators| == |old(validators)|
      ensures proposer == if last then Some(validators[Mostest(old(validators))]) else old(proposer)
    {
      var m := Peek();
      var total := TotalVotingPower();
      SameTotal(validators, Charge(validators));
      validators := validators[m := validators[m].(accum := SafeSubClip(validators[m].accum, total))];
      if last { proposer := Some(validators[m]); }
    }

    method Peek() returns (m: nat)
      requires validators != []
      ensures m == Mostest(validators)
    {
      m := 0;
      var i := 1;
      while i < |validators|
        invariant 1 <= i <= |validators| && m < i
        invariant m == Mostest(validators[..i])
      {
        assert validators[..i + 1][..i] == validators[..i];
        if Precedes(validators[i], validators[m]) { m := i; }
        i := i + 1;
      }
      assert validators[..i] == validators;
    }
  }
}
