// types/part_set.go: a block's bytes split into parts, gathered in any order, and
// read back.  A Merkle root is idealised as the leaves it commits to.
module PartSets {
  import opened Types

  type Byte = x: int | 0 <= x < 256
  type Bytes = seq<Byte>

  datatype Root = Root(leaves: seq<Bytes>) | OtherHash(id: nat)

  datatype PartSetHeader = PartSetHeader(total: int, hash: Root)

  // A part, and whether the proof it carries was made for it.
  datatype Part = Part(index: int, bytes: Bytes, proven: bool)
  {
    // SimpleProof.Verify
    predicate Verify(total: int, hash: Root) {
      proven && hash.Root? && |hash.leaves| == total && 0 <= index < total && hash.leaves[index] == bytes
    }
  }

  // `IndexPanic`: a negative index passes the range check and the slice access panics.
  datatype AddError = NoError | UnexpectedIndex | InvalidProof | IndexPanic

  // The value a PartSet holds.
  datatype Assembly = Assembly(total: int, hash: Root, parts: seq<Option<Part>>, bits: seq<bool>, count: int)

  // ---- Splitting ----

  function Min(a: int, b: int): int { if a < b then a else b }

  // The data cut into pieces of `partSize` bytes, the last one shorter if need be.
  function Split(data: Bytes, partSize: nat): seq<Bytes>
    requires partSize >= 1
    decreases |data|
  {
    if data == [] then []
    else if |data| <= partSize then [data]
    else [data[..partSize]] + Split(data[partSize..], partSize)
  }

  function Join(leaves: seq<Bytes>): Bytes {
    if leaves == [] then [] else leaves[0] + Join(leaves[1..])
  }

  lemma {:induction false} JoinSplit(data: Bytes, partSize: nat)
    requires partSize >= 1
    ensures Join(Split(data, partSize)) == data
    decreases |data|
  {
    if |data| > partSize {
      var head, rest := data[..partSize], data[partSize..];
      JoinSplit(rest, partSize);
      JoinCons(head, Split(rest, partSize));
      assert data == head + rest;
    } else if data != [] {
      assert [data] == [data] + [];
      JoinCons(data, []);
    }
  }

  lemma JoinCons(head: Bytes, parts: seq<Bytes>)
    ensures Join([head] + parts) == head + Join(parts)
  {
    assert ([head] + parts)[1..] == parts;
  }

  // The number of parts is the length divided by the part size, rounded up.
  lemma {:induction false} SplitCount(data: Bytes, partSize: nat)
    requires partSize >= 1
    ensures |Split(data, partSize)| == (|data| + partSize - 1) / partSize
    decreases |data|
  {
    if data == [] {
      SmallDiv(partSize - 1, partSize);
    } else {
      DivStep(|data| - 1, partSize);
      if |data| > partSize {
        SplitCount(data[partSize..], partSize);
      } else {
        SmallDiv(|data| - 1, partSize);
      }
    }
  }

  lemma SmallDiv(a: nat, n: nat)
    requires a < n
    ensures a / n == 0
  {
  }

  lemma DivStep(a: nat, n: nat)
    requires n >= 1
    ensures (a + n) / n == a / n + 1
  {
    assert a + n == (a / n + 1) * n + a % n by { assert (a / n + 1) * n == a / n * n + n; }
    DivUnique(a + n, n, a / n + 1, a % n);
  }

  lemma DivUnique(a: nat, n: nat, q: nat, r: nat)
    requires n >= 1 && a == q * n + r && r < n
    ensures a / n == q
  {
    var d := a / n - q;
    assert a == a / n * n + a % n;
    assert d * n == r - a % n by { assert d * n == a / n * n - q * n; }
    Multiple(d, n);
  }

  lemma Multiple(d: int, n: int)
    requires n >= 1
    ensures d >= 1 ==> d * n >= n
    ensures d <= -1 ==> d * n <= -n
  {
    if d >= 1 {
      assert (d - 1) * n >= 0;
    } else {
      assert (-d - 1) * n == -(d * n) - n;
      assert d <= -1 ==> (-d - 1) * n >= 0;
    }
  }

  // ---- Gathering ----

  predicate Sound(a: Assembly) {
    && |a.parts| == |a.bits| == a.total
    && a.count == CountTrue(a.bits)
    && forall i :: 0 <= i < |a.parts| ==>
         && (a.bits[i] <==> a.parts[i].Some?)
         && (a.parts[i].Some? ==> a.parts[i].value.index == i && a.parts[i].value.Verify(a.total, a.hash))
  }

  function CountTrue(bits: seq<bool>): nat {
    if bits == [] then 0 else CountTrue(bits[..|bits| - 1]) + if bits[|bits| - 1] then 1 else 0
  }

  lemma {:induction false} CountTrueUpdate(bits: seq<bool>, i: int)
    requires 0 <= i < |bits| && !bits[i]
    ensures CountTrue(bits[i := true]) == CountTrue(bits) + 1
  {
    var n := |bits| - 1;
    if i < n {
      CountTrueUpdate(bits[..n], i);
      assert bits[i := true][..n] == bits[..n][i := true];
    } else {
      assert bits[i := true][..n] == bits[..n];
    }
  }

  lemma {:induction false} CountTrueAll(bits: seq<bool>)
    ensures CountTrue(bits) <= |bits|
    ensures CountTrue(bits) == |bits| <==> forall i :: 0 <= i < |bits| ==> bits[i]
  {
    if bits != [] {
      var n := |bits| - 1;
      CountTrueAll(bits[..n]);
      assert (forall i :: 0 <= i < |bits| ==> bits[i]) <==> bits[n] && forall i :: 0 <= i < n ==> bits[..n][i];
    }
  }

  lemma {:induction false} CountTrueNone(bits: seq<bool>)
    requires forall i :: 0 <= i < |bits| ==> !bits[i]
    ensures CountTrue(bits) == 0
  {
    if bits != [] { CountTrueNone(bits[..|bits| - 1]); }
  }

  // NewPartSetFromHeader
  function FromHeader(h: PartSetHeader): Assembly
    requires h.total >= 0
  {
    Assembly(h.total, h.hash, seq(h.total, _ => None), seq(h.total, _ => false), 0)
  }

  // PartSet.AddPart
  function AddPart(a: Assembly, p: Part): (Assembly, bool, AddError)
    requires |a.parts| == |a.bits| == a.total
  {
    if p.index >= a.total then (a, false, UnexpectedIndex)
    else if p.index < 0 then (a, false, IndexPanic)
    else if a.parts[p.index].Some? then (a, false, NoError)
    else if !p.Verify(a.total, a.hash) then (a, false, InvalidProof)
    else
      (a.(parts := a.parts[p.index := Some(p)], bits := a.bits[p.index := true], count := a.count + 1), true, NoError)
  }

  lemma AddPartSound(a: Assembly, p: Part)
    requires Sound(a)
    ensures Sound(AddPart(a, p).0)
  {
    if AddPart(a, p).1 { CountTrueUpdate(a.bits, p.index); }
  }

  // Which parts each outcome is for, and what it leaves: the panic is for exactly
  // the negative indices; only a verified part that was missing goes in, at its place.
  lemma AddPartOutcomes(a: Assembly, p: Part)
    requires Sound(a)
    ensures var (a', added, err) := AddPart(a, p);
      && (err == IndexPanic <==> p.index < 0) && (err == UnexpectedIndex <==> p.index >= a.total)
      && (added <==> 0 <= p.index < a.total && a.parts[p.index].None? && p.Verify(a.total, a.hash))
      && (!added ==> a' == a) && (added ==> err == NoError && a'.count == a.count + 1)
      && a'.total == a.total && a'.hash == a.hash && |a'.parts| == |a.parts|
      && forall i :: 0 <= i < |a.parts| ==>
           a'.parts[i] == if added && i == p.index then Some(p) else a.parts[i]
  {
  }

  // Complete exactly when no part is missing, and then the parts are the leaves.
  lemma CompleteIff(a: Assembly)
    requires Sound(a)
    ensures a.count == a.total <==> forall i :: 0 <= i < |a.parts| ==> a.parts[i].Some?
    ensures a.count == a.total > 0 ==> a.hash.Root? && Contents(a) == a.hash.leaves
  {
    CountTrueAll(a.bits);
    if a.count == a.total > 0 {
      assert a.bits[0];
      forall i | 0 <= i < |a.parts| ensures Contents(a)[i] == a.hash.leaves[i] { assert a.bits[i]; }
    }
  }

  function Contents(a: Assembly): seq<Bytes> {
    seq(|a.parts|, i requires 0 <= i < |a.parts| => if a.parts[i].Some? then a.parts[i].value.bytes else [])
  }

  // The full set's part number `i`.
  function PartOf(leaves: seq<Bytes>, i: nat): Part
    requires i < |leaves|
  {
    Part(i, leaves[i], true)
  }

  // Parts arriving in the given order, possibly with repeats.
  function Gather(leaves: seq<Bytes>, order: seq<nat>): (a: Assembly)
    requires forall k :: 0 <= k < |order| ==> order[k] < |leaves|
    ensures |a.parts| == |a.bits| == a.total == |leaves|
  {
    if order == [] then FromHeader(PartSetHeader(|leaves|, Root(leaves)))
    else
      var n := |order| - 1;
      AddPart(Gather(leaves, order[..n]), PartOf(leaves, order[n])).0
  }

  // A part of the full set is there once it has been added, and nothing else changes.
  lemma AddedPart(leaves: seq<Bytes>, a: Assembly, k: nat, i: nat)
    requires Sound(a) && a.hash == Root(leaves) && a.total == |leaves| && k < |leaves| && i < |leaves|
    ensures var a' := AddPart(a, PartOf(leaves, k)).0;
      && a'.hash == a.hash && |a'.parts| == |leaves|
      && (a'.parts[i].Some? <==> a.parts[i].Some? || i == k)
  {
    AddPartOutcomes(a, PartOf(leaves, k));
    hide AddPart;
  }

  lemma InLonger(order: seq<nat>, i: nat)
    requires order != []
    ensures i in order <==> i in order[..|order| - 1] || i == order[|order| - 1]
  {
    assert order == order[..|order| - 1] + [order[|order| - 1]];
  }

  lemma {:induction false} GatherHas(leaves: seq<Bytes>, order: seq<nat>)
    requires forall k :: 0 <= k < |order| ==> order[k] < |leaves|
    ensures Sound(Gather(leaves, order)) && Gather(leaves, order).hash == Root(leaves)
    ensures forall i :: 0 <= i < |leaves| ==> (Gather(leaves, order).parts[i].Some? <==> i in order)
  {
    if order == [] {
      CountTrueNone(Gather(leaves, order).bits);
    } else {
      hide Sound, AddPart;
      var n := |order| - 1;
      var a := Gather(leaves, order[..n]);
      GatherHas(leaves, order[..n]);
      AddPartSound(a, PartOf(leaves, order[n]));
      AddedPart(leaves, a, order[n], 0);
      forall i | 0 <= i < |leaves| ensures Gather(leaves, order).parts[i].Some? <==> i in order {
        AddedPart(leaves, a, order[n], i);
        InLonger(order, i);
      }
    }
  }

  // Parts in any order and with repeats make a complete set exactly when every
  // one arrived.
  lemma GatherComplete(leaves: seq<Bytes>, order: seq<nat>)
    requires forall k :: 0 <= k < |order| ==> order[k] < |leaves|
    ensures Sound(Gather(leaves, order))
    ensures Gather(leaves, order).count == |leaves| <==> forall i :: 0 <= i < |leaves| ==> i in order
  {
    GatherHas(leaves, order);
    CompleteIff(Gather(leaves, order));
  }

  // The part-set round trip: once complete, the set holds the data.
  lemma GatherRoundTrip(data: Bytes, partSize: nat, order: seq<nat>)
    requires partSize >= 1 && data != []
    requires forall k :: 0 <= k < |order| ==> order[k] < |Split(data, partSize)|
    requires Gather(Split(data, partSize), order).count == |Split(data, partSize)|
    ensures Join(Contents(Gather(Split(data, partSize), order))) == data
  {
    var leaves := Split(data, partSize);
    GatherHas(leaves, order);
    CompleteIff(Gather(leaves, order));
    JoinSplit(data, partSize);
  }
}
