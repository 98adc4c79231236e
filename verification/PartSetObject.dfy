// types/part_set.go in its own form: PartSet fills an array, PartSetReader walks it.
module PartSetObject {
  import opened Types
  import opened PartSets

  class PartSet {
    const total: int
    const hash: Root
    const parts: array<Option<Part>>
    var bits: seq<bool>
    var count: int

    ghost function View(): Assembly
      reads this, parts
    {
      Assembly(total, hash, parts[..], bits, count)
    }

    ghost predicate Valid()
      reads this, parts
    {
      Sound(View())
    }

    // NewPartSetFromHeader
    constructor FromHeader(h: PartSetHeader)
      requires h.total >= 0
      ensures Valid() && fresh(parts) && View() == PartSets.FromHeader(h)
    {
      total, hash := h.total, h.hash;
      parts := new Option<Part>[h.total](_ => None);
      bits := seq(h.total, _ => false);
      count := 0;
      new;
      CountTrueNone(bits);
      assert parts[..] == PartSets.FromHeader(h).parts;
    }

    // NewPartSetFromData: a complete set holding the data.
    constructor FromData(data: Bytes, partSize: nat)
      requires partSize >= 1
      ensures Valid() && fresh(parts)
      ensures count == total == (|data| + partSize - 1) / partSize
      ensures hash == Root(Split(data, partSize)) && Contents(View()) == Split(data, partSize)
    {
      var chunks := Cut(data, partSize);
      total, hash := |chunks|, Root(chunks);
      parts := new Option<Part>[|chunks|](i requires 0 <= i < |chunks| => Some(PartOf(chunks, i)));
      bits := seq(|chunks|, _ => true);
      count := |chunks|;
      new;
      SplitCount(data, partSize);
      CountTrueAll(bits);
      assert Contents(View()) == chunks;
    }

    method AddPart(p: Part) returns (added: bool, err: AddError)
      requires Valid()
      modifies this, parts
      ensures Valid() && (View(), added, err) == PartSets.AddPart(old(View()), p)
      ensures err == IndexPanic <==> p.index < 0
    {
      AddPartSound(View(), p);
      if p.index >= total { return false, UnexpectedIndex; }
      if p.index < 0 { return false, IndexPanic; }
      if parts[p.index].Some? { return false, NoError; }
      if !p.Verify(total, hash) { return false, InvalidProof; }
      ghost var before := View();
      parts[p.index] := Some(p);
      bits := bits[p.index := true];
      count := count + 1;
      assert parts[..] == before.parts[p.index := Some(p)];
      return true, NoError;
    }

    predicate IsComplete()
      requires Valid()
      reads this, parts
      ensures IsComplete() <==> forall i :: 0 <= i < parts.Length ==> parts[i].Some?
    {
      CompleteIff(View());
      assert forall i :: 0 <= i < parts.Length ==> View().parts[i] == parts[i];
      count == total
    }

    // GetReader panics on an incomplete set, and on one without parts.
    method GetReader() returns (r: PartSetReader)
      requires Valid() && IsComplete() && total > 0
      ensures fresh(r) && r.Valid() && r.Remaining() == Join(hash.leaves)
    {
      CompleteIff(View());
      var bytes, i: int := [], 0;
      while i < total
        invariant 0 <= i <= total && bytes == Contents(View())[..i]
      {
        assert View().parts[i] == parts[i];
        bytes, i := bytes + [parts[i].value.bytes], i + 1;
      }
      assert Contents(View())[..i] == Contents(View());
      r := new PartSetReader(bytes);
    }
  }

  // The loop of NewPartSetFromData that cuts the data
  method Cut(data: Bytes, partSize: nat) returns (chunks: seq<Bytes>)
    requires partSize >= 1
    ensures chunks == Split(data, partSize)
  {
    var total := (|data| + partSize - 1) / partSize;
    SplitCount(data, partSize);
    chunks := [];
    var i := 0;
    while i < total
      invariant 0 <= i <= total
      invariant chunks + Split(data[Min(|data|, i * partSize)..], partSize) == Split(data, partSize)
      invariant |chunks| == i && |Split(data, partSize)| == total
    {
      NextOffset(i, partSize);
      ghost var rest := data[Min(|data|, i * partSize)..];
      assert rest != [];
      var chunk := data[i * partSize..Min(|data|, (i + 1) * partSize)];
      CutOne(rest, partSize);
      assert chunk == rest[..Min(|rest|, partSize)];
      assert data[Min(|data|, (i + 1) * partSize)..] == rest[Min(|rest|, partSize)..];
      chunks := chunks + [chunk];
      i := i + 1;
    }
  }

  lemma NextOffset(i: nat, partSize: nat)
    ensures (i + 1) * partSize == i * partSize + partSize
  {
  }

  lemma CutOne(rest: Bytes, partSize: nat)
    requires partSize >= 1 && rest != []
    ensures Split(rest, partSize) == [rest[..Min(|rest|, partSize)]] + Split(rest[Min(|rest|, partSize)..], partSize)
  {
    if |rest| <= partSize { assert rest[..|rest|] == rest; }
  }

  class PartSetReader {
    const parts: seq<Bytes>
    var i: int
    var rest: Bytes // what bytes.Reader has left of part `i`

    ghost predicate Valid()
      reads this
    {
      0 <= i && (i >= |parts| ==> rest == [])
    }

    ghost function Remaining(): Bytes
      requires Valid()
      reads this
    {
      if i >= |parts| then [] else rest + Join(parts[i + 1..])
    }

    constructor (parts: seq<Bytes>)
      requires parts != []
      ensures Valid() && Remaining() == Join(parts)
    {
      this.parts, i, rest := parts, 0, parts[0];
    }

    // bytes.Reader.Read, into a buffer no longer than what the part has left
    method ReadHere(n: nat) returns (out: Bytes, eof: bool)
      requires Valid() && n <= |rest|
      modifies this`rest
      ensures Valid() && out == Taken(old(Remaining()), n) && Remaining() == Left(old(Remaining()), n)
      ensures eof == (old(rest) == []) && |rest| == |old(rest)| - n
    {
      hide Join, Taken, Left;
      ghost var tail := if i < |parts| then Join(parts[i + 1..]) else [];
      TakeInside(rest, tail, n);
      if rest == [] { return [], true; }
      out, eof := rest[..n], false;
      rest := rest[n..];
    }

    // Read into a buffer of `n` bytes.  For a non-empty buffer: as many bytes as
    // fit, and end of file exactly when the buffer could not be filled.
    method Read(n: nat) returns (out: Bytes, eof: bool)
      requires Valid()
      modifies this`i, this`rest
      ensures Valid() && out == Taken(old(Remaining()), n) && Remaining() == Left(old(Remaining()), n)
      ensures n > 0 ==> (eof <==> |old(Remaining())| < n)
      decreases if i < |parts| then |parts| - i else 0, |rest|, 1
    {
      hide Join, Taken, Left;
      if |rest| >= n {
        out, eof := ReadHere(n);
        return;
      }
      if |rest| > 0 {
        // the buffer cut to what is left here, then the rest of the buffer
        var k := |rest|;
        TakeTwice(Remaining(), k, n - k);
        var out1, eof1 := ReadHere(k);
        if eof1 { return out1, eof1; }
        var out2;
        out2, eof := Read(n - k);
        return out1 + out2, eof;
      }
      out, eof := ReadNext(n);
    }

    // The last branch of Read: on to the next part
    method ReadNext(n: nat) returns (out: Bytes, eof: bool)
      requires Valid() && rest == [] && n > 0
      modifies this`i, this`rest
      ensures Valid() && out == Taken(old(Remaining()), n) && Remaining() == Left(old(Remaining()), n)
      ensures eof <==> |old(Remaining())| < n
      decreases if i < |parts| then |parts| - i else 0, 0, 0
    {
      hide Join, Taken, Left;
      TakeNone(n);
      if i < |parts| { JoinFrom(parts, i + 1); }
      ghost var before := Remaining();
      i := i + 1;
      if i >= |parts| {
        assert before == [];
        return [], true;
      }
      rest := parts[i];
      assert Remaining() == before;
      out, eof := Read(n);
    }
  }

  // The first `n` bytes, or all there are, and what follows them.
  function Taken(b: Bytes, n: nat): Bytes { b[..Min(n, |b|)] }
  function Left(b: Bytes, n: nat): Bytes { b[Min(n, |b|)..] }

  lemma TakeNone(n: nat)
    ensures Taken([], n) == [] && Left([], n) == []
  {
  }

  lemma TakenThenLeft(b: Bytes, n: nat)
    ensures b == Taken(b, n) + Left(b, n)
    ensures |b| < n ==> Left(b, n) == []
    ensures 0 < n <= |b| ==> |Left(b, n)| < |b|
  {
  }

  lemma TakeInside(rest: Bytes, tail: Bytes, n: nat)
    requires n <= |rest|
    ensures Taken(rest + tail, n) == rest[..n] && Left(rest + tail, n) == rest[n..] + tail
  {
  }

  lemma TakeTwice(b: Bytes, k: nat, n: nat)
    requires k <= |b|
    ensures Taken(b, k + n) == Taken(b, k) + Taken(Left(b, k), n) && Left(b, k + n) == Left(Left(b, k), n)
    ensures |Left(b, k)| == |b| - k
  {
  }

  lemma JoinFrom(parts: seq<Bytes>, i: nat)
    requires i <= |parts|
    ensures Join(parts[i..]) == if i < |parts| then parts[i] + Join(parts[i + 1..]) else []
  {
    if i < |parts| { assert parts[i..][1..] == parts[i + 1..]; }
  }

  // One read into a non-empty buffer: it takes from the front, and makes progress or ends.
  method ReadSome(r: PartSetReader, n: nat) returns (more: Bytes, eof: bool)
    requires r.Valid() && n > 0
    modifies r
    ensures r.Valid() && more + r.Remaining() == old(r.Remaining())
    ensures if eof then r.Remaining() == [] else |r.Remaining()| < |old(r.Remaining())|
  {
    hide Taken, Left, PartSetReader.Remaining;
    TakenThenLeft(r.Remaining(), n);
    more, eof := r.Read(n);
  }

  // Reading with any sequence of non-empty buffers ends, and yields all the bytes.
  method ReadAll(r: PartSetReader, sizes: nat -> nat) returns (out: Bytes)
    requires r.Valid() && forall k :: sizes(k) > 0
    modifies r
    ensures out == old(r.Remaining())
  {
    hide PartSetReader.Remaining;
    out := [];
    var k, eof := 0, false;
    while !eof
      invariant r.Valid() && out + r.Remaining() == old(r.Remaining())
      invariant eof ==> r.Remaining() == []
      decreases |r.Remaining()|, !eof
    {
      var more;
      more, eof := ReadSome(r, sizes(k));
      assert out + (more + r.Remaining()) == (out + more) + r.Remaining();
      out, k := out + more, k + 1;
    }
  }
}
