// The light client: lite/memprovider.go, lite/dynamic_certifier.go and
// lite/inquiring_certifier.go.
module Lite {
  import opened Arith
  import opened Types
  import opened Commits
  import opened CommitsAny

  // The validators hash is idealised as what it commits to.
  type ValsHash = seq<(Address, PubKey, int)>

  function HashOf(vals: seq<Validator>): ValsHash {
    seq(|vals|, i requires 0 <= i < |vals| => (vals[i].addr, vals[i].key, vals[i].power as int))
  }

  datatype Header = Header(chain: ChainID, height: int, valsHash: ValsHash, hash: nat)

  // A signed header; either part may be nil.
  datatype Checkpoint = Checkpoint(header: Option<Header>, commit: Option<Commit>)
  {
    function Height(): int {
      if header.None? then 0 else header.value.height
    }
  }

  datatype FullCommit = FullCommit(check: Checkpoint, vals: seq<Validator>)
  {
    function Height(): int { check.Height() }
  }

  datatype LiteError =
    | Fine | NotFound | Inconsistent | PastTime | TooMuchChange | ValidatorsChanged | NoPath | BadSignatures
    | NilHeaderPanic | TooDeep

  // Commit.ValidateBasic of lite/commit.go
  predicate Consistent(chain: ChainID, c: Checkpoint) {
    && c.header.Some? && c.header.value.chain == chain && c.commit.Some?
    && CommitHeight(c.commit.value) == c.header.value.height
    && c.commit.value.block.Names(c.header.value.hash) && c.commit.value.precommits != []
    && AllUniform(c.commit.value.precommits, CommitHeight(c.commit.value), CommitRound(c.commit.value))
  }

  predicate Storable(fc: FullCommit) {
    fc.check.header.Some? && Consistent(fc.check.header.value.chain, fc.check)
  }

  // ---- memStoreProvider ----

  predicate SortedByHeight(s: seq<FullCommit>) {
    forall i, j :: 0 <= i < j < |s| ==> s[i].Height() <= s[j].Height()
  }

  // `fc` is a stored commit of the greatest height up to `h`.
  predicate Closest(s: seq<FullCommit>, h: int, fc: FullCommit) {
    && fc in s && fc.Height() <= h
    && forall g :: g in s && g.Height() <= h ==> g.Height() <= fc.Height()
  }

  predicate NoneUpTo(s: seq<FullCommit>, h: int) {
    forall g :: g in s ==> g.Height() > h
  }

  method InsertByHeight(s: seq<FullCommit>, fc: FullCommit) returns (r: seq<FullCommit>)
    requires SortedByHeight(s)
    ensures SortedByHeight(r) && multiset(r) == multiset(s) + multiset{fc}
  {
    var i := 0;
    while i < |s| && s[i].Height() < fc.Height()
      invariant 0 <= i <= |s|
      invariant forall j :: 0 <= j < i ==> s[j].Height() < fc.Height()
    {
      i := i + 1;
    }
    r := s[..i] + [fc] + s[i..];
    InsertedAt(s, fc, i);
  }

  lemma InsertedAt(s: seq<FullCommit>, fc: FullCommit, i: nat)
    requires SortedByHeight(s) && i <= |s|
    requires forall j :: 0 <= j < i ==> s[j].Height() < fc.Height()
    requires i < |s| ==> fc.Height() <= s[i].Height()
    ensures var r := s[..i] + [fc] + s[i..]; SortedByHeight(r) && multiset(r) == multiset(s) + multiset{fc}
  {
    hide SortedByHeight, FullCommit.Height;
    InsertedContents(s, fc, i);
    InsertedInOrder(s, fc, i, s[..i] + [fc] + s[i..]);
  }

  lemma InsertedContents(s: seq<FullCommit>, fc: FullCommit, i: nat)
    requires i <= |s|
    ensures multiset(s[..i] + [fc] + s[i..]) == multiset(s) + multiset{fc}
  {
    assert s == s[..i] + s[i..];
  }

  lemma InsertedInOrder(s: seq<FullCommit>, fc: FullCommit, i: nat, r: seq<FullCommit>)
    requires SortedByHeight(s) && i <= |s| && |r| == |s| + 1
    requires forall j :: 0 <= j < i ==> s[j].Height() < fc.Height() && r[j] == s[j]
    requires r[i] == fc && (i < |s| ==> fc.Height() <= s[i].Height())
    requires forall j :: i < j < |r| ==> r[j] == s[j - 1]
    ensures SortedByHeight(r)
  {
    hide FullCommit.Height;
  }

  class MemStore {
    var byHeight: seq<FullCommit>
    var byHash: map<ValsHash, FullCommit>
    var sorted: bool

    ghost predicate Valid()
      reads this
    {
      sorted ==> SortedByHeight(byHeight)
    }

    constructor ()
      ensures Valid() && byHeight == [] && byHash == map[]
    {
      byHeight, byHash, sorted := [], map[], false;
    }

    // StoreCommit reads the header before it checks it.
    method StoreCommit(fc: FullCommit) returns (err: LiteError)
      requires Valid()
      modifies this
      ensures Valid() && (err == NilHeaderPanic <==> fc.check.header.None?)
      ensures err == Fine <==> Storable(fc)
      ensures err == Fine ==>
        byHeight == old(byHeight) + [fc] && byHash == old(byHash)[fc.check.header.value.valsHash := fc]
      ensures err != Fine ==> byHeight == old(byHeight) && byHash == old(byHash)
    {
      if fc.check.header.None? { return NilHeaderPanic; }
      if !Consistent(fc.check.header.value.chain, fc.check) { return Inconsistent; }
      byHash := byHash[fc.check.header.value.valsHash := fc];
      byHeight := byHeight + [fc];
      sorted := false;
      return Fine;
    }

    // sortByHeightIfNecessaryLocked
    method SortIfNecessary()
      requires Valid()
      modifies this`byHeight, this`sorted
      ensures Valid() && SortedByHeight(byHeight) && multiset(byHeight) == old(multiset(byHeight))
    {
      if sorted { return; }
      var r: seq<FullCommit> := [];
      var k := 0;
      while k < |byHeight|
        invariant 0 <= k <= |byHeight|
        invariant SortedByHeight(r) && multiset(r) == multiset(byHeight[..k])
        invariant byHeight == old(byHeight)
      {
        assert byHeight[..k + 1] == byHeight[..k] + [byHeight[k]];
        r := InsertByHeight(r, byHeight[k]);
        k := k + 1;
      }
      assert byHeight[..k] == byHeight;
      byHeight, sorted := r, true;
    }

    method LinearSearch(h: int) returns (fc: Option<FullCommit>)
      requires Valid()
      modifies this`byHeight, this`sorted
      ensures Valid() && multiset(byHeight) == old(multiset(byHeight))
      ensures if fc.Some? then Closest(byHeight, h, fc.value) else NoneUpTo(byHeight, h)
    {
      SortIfNecessary();
      var i := |byHeight| - 1;
      while i >= 0
        invariant -1 <= i < |byHeight|
        invariant forall k :: i < k < |byHeight| ==> byHeight[k].Height() > h
      {
        if byHeight[i].Height() <= h { return Some(byHeight[i]); }
        i := i - 1;
      }
      return None;
    }

    method BinarySearch(h: int) returns (fc: Option<FullCommit>)
      requires Valid()
      modifies this`byHeight, this`sorted
      ensures Valid() && multiset(byHeight) == old(multiset(byHeight))
      ensures if fc.Some? then Closest(byHeight, h, fc.value) else NoneUpTo(byHeight, h)
    {
      SortIfNecessary();
      var low, high := 0, |byHeight| - 1;
      while low <= high
        invariant 0 <= low <= high + 1 <= |byHeight|
        invariant forall k :: 0 <= k < low ==> byHeight[k].Height() < h
        invariant forall k :: high < k < |byHeight| ==> byHeight[k].Height() > h
      {
        var mid := (low + high) / 2;
        var hmid := byHeight[mid].Height();
        if hmid == h {
          return Some(byHeight[mid]);
        } else if hmid < h {
          low := mid + 1;
        } else {
          high := mid - 1;
        }
      }
      if high >= 0 && byHeight[high].Height() < h { return Some(byHeight[high]); }
      return None;
    }

    // GetByHeight: both searches find the closest commit from below.
    method GetByHeight(h: int) returns (fc: Option<FullCommit>)
      requires Valid()
      modifies this`byHeight, this`sorted
      ensures Valid() && multiset(byHeight) == old(multiset(byHeight))
      ensures if fc.Some? then Closest(byHeight, h, fc.value) else NoneUpTo(byHeight, h)
    {
      if |byHeight| <= 50 {
        fc := LinearSearch(h);
      } else {
        fc := BinarySearch(h);
      }
    }
  }

  // ---- Trust ----

  // One accepted step: the known validators vouch for those of `fc`.
  predicate Accepts(chain: ChainID, known: seq<Validator>, fc: FullCommit) {
    Consistent(chain, fc.check)
      && AcceptsAny(known, fc.vals, chain, fc.check.commit.value.block, fc.Height(), fc.check.commit.value)
  }

  predicate Path(chain: ChainID, root: seq<Validator>, path: seq<FullCommit>) {
    path == [] ||
    var n := |path| - 1;
    Path(chain, root, path[..n]) && Accepts(chain, End(root, path[..n]), path[n])
  }

  function End(root: seq<Validator>, path: seq<FullCommit>): seq<Validator> {
    if path == [] then root else path[|path| - 1].vals
  }

  // Reached from one of the roots by accepted steps only.
  ghost predicate InChain(chain: ChainID, roots: set<seq<Validator>>, vals: seq<Validator>) {
    exists root, path :: root in roots && Path(chain, root, path) && End(root, path) == vals
  }

  lemma RootInChain(chain: ChainID, roots: set<seq<Validator>>, vals: seq<Validator>)
    requires vals in roots
    ensures InChain(chain, roots, vals)
  {
    assert Path(chain, vals, []) && End(vals, []) == vals;
  }

  lemma StepInChain(chain: ChainID, roots: set<seq<Validator>>, known: seq<Validator>, fc: FullCommit)
    requires InChain(chain, roots, known) && Accepts(chain, known, fc)
    ensures InChain(chain, roots, fc.vals)
  {
    var root, path :| root in roots && Path(chain, root, path) && End(root, path) == known;
    var path' := path + [fc];
    assert path'[..|path'| - 1] == path;
    assert Path(chain, root, path') && End(root, path') == fc.vals;
  }

  // ---- The certifiers ----

  // InquiringCertifier over a DynamicCertifier; the source of new commits is an
  // oracle that may answer every question differently.
  class InquiringCertifier {
    const chain: ChainID
    const trusted: MemStore
    const sourceByHeight: (nat, int) -> Option<FullCommit>
    const sourceByHash: (nat, ValsHash) -> Option<FullCommit>

    var vals: seq<Validator>
    var lastHeight: int
    var asked: nat

    ghost const roots: set<seq<Validator>>

    ghost predicate Valid()
      reads this, trusted
    {
      && trusted.Valid()
      && InChain(chain, roots, vals)
      && (forall g :: g in trusted.byHeight ==> InChain(chain, roots, g.vals))
    }

    // The certifier stands at a commit of the trusted store.
    ghost predicate AtTrusted()
      reads this, trusted
    {
      exists g :: g in trusted.byHeight && g.Height() == lastHeight
    }

    // A certifier over a store that has the commit; what the store holds is taken on trust.
    constructor (chain: ChainID, fc: FullCommit, trusted: MemStore,
                 byHeight: (nat, int) -> Option<FullCommit>, byHash: (nat, ValsHash) -> Option<FullCommit>)
      requires trusted.Valid() && fc in trusted.byHeight
      ensures Valid() && AtTrusted() && vals == fc.vals && lastHeight == fc.Height()
      ensures this.chain == chain && this.trusted == trusted
      ensures sourceByHeight == byHeight && sourceByHash == byHash
      ensures roots == set g | g in trusted.byHeight :: g.vals
    {
      this.chain, this.trusted, sourceByHeight, sourceByHash := chain, trusted, byHeight, byHash;
      vals, lastHeight, asked := fc.vals, fc.Height(), 0;
      roots := set g | g in trusted.byHeight :: g.vals;
      new;
      forall g | g in trusted.byHeight ensures InChain(chain, roots, g.vals) {
        RootInChain(chain, roots, g.vals);
      }
    }

    // NewInquiringCertifier
    static method New(chain: ChainID, fc: FullCommit, trusted: MemStore,
                      byHeight: (nat, int) -> Option<FullCommit>, byHash: (nat, ValsHash) -> Option<FullCommit>)
      returns (ic: InquiringCertifier?, err: LiteError)
      requires trusted.Valid()
      modifies trusted
      ensures err == Fine <==> Storable(fc)
      ensures err == NilHeaderPanic <==> fc.check.header.None?
      ensures err != Fine ==> ic == null && trusted.Valid() && trusted.byHeight == old(trusted.byHeight)
      ensures err == Fine ==> ic != null && fresh(ic) && ic.Valid() && ic.AtTrusted() && ic.trusted == trusted
      ensures err == Fine ==> ic.chain == chain && ic.vals == fc.vals && ic.lastHeight == fc.Height()
      ensures err == Fine ==> ic.sourceByHeight == byHeight && ic.sourceByHash == byHash
      ensures err == Fine ==> trusted.byHeight == old(trusted.byHeight) + [fc]
      ensures err == Fine ==> ic.roots == {fc.vals} + set g | g in old(trusted.byHeight) :: g.vals
    {
      hide InChain, Consistent;
      err := trusted.StoreCommit(fc);
      if err != Fine { return null, err; }
      RootsOfLonger(old(trusted.byHeight), fc);
      ic := new InquiringCertifier(chain, fc, trusted, byHeight, byHash);
    }

    // DynamicCertifier.Update
    method UpdateCert(fc: FullCommit) returns (err: LiteError)
      requires Valid()
      modifies this`vals, this`lastHeight
      ensures Valid() && err != NotFound && err != TooDeep
      ensures err == Fine <==> fc.Height() > old(lastHeight) && Accepts(chain, old(vals), fc)
      ensures err == TooMuchChange <==>
        fc.Height() > old(lastHeight) && Consistent(chain, fc.check) && !Accepts(chain, old(vals), fc)
      ensures if err == Fine then vals == fc.vals && lastHeight == fc.Height()
              else vals == old(vals) && lastHeight == old(lastHeight)
    {
      if fc.Height() <= lastHeight { return PastTime; }
      if !Consistent(chain, fc.check) { return Inconsistent; }
      var commit := fc.check.commit.value;
      var bad := VerifyCommitAny(vals, fc.vals, chain, commit.block, fc.Height(), commit);
      if bad != Accepted { return TooMuchChange; }
      StepInChain(chain, roots, vals, fc);
      vals, lastHeight := fc.vals, fc.Height();
      return Fine;
    }

    // The store holds nothing but the commit the certifier stands at.
    ghost predicate OnlyTrust()
      reads this, trusted
    {
      forall g :: g in trusted.byHeight ==> g.Height() == lastHeight && g.vals == vals
    }

    // useClosestTrust: stand at the closest trusted commit up to `h`.
    method UseClosestTrust(h: int) returns (err: LiteError)
      requires Valid()
      modifies this`vals, this`lastHeight, trusted
      ensures Valid() && multiset(trusted.byHeight) == old(multiset(trusted.byHeight))
      ensures err == Fine || err == NotFound
      ensures err == Fine ==> AtTrusted() && lastHeight <= h
      ensures err == Fine ==> forall g :: g in trusted.byHeight && g.Height() <= h ==> g.Height() <= lastHeight
      ensures err != Fine ==> vals == old(vals) && lastHeight == old(lastHeight) && NoneUpTo(trusted.byHeight, h)
      ensures old(OnlyTrust() && AtTrusted()) && h >= old(lastHeight) ==>
        err == Fine && OnlyTrust() && vals == old(vals) && lastHeight == old(lastHeight)
    {
      hide InChain;
      ghost var before := trusted.byHeight;
      var closest := trusted.GetByHeight(h);
      SameMembers(before, trusted.byHeight);
      if closest.None? { return NotFound; }
      if closest.value.Height() != lastHeight {
        vals, lastHeight := closest.value.vals, closest.value.Height();
      }
      return Fine;
    }

    // Update
    method Update(fc: FullCommit) returns (err: LiteError)
      requires Valid()
      modifies this, trusted
      ensures Valid()
      ensures err != NotFound ==> AtTrusted()
      ensures err == NotFound ==> vals == old(vals) && lastHeight == old(lastHeight)
      ensures err == Fine ==> lastHeight == fc.Height() && vals == fc.vals
      ensures forall g :: g in old(trusted.byHeight) ==>
        g in trusted.byHeight && (err != NotFound && g.Height() <= fc.Height() ==> g.Height() <= lastHeight)
      ensures asked == old(asked) && err != TooDeep
      ensures old(OnlyTrust() && AtTrusted()) && TooMuch(old(vals), old(lastHeight), fc) ==>
        err == TooMuchChange && OnlyTrust() && vals == old(vals) && lastHeight == old(lastHeight)
    {
      hide InChain, Consistent, AcceptsAny, Closest;
      ghost var before := trusted.byHeight;
      err := UseClosestTrust(fc.Height());
      SameMembers(before, trusted.byHeight);
      if err != Fine { return; }
      ghost var at :| at in trusted.byHeight && at.Height() == lastHeight;
      err := UpdateCert(fc);
      if err == Fine {
        OwnChain(chain, fc.check);
        err := trusted.StoreCommit(fc);
        assert fc in trusted.byHeight;
      } else {
        assert at in trusted.byHeight && at.Height() == lastHeight;
      }
    }

    // A commit that these validators cannot vouch for.
    ghost predicate TooMuch(vals: seq<Validator>, lastHeight: int, fc: FullCommit) {
      fc.Height() > lastHeight && Consistent(chain, fc.check) && !Accepts(chain, vals, fc)
    }

    // A provider that answers at or below the height it is asked for.
    ghost predicate SourceOK() {
      forall n, h :: sourceByHeight(n, h).Some? ==> sourceByHeight(n, h).value.Height() <= h
    }

    // One whose every answer is out of reach of the one commit trusted.
    ghost predicate Stubborn()
      reads this, trusted
    {
      && AtTrusted() && OnlyTrust()
      && forall n, h :: sourceByHeight(n, h).Some? && TooMuch(vals, lastHeight, sourceByHeight(n, h).value)
    }

    // updateToHeight: divide and conquer, on a call stack with room for `depth`
    // more calls.  From a provider that keeps to the heights it is asked for, the
    // height still to go bounds the depth: every success raises LastHeight and the
    // midpoint lies below.  Against a stubborn one no stack is deep enough.
    method UpdateToHeight(h: int, depth: nat) returns (err: LiteError)
      requires Valid() && AtTrusted()
      modifies this, trusted
      ensures Valid() && AtTrusted() && lastHeight >= old(lastHeight)
      ensures err == Fine ==> lastHeight > old(lastHeight)
      ensures SourceOK() && old(lastHeight) >= 0 && depth > 0 && depth > h - old(lastHeight) ==> err != TooDeep
      ensures old(Stubborn()) ==> err == TooDeep
      decreases depth
    {
      if depth == 0 { return TooDeep; }
      var fc := sourceByHeight(asked, h);
      asked := asked + 1;
      if fc.None? { return NotFound; }
      var start, end := lastHeight, fc.value.Height();
      if end <= start { return NoPath; }
      err := Update(fc.value);
      if err != TooMuchChange { return; }
      var mid := TruncDiv(start + end, 2);
      err := UpdateToHeight(mid, depth - 1);
      if err != Fine { return; }
      err := UpdateToHeight(h, depth - 1);
    }

    // updateToHash
    method UpdateToHash(hash: ValsHash, depth: nat) returns (err: LiteError)
      requires Valid() && AtTrusted()
      modifies this, trusted
      ensures Valid() && lastHeight >= old(lastHeight)
    {
      var fc := sourceByHash(asked, hash);
      asked := asked + 1;
      if fc.None? { return NotFound; }
      err := UpdateCert(fc.value);
      if err == TooMuchChange { err := UpdateToHeight(fc.value.Height(), depth); }
    }

    // DynamicCertifier.Certify
    method CertifyCert(c: Checkpoint) returns (err: LiteError)
      requires Valid()
      modifies this`lastHeight
      ensures Valid()
      ensures err == Fine <==> Certified(c)
      ensures err == ValidatorsChanged <==> Consistent(chain, c) && HashOf(vals) != c.header.value.valsHash
      ensures lastHeight == if err == Fine then c.Height() else old(lastHeight)
    {
      if !Consistent(chain, c) { return Inconsistent; }
      if HashOf(vals) != c.header.value.valsHash { return ValidatorsChanged; }
      var bad := VerifyCommit(vals, chain, c.commit.value.block, c.header.value.height, c.commit.value);
      if bad != Accepted { return BadSignatures; }
      lastHeight := c.Height();
      return Fine;
    }

    // The current validators are the header's and more than two thirds of them signed it.
    ghost predicate Certified(c: Checkpoint)
      reads this`vals
    {
      && Consistent(chain, c) && HashOf(vals) == c.header.value.valsHash
      && Certifies(vals, chain, c.commit.value.block, c.header.value.height, c.commit.value)
    }

    // Certify: a header is accepted only on the signatures of validators in the chain of trust.
    method Certify(c: Checkpoint, depth: nat) returns (err: LiteError)
      requires Valid()
      modifies this, trusted
      ensures Valid()
      ensures err == Fine ==> Certified(c) && InChain(chain, roots, vals)
    {
      err := UseClosestTrust(c.Height());
      if err != Fine { return; }
      err := CertifyCert(c);
      if err != ValidatorsChanged { return; }
      err := UpdateToHash(c.header.value.valsHash, depth);
      if err != Fine { return; }
      err := CertifyCert(c);
      if err != Fine { return; }
      err := trusted.StoreCommit(FullCommit(c, vals));
    }
  }

  lemma RootsOfLonger(s: seq<FullCommit>, fc: FullCommit)
    ensures fc in s + [fc]
    ensures (set g | g in s + [fc] :: g.vals) == {fc.vals} + set g | g in s :: g.vals
  {
    var a, b := set g | g in s + [fc] :: g.vals, set g | g in s :: g.vals;
    assert fc in s + [fc];
    forall v | v in a ensures v in {fc.vals} + b {
      var g :| g in s + [fc] && g.vals == v;
    }
    forall v | v in {fc.vals} + b ensures v in a {
      if v in b { var g :| g in s && g.vals == v; assert g in s + [fc]; }
    }
  }

  lemma OwnChain(chain: ChainID, c: Checkpoint)
    requires Consistent(chain, c)
    ensures c.header.Some? && Consistent(c.header.value.chain, c)
  {
  }

  lemma SameMembers(s: seq<FullCommit>, s': seq<FullCommit>)
    requires multiset(s) == multiset(s')
    ensures forall g :: g in s <==> g in s'
  {
    forall g ensures g in s <==> g in s' {
      assert g in s <==> g in multiset(s);
      assert g in s' <==> g in multiset(s');
    }
  }
}
