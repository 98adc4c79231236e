// mempool/mempool.go, mapTxCache: the transactions already seen.
//
// `seen` answers the question, `order` says which to forget when the cache is
// full.  Remove takes a transaction out of `seen` only, so `order` may keep a stale
// entry for it; a second Push then leaves two entries for one transaction.
module TxCaches {
  import opened Mempools

  datatype Cache = Cache(size: int, seen: set<Tx>, order: seq<Tx>)

  // newMapTxCache, or nopTxCache for a size that is not positive
  function NewCache(size: int): Cache { Cache(size, {}, []) }

  predicate CacheInv(c: Cache) {
    && (c.size <= 0 ==> c.seen == {} && c.order == [])
    && (c.size > 0 ==> |c.order| <= c.size)
    && forall tx :: tx in c.seen ==> tx in c.order
  }

  // Room made for one more entry: the oldest is dropped, and its transaction forgotten.
  function MakeRoom(c: Cache): Cache
    requires c.size > 0
  {
    if |c.order| < c.size then c else c.(seen := c.seen - {c.order[0]}, order := c.order[1..])
  }

  // Push: false if the transaction was seen
  function Push(c: Cache, tx: Tx): (Cache, bool) {
    if c.size <= 0 then (c, true)
    else if tx in c.seen then (c, false)
    else
      var d := MakeRoom(c);
      (d.(seen := d.seen + {tx}, order := d.order + [tx]), true)
  }

  function Remove(c: Cache, tx: Tx): Cache {
    c.(seen := c.seen - {tx})
  }

  lemma PushInv(c: Cache, tx: Tx)
    requires CacheInv(c)
    ensures CacheInv(Push(c, tx).0)
    ensures Push(c, tx).1 <==> tx !in c.seen
    ensures c.size > 0 ==> tx in Push(c, tx).0.seen
  {
    if c.size > 0 && tx !in c.seen {
      var c', d := Push(c, tx).0, MakeRoom(c);
      forall x | x in c'.seen ensures x in c'.order {
        if x != tx { StillListed(c, x); assert x in d.order; }
        else { assert c'.order[|d.order|] == tx; }
      }
    }
  }

  lemma StillListed(c: Cache, x: Tx)
    requires CacheInv(c) && c.size > 0 && x in MakeRoom(c).seen
    ensures x in MakeRoom(c).order
  {
    if |c.order| >= c.size { assert c.order == [c.order[0]] + c.order[1..]; }
  }

  // ---- How long a transaction is remembered ----

  datatype Use = Pushed(tx: Tx) | Removed(tx: Tx)

  function After(c: Cache, use: Use): Cache {
    match use
    case Pushed(tx) => Push(c, tx).0
    case Removed(tx) => Remove(c, tx)
  }

  function AfterAll(c: Cache, uses: seq<Use>): Cache
    decreases |uses|
  {
    if uses == [] then c else AfterAll(After(c, uses[0]), uses[1..])
  }

  // The pushes that were let through.
  function Passed(c: Cache, uses: seq<Use>): nat
    decreases |uses|
  {
    if uses == [] then 0
    else
      (if uses[0].Pushed? && Push(c, uses[0].tx).1 then 1 else 0) + Passed(After(c, uses[0]), uses[1..])
  }

  predicate OfOthers(tx: Tx, uses: seq<Use>) {
    forall i :: 0 <= i < |uses| ==> uses[i].tx != tx
  }

  // The oldest entry for the transaction.
  function Oldest(order: seq<Tx>, tx: Tx): (i: nat)
    requires tx in order
    ensures i < |order| && order[i] == tx && tx !in order[..i]
  {
    if order[0] == tx then 0
    else
      assert order == [order[0]] + order[1..];
      var i := Oldest(order[1..], tx) + 1;
      assert order[..i] == [order[0]] + order[1..][..i - 1];
      i
  }

  lemma {:induction false} ForgottenStays(c: Cache, uses: seq<Use>, tx: Tx)
    requires tx !in c.seen && OfOthers(tx, uses)
    ensures tx !in AfterAll(c, uses).seen
    decreases |uses|
  {
    if uses != [] {
      assert tx !in After(c, uses[0]).seen;
      ForgottenStays(After(c, uses[0]), uses[1..], tx);
    }
  }

  lemma OldestMoves(order: seq<Tx>, tx: Tx, y: Tx)
    requires tx in order
    ensures tx in order + [y] && Oldest(order + [y], tx) == Oldest(order, tx)
    ensures order[0] != tx ==> tx in order[1..] + [y] && Oldest(order[1..] + [y], tx) == Oldest(order, tx) - 1
  {
    OldestIsFirst(order + [y], tx, Oldest(order, tx));
    if order[0] != tx {
      var i := Oldest(order, tx) - 1;
      assert order[1..][..i] == order[..i + 1][1..];
      assert (order[1..] + [y])[..i] == order[1..][..i];
      OldestIsFirst(order[1..] + [y], tx, i);
    }
  }

  lemma OldestIsFirst(order: seq<Tx>, tx: Tx, i: nat)
    requires i < |order| && order[i] == tx && tx !in order[..i]
    ensures tx in order && Oldest(order, tx) == i
  {
    var k := Oldest(order, tx);
    forall j | 0 <= j < i ensures order[j] != tx { assert order[..i][j] == order[j]; }
    forall j | 0 <= j < k ensures order[j] != tx { assert order[..k][j] == order[j]; }
  }

  // Whatever the cache is used for in between, a transaction it has seen is still
  // refused exactly if its oldest entry has not been dropped.
  lemma {:induction false} RememberedIff(c: Cache, uses: seq<Use>, tx: Tx)
    requires CacheInv(c) && tx in c.seen && OfOthers(tx, uses)
    ensures tx in c.order
    ensures tx in AfterAll(c, uses).seen <==> Passed(c, uses) + |c.order| <= c.size + Oldest(c.order, tx)
    decreases |uses|
  {
    if uses == [] { return; }
    var c', y := After(c, uses[0]), uses[0].tx;
    if uses[0].Pushed? && y !in c.seen {
      PushInv(c, y);
      OldestMoves(c.order, tx, y);
      if |c.order| == c.size && c.order[0] == tx {
        OldestIsFirst(c.order, tx, 0);
        ForgottenStays(c', uses[1..], tx);
      } else {
        RememberedIff(c', uses[1..], tx);
      }
    } else {
      RememberedIff(c', uses[1..], tx);
    }
  }

  // A transaction without a stale entry is refused for exactly the next `size - 1`
  // other transactions let through.
  lemma FreshIsRemembered(c: Cache, uses: seq<Use>, tx: Tx)
    requires CacheInv(c) && c.size > 0 && tx !in c.order && OfOthers(tx, uses)
    ensures var c' := Push(c, tx).0; tx in AfterAll(c', uses).seen <==> Passed(c', uses) < c.size
  {
    var c', d := Push(c, tx).0, MakeRoom(c);
    PushInv(c, tx);
    assert c'.order == d.order + [tx];
    assert tx !in d.order;
    OldestIsFirst(c'.order, tx, |d.order|);
    RememberedIff(c', uses, tx);
  }

  // With one it may be forgotten at once: pushed, removed and pushed again, then one
  // other transaction, in a cache for two.
  lemma StaleEntryForgets()
    ensures var c := AfterAll(NewCache(2), [Pushed(1), Removed(1), Pushed(1)]);
      CacheInv(c) && 1 in c.seen && 1 !in AfterAll(c, [Pushed(2)]).seen && Passed(c, [Pushed(2)]) == 1
  {
    var uses := [Pushed(1), Removed(1), Pushed(1)];
    assert uses[1..] == [Removed(1), Pushed(1)] && uses[1..][1..] == [Pushed(1)] && uses[1..][1..][1..] == [];
    var c := AfterAll(NewCache(2), uses);
    assert c == Cache(2, {1}, [1, 1]);
    assert [Pushed(2)][1..] == [];
  }
}
