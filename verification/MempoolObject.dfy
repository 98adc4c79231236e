// mempool/mempool.go in its own form: an object whose callbacks and updates
// change the list, the recheck cursor and the requests in flight.
module MempoolObject {
  import opened Types
  import opened Mempools
  import opened TxCaches

  datatype CheckError = Sent | MempoolIsFull | TxInCache | AppConnError

  // mapTxCache, and nopTxCache for a size that is not positive
  class TxCache {
    const size: int
    var seen: set<Tx>
    var order: seq<Tx>

    ghost function View(): Cache
      reads this
    {
      Cache(size, seen, order)
    }

    ghost predicate Valid()
      reads this
    {
      CacheInv(View())
    }

    constructor (size: int)
      ensures Valid() && View() == NewCache(size)
    {
      this.size, seen, order := size, {}, [];
    }

    method Push(tx: Tx) returns (pushed: bool)
      requires Valid()
      modifies this
      ensures Valid() && (View(), pushed) == TxCaches.Push(old(View()), tx)
    {
      PushInv(View(), tx);
      if size <= 0 { return true; }
      if tx in seen { return false; }
      if |order| >= size {
        var popped := order[0];
        seen, order := seen - {popped}, order[1..];
      }
      seen, order := seen + {tx}, order + [tx];
      return true;
    }

    method Remove(tx: Tx)
      requires Valid()
      modifies this`seen
      ensures Valid() && View() == TxCaches.Remove(old(View()), tx)
    {
      seen := seen - {tx};
    }
  }

  class Mempool {
    const maxSize: int
    const recheck: bool
    const cache: TxCache

    // the linked list
    var elems: seq<Tx>
    var live: seq<bool>
    var len: int

    var recheckCursor: Option<nat>
    var recheckEnd: nat
    var rechecking: int
    var queue: seq<Tx>

    ghost function View(): Pool
      reads this
    {
      Pool(elems, live, recheckCursor, recheckEnd, rechecking > 0, queue)
    }

    ghost predicate Valid()
      reads this, cache
    {
      Inv(View()) && len == |List(View())| && 0 <= rechecking <= 1 && cache.Valid()
    }

    constructor (maxSize: int, recheck: bool, cacheSize: int)
      ensures Valid() && View() == Pool([], [], None, 0, false, [])
      ensures fresh(cache) && cache.View() == NewCache(cacheSize)
    {
      this.maxSize, this.recheck := maxSize, recheck;
      cache := new TxCache(cacheSize);
      elems, live, len := [], [], 0;
      recheckCursor, recheckEnd, rechecking, queue := None, 0, 0, [];
    }

    // CheckTx: refused when the pool is full, else when the cache has seen the
    // transaction; a failed connection to the application leaves it in the cache.
    method CheckTx(tx: Tx, connected: bool) returns (err: CheckError)
      requires Valid()
      modifies this`queue, cache
      ensures Valid()
      ensures err == MempoolIsFull <==> |List(View())| >= maxSize
      ensures err == TxInCache <==> |List(View())| < maxSize && tx in old(cache.View()).seen
      ensures err == Sent ==> connected
      ensures View() == if err == Sent then Mempools.CheckTx(old(View()), tx) else old(View())
      ensures cache.View() ==
        if err == MempoolIsFull then old(cache.View()) else TxCaches.Push(old(cache.View()), tx).0
    {
      CheckTxRefines(View(), tx);
      PushInv(cache.View(), tx);
      if len >= maxSize { return MempoolIsFull; }
      var pushed := cache.Push(tx);
      if !pushed { return TxInCache; }
      if !connected { return AppConnError; }
      queue := queue + [tx];
      return Sent;
    }

    // resCb, on the answer to the oldest request
    method ResCb(ok: bool)
      requires Valid() && queue != []
      modifies this, cache
      ensures Valid() && View() == Answer(old(View()), ok)
      ensures cache.View() == if ok then old(cache.View()) else TxCaches.Remove(old(cache.View()), old(queue)[0])
    {
      AnswerRefines(View(), ok);
      var tx := queue[0];
      if recheckCursor.None? {
        ResCbNormal(tx, ok);
      } else {
        ResCbRecheck(tx, ok);
      }
      queue := queue[1..];
    }

    method ResCbNormal(tx: Tx, ok: bool)
      requires |elems| == |live| && len == |List(View())| && cache.Valid()
      modifies this`elems, this`live, this`len, cache
      ensures |elems| == |live| && len == |List(View())| && cache.Valid()
      ensures cache.View() == if ok then old(cache.View()) else TxCaches.Remove(old(cache.View()), tx)
      ensures View() == if ok then old(View()).(elems := old(elems) + [tx], live := old(live) + [true]) else old(View())
    {
      if ok {
        FromAppend(elems, live, tx, 0);
        elems, live, len := elems + [tx], live + [true], len + 1;
        NotifyTxsAvailable();
      } else {
        cache.Remove(tx);
      }
    }

    method ResCbRecheck(tx: Tx, ok: bool)
      requires Valid() && recheckCursor.Some? && queue != [] && tx == queue[0]
      modifies this`live, this`len, this`recheckCursor, this`rechecking, cache
      ensures 0 <= rechecking <= 1 && |elems| == |live| && len == |List(View())| && cache.Valid()
      ensures cache.View() == if ok then old(cache.View()) else TxCaches.Remove(old(cache.View()), tx)
      ensures View().(queue := queue[1..]) == Answer(old(View()), ok)
    {
      ExpectedResponse(View());
      var k := recheckCursor.value;
      if tx != elems[k] {
        assert false; // "Unexpected tx response from proxy during recheck"
      }
      if !ok {
        RemoveOne(elems, live, k);
        live, len := live[k := false], len - 1;
        cache.Remove(tx);
      }
      recheckCursor := if k == recheckEnd then None else NextLive(live, k + 1);
      rechecking := if recheckCursor.None? then 0 else 1;
      if recheckCursor.None? && len > 0 { NotifyTxsAvailable(); }
    }

    method NotifyTxsAvailable()
      requires len > 0
    {
      if len == 0 {
        assert false; // "notified txs available but mempool is empty!"
      }
    }

    // Update, under the lock and after FlushAppConn
    method Update(block: set<Tx>)
      requires Valid() && queue == []
      modifies this
      ensures Valid() && View() == Mempools.Update(old(View()), block, recheck)
    {
      UpdateRefines(View(), block, recheck);
      NoCursor(View());
      RecheckIfAny(View(), block);
      hide Inv, Unlinked, NextLive, LastLive, PlanOf, Without, From;
      var good := FilterTxs(block);
      if recheck && |good| > 0 { RecheckTxs(good); }
    }

    method FilterTxs(block: set<Tx>) returns (good: seq<Tx>)
      requires |elems| == |live| && len == |List(View())|
      modifies this`live, this`len
      ensures View() == old(View()).(live := Unlinked(elems, old(live), block))
      ensures |elems| == |live| && good == List(View()) && len == |good|
    {
      good := [];
      var e := 0;
      while e < |elems|
        invariant 0 <= e <= |elems| == |live| == |old(live)|
        invariant forall j :: 0 <= j < e ==> live[j] == (old(live)[j] && elems[j] !in block)
        invariant forall j :: e <= j < |live| ==> live[j] == old(live)[j]
        invariant good == Before(elems, live, e) && len == |List(View())|
      {
        if live[e] {
          if elems[e] in block {
            RemoveOne(elems, live, e);
            BeforeFrame(elems, live, live[e := false], e);
            live, len := live[e := false], len - 1;
          } else {
            good := good + [elems[e]];
          }
        }
        e := e + 1;
      }
      ListIsBefore(View());
      assert live == Unlinked(elems, old(live), block);
    }

    method RecheckTxs(good: seq<Tx>)
      requires |elems| == |live| && good == List(View()) && |good| > 0 && queue == []
      modifies this`recheckCursor, this`recheckEnd, this`rechecking, this`queue
      ensures rechecking == 1
      ensures LastLive(live).Some?
      ensures View() == old(View()).(
                cursor := NextLive(live, 0), end := LastLive(live).value, rechecking := true, queue := good)
    {
      if LastLive(live).None? { SkipDead(elems, live, 0, |elems|); }
      rechecking := 1;
      recheckCursor := NextLive(live, 0);
      recheckEnd := LastLive(live).value;
      var i := 0;
      while i < |good|
        invariant 0 <= i <= |good| && queue == good[..i]
        modifies this`queue
      {
        queue := queue + [good[i]];
        i := i + 1;
      }
    }

    // Reap, once no recheck is going on: a prefix of the list.
    method Reap(maxTxs: int) returns (txs: seq<Tx>)
      requires Valid() && rechecking == 0
      ensures txs <= List(View())
      ensures |txs| == if 0 <= maxTxs < |List(View())| then maxTxs else |List(View())|
    {
      if maxTxs == 0 { return []; }
      var max := if maxTxs < 0 then len else maxTxs;
      txs := [];
      var e := 0;
      while e < |elems| && |txs| < max
        invariant 0 <= e <= |elems|
        invariant txs == Before(elems, live, e) && (|txs| <= max || max == 0)
      {
        BeforeThenFrom(elems, live, e);
        if live[e] { txs := txs + [elems[e]]; }
        e := e + 1;
      }
      BeforeThenFrom(elems, live, e);
    }
  }

  // With every request answered no recheck is going on.
  lemma NoCursor(p: Pool)
    requires Inv(p) && p.queue == []
    ensures p.cursor.None? && !p.rechecking && |p.elems| == |p.live|
  {
    if p.cursor.Some? { ExpectedResponse(p); }
  }

  // Something is left to recheck exactly when the list has a last element.
  lemma RecheckIfAny(p: Pool, block: set<Tx>)
    requires |p.elems| == |p.live|
    ensures var q := p.(live := Unlinked(p.elems, p.live, block)); |List(q)| > 0 <==> LastLive(q.live).Some?
  {
    var live := Unlinked(p.elems, p.live, block);
    match LastLive(live)
    case None => SkipDead(p.elems, live, 0, |p.elems|);
    case Some(k) => BeforeThenFrom(p.elems, live, k);
  }

  lemma RemoveOne(elems: seq<Tx>, live: seq<bool>, k: nat)
    requires |elems| == |live| && k < |live| && live[k]
    ensures |From(elems, live[k := false], 0)| == |From(elems, live, 0)| - 1
  {
    var live' := live[k := false];
    BeforeThenFrom(elems, live, k);
    BeforeThenFrom(elems, live', k);
    BeforeFrame(elems, live, live', k);
    FromFrame(elems, live, live', k + 1);
  }
}
