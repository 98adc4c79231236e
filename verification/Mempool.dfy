// mempool/mempool.go: the pool of transactions and its recheck after each block.
//
// The linked list is an arena: `elems` holds every element ever pushed, `live`
// says which are still linked, and Next of an element, removed or not, is the
// next live one.  `queue` holds the transactions of the requests the application
// has not answered yet; it answers them in order.
module Mempools {
  import opened Types

  type Tx = nat

  datatype Pool = Pool(
    elems: seq<Tx>, live: seq<bool>, cursor: Option<nat>, end: nat, rechecking: bool, queue: seq<Tx>)

  // The live transactions from position `i` on.
  function From(elems: seq<Tx>, live: seq<bool>, i: nat): seq<Tx>
    requires |elems| == |live|
    decreases |elems| - i
  {
    if i >= |elems| then []
    else if live[i] then [elems[i]] + From(elems, live, i + 1)
    else From(elems, live, i + 1)
  }

  // The live transactions before position `i`.
  function Before(elems: seq<Tx>, live: seq<bool>, i: nat): seq<Tx>
    requires |elems| == |live| && i <= |elems|
  {
    if i == 0 then []
    else Before(elems, live, i - 1) + if live[i - 1] then [elems[i - 1]] else []
  }

  // The first live position from `i` on.
  function NextLive(live: seq<bool>, i: nat): (k: Option<nat>)
    ensures k.Some? ==> i <= k.value < |live| && live[k.value] && forall j :: i <= j < k.value ==> !live[j]
    ensures k.None? ==> forall j :: i <= j < |live| ==> !live[j]
    decreases |live| - i
  {
    if i >= |live| then None else if live[i] then Some(i) else NextLive(live, i + 1)
  }

  // The last live position.
  function LastLive(live: seq<bool>): (k: Option<nat>)
    ensures k.Some? ==> k.value < |live| && live[k.value] && forall j :: k.value < j < |live| ==> !live[j]
    ensures k.None? ==> forall j :: 0 <= j < |live| ==> !live[j]
  {
    if live == [] then None
    else if live[|live| - 1] then Some(|live| - 1)
    else LastLive(live[..|live| - 1])
  }

  function List(p: Pool): seq<Tx>
    requires |p.elems| == |p.live|
  {
    From(p.elems, p.live, 0)
  }

  // While a recheck is on, the oldest requests are for the elements from the cursor on.
  ghost predicate Inv(p: Pool) {
    && |p.elems| == |p.live|
    && (p.rechecking <==> p.cursor.Some?)
    && match p.cursor
       case None => true
       case Some(k) =>
         && k <= p.end < |p.elems| && p.live[k] && p.live[p.end]
         && (forall j :: p.end < j < |p.elems| ==> !p.live[j])
         && From(p.elems, p.live, k) <= p.queue
  }

  // ---- What the recheck is for, without list or cursor ----

  // `kept` is settled, `pending` awaits its recheck, `later` its first check.
  datatype Plan = Plan(kept: seq<Tx>, pending: seq<Tx>, later: seq<Tx>)

  function PlanOf(p: Pool): Plan
    requires Inv(p)
  {
    match p.cursor
    case None => Plan(List(p), [], p.queue)
    case Some(k) =>
      var pending := From(p.elems, p.live, k);
      Plan(Before(p.elems, p.live, k), pending, p.queue[|pending|..])
  }

  function PlanAnswer(s: Plan, ok: bool): Plan
    requires s.pending != [] || s.later != []
  {
    if s.pending != [] then Plan(s.kept + (if ok then [s.pending[0]] else []), s.pending[1..], s.later)
    else Plan(s.kept + (if ok then [s.later[0]] else []), [], s.later[1..])
  }

  // ---- The list ----

  lemma {:induction false} BeforeThenFrom(elems: seq<Tx>, live: seq<bool>, i: nat)
    requires |elems| == |live| && i <= |elems|
    ensures Before(elems, live, i) + From(elems, live, i) == From(elems, live, 0)
  {
    if i > 0 { BeforeThenFrom(elems, live, i - 1); }
  }

  // From `i` on only what lies there matters.
  lemma {:induction false} FromFrame(elems: seq<Tx>, live: seq<bool>, live': seq<bool>, i: nat)
    requires |elems| == |live| == |live'| && forall j :: i <= j < |live| ==> live[j] == live'[j]
    ensures From(elems, live, i) == From(elems, live', i)
    decreases |elems| - i
  {
    if i < |elems| { FromFrame(elems, live, live', i + 1); }
  }

  lemma {:induction false} BeforeFrame(elems: seq<Tx>, live: seq<bool>, live': seq<bool>, i: nat)
    requires |elems| == |live| == |live'| && i <= |elems| && forall j :: 0 <= j < i ==> live[j] == live'[j]
    ensures Before(elems, live, i) == Before(elems, live', i)
  {
    if i > 0 { BeforeFrame(elems, live, live', i - 1); }
  }

  // Removed elements do not show.
  lemma {:induction false} SkipDead(elems: seq<Tx>, live: seq<bool>, i: nat, k: nat)
    requires |elems| == |live| && i <= k <= |elems| && forall j :: i <= j < k ==> !live[j]
    ensures From(elems, live, i) == From(elems, live, k) && Before(elems, live, i) == Before(elems, live, k)
    decreases k - i
  {
    if i < k { SkipDead(elems, live, i + 1, k); }
  }

  lemma {:induction false} FromAppend(elems: seq<Tx>, live: seq<bool>, tx: Tx, i: nat)
    requires |elems| == |live| && i <= |elems|
    ensures From(elems + [tx], live + [true], i) == From(elems, live, i) + [tx]
    decreases |elems| - i
  {
    if i < |elems| { FromAppend(elems, live, tx, i + 1); }
  }

  // ---- Responses ----

  // resCb: the application's answer to the oldest request.
  function Answer(p: Pool, ok: bool): Pool
    requires |p.elems| == |p.live| && p.queue != [] && (p.cursor.Some? ==> p.cursor.value < |p.live|)
  {
    match p.cursor
    case None =>
      if ok then p.(elems := p.elems + [p.queue[0]], live := p.live + [true], queue := p.queue[1..])
      else p.(queue := p.queue[1..])
    case Some(k) =>
      var live := if ok then p.live else p.live[k := false];
      var next := if k == p.end then None else NextLive(live, k + 1);
      p.(live := live, cursor := next, rechecking := next.Some?, queue := p.queue[1..])
  }

  // The response that comes in is the one the cursor expects: resCbRecheck cannot panic.
  lemma ExpectedResponse(p: Pool)
    requires Inv(p) && p.cursor.Some?
    ensures p.queue != [] && p.queue[0] == p.elems[p.cursor.value]
  {
  }

  // After the answer for the element at the cursor, what is before and from the next position.
  lemma CursorMoves(p: Pool, ok: bool)
    requires Inv(p) && p.cursor.Some? && p.queue != []
    ensures var k, q := p.cursor.value, Answer(p, ok);
      && From(p.elems, q.live, k + 1) == From(p.elems, p.live, k)[1..]
      && Before(p.elems, q.live, k + 1) == Before(p.elems, p.live, k) + if ok then [p.elems[k]] else []
  {
    var k, q := p.cursor.value, Answer(p, ok);
    FromFrame(p.elems, p.live, q.live, k + 1);
    BeforeFrame(p.elems, p.live, q.live, k);
  }

  lemma RecheckRefines(p: Pool, ok: bool)
    requires Inv(p) && p.cursor.Some? && p.queue != []
    ensures Inv(Answer(p, ok)) && PlanOf(p).pending != []
    ensures PlanOf(Answer(p, ok)) == PlanAnswer(PlanOf(p), ok)
  {
    var k, q := p.cursor.value, Answer(p, ok);
    ExpectedResponse(p);
    CursorMoves(p, ok);
    var rest := From(p.elems, p.live, k);
    assert p.queue[1..][..|rest| - 1] == p.queue[..|rest|][1..] == rest[1..];
    if k == p.end {
      SkipDead(p.elems, q.live, k + 1, |p.elems|);
      BeforeThenFrom(p.elems, q.live, k + 1);
    } else {
      assert q.live[p.end];
      SkipDead(p.elems, q.live, k + 1, q.cursor.value);
    }
  }

  lemma NormalRefines(p: Pool, ok: bool)
    requires Inv(p) && p.cursor.None? && p.queue != []
    ensures Inv(Answer(p, ok)) && PlanOf(Answer(p, ok)) == PlanAnswer(PlanOf(p), ok)
  {
    FromAppend(p.elems, p.live, p.queue[0], 0);
  }

  // resCb carries out one step of the plan.
  lemma AnswerRefines(p: Pool, ok: bool)
    requires Inv(p) && p.queue != []
    ensures Inv(Answer(p, ok)) && (PlanOf(p).pending != [] || PlanOf(p).later != [])
    ensures PlanOf(Answer(p, ok)) == PlanAnswer(PlanOf(p), ok)
  {
    if p.cursor.Some? { RecheckRefines(p, ok); } else { NormalRefines(p, ok); }
  }

  // CheckTx, for a transaction that gets past the size limit and the cache.
  function CheckTx(p: Pool, tx: Tx): Pool {
    p.(queue := p.queue + [tx])
  }

  lemma CheckTxRefines(p: Pool, tx: Tx)
    requires Inv(p)
    ensures Inv(CheckTx(p, tx)) && PlanOf(CheckTx(p, tx)) == PlanOf(p).(later := PlanOf(p).later + [tx])
  {
    if p.cursor.Some? {
      var pending := From(p.elems, p.live, p.cursor.value);
      assert (p.queue + [tx])[..|pending|] == p.queue[..|pending|];
    }
  }

  // ---- Update ----

  // The list without the transactions of a block.
  function Without(list: seq<Tx>, block: set<Tx>): seq<Tx> {
    if list == [] then []
    else Without(list[..|list| - 1], block) + if list[|list| - 1] in block then [] else [list[|list| - 1]]
  }

  function Unlinked(elems: seq<Tx>, live: seq<bool>, block: set<Tx>): seq<bool>
    requires |elems| == |live|
  {
    seq(|live|, i requires 0 <= i < |live| => live[i] && elems[i] !in block)
  }

  // Update, called under the lock with every request answered.
  function Update(p: Pool, block: set<Tx>, recheck: bool): Pool
    requires |p.elems| == |p.live|
  {
    var q := p.(live := Unlinked(p.elems, p.live, block));
    if !recheck || LastLive(q.live).None? then q
    else q.(cursor := NextLive(q.live, 0), end := LastLive(q.live).value, rechecking := true, queue := List(q))
  }

  lemma {:induction false} WithoutAppend(a: seq<Tx>, b: seq<Tx>, block: set<Tx>)
    ensures Without(a + b, block) == Without(a, block) + Without(b, block)
  {
    if b == [] {
      assert a + b == a;
    } else {
      assert (a + b)[..|a + b| - 1] == a + b[..|b| - 1];
      WithoutAppend(a, b[..|b| - 1], block);
    }
  }

  lemma {:induction false} UnlinkedList(elems: seq<Tx>, live: seq<bool>, block: set<Tx>, i: nat)
    requires |elems| == |live| && i <= |elems|
    ensures Before(elems, Unlinked(elems, live, block), i) == Without(Before(elems, live, i), block)
  {
    if i > 0 {
      UnlinkedList(elems, live, block, i - 1);
      WithoutAppend(Before(elems, live, i - 1), if live[i - 1] then [elems[i - 1]] else [], block);
      assert Without([elems[i - 1]][..0], block) == [];
    }
  }

  lemma ListIsBefore(p: Pool)
    requires |p.elems| == |p.live|
    ensures List(p) == Before(p.elems, p.live, |p.elems|)
  {
    BeforeThenFrom(p.elems, p.live, |p.elems|);
  }

  // Update leaves the uncommitted transactions, all of them to be rechecked if asked for.
  lemma UpdateRefines(p: Pool, block: set<Tx>, recheck: bool)
    requires Inv(p) && p.queue == []
    ensures Inv(Update(p, block, recheck))
    ensures PlanOf(Update(p, block, recheck)) ==
      var good := Without(List(p), block); if recheck then Plan([], good, []) else Plan(good, [], [])
  {
    if p.cursor.Some? { ExpectedResponse(p); }
    var live := Unlinked(p.elems, p.live, block);
    var q := p.(live := live);
    ListIsBefore(p);
    ListIsBefore(q);
    UnlinkedList(p.elems, p.live, block, |p.elems|);
    var n := |p.elems|;
    if LastLive(live).None? {
      SkipDead(p.elems, live, 0, n);
    } else {
      var k := NextLive(live, 0).value;
      SkipDead(p.elems, live, 0, k);
    }
  }

  // ---- Any run after an update ----

  datatype Step = Asked(tx: Tx) | Answered(ok: bool)

  // An answer can only come to a request.
  ghost function Run(p: Pool, steps: seq<Step>): (q: Pool)
    requires Inv(p)
    ensures Inv(q)
  {
    if steps == [] then p
    else
      var n := |steps| - 1;
      var q := Run(p, steps[..n]);
      match steps[n]
      case Asked(tx) =>
        CheckTxRefines(q, tx);
        CheckTx(q, tx)
      case Answered(ok) =>
        if q.queue == [] then q
        else
          AnswerRefines(q, ok);
          Answer(q, ok)
  }

  // The transactions newly asked about, in order.
  function New(steps: seq<Step>): seq<Tx> {
    if steps == [] then []
    else
      var n := |steps| - 1;
      New(steps[..n]) + if steps[n].Asked? then [steps[n].tx] else []
  }

  // The application's verdicts, in order; `outstanding` requests were there to begin with.
  function Verdicts(outstanding: nat, steps: seq<Step>): (v: seq<bool>)
    ensures |v| <= outstanding + |New(steps)|
  {
    if steps == [] then []
    else
      var n := |steps| - 1;
      var v := Verdicts(outstanding, steps[..n]);
      if steps[n].Answered? && |v| < outstanding + |New(steps[..n])| then v + [steps[n].ok] else v
  }

  // The transactions of `txs` with a favourable verdict, in order.
  function Chosen(txs: seq<Tx>, v: seq<bool>): seq<Tx>
    requires |v| <= |txs|
  {
    if v == [] then []
    else
      var n := |v| - 1;
      Chosen(txs, v[..n]) + if v[n] then [txs[n]] else []
  }

  lemma {:induction false} ChosenMore(txs: seq<Tx>, more: seq<Tx>, v: seq<bool>)
    requires |v| <= |txs|
    ensures Chosen(txs + more, v) == Chosen(txs, v)
  {
    if v != [] { ChosenMore(txs, more, v[..|v| - 1]); }
  }

  lemma {:induction false} ChosenSplit(a: seq<Tx>, b: seq<Tx>, v: seq<bool>)
    requires |a| <= |v| <= |a| + |b|
    ensures Chosen(a + b, v) == Chosen(a, v[..|a|]) + Chosen(b, v[|a|..])
    decreases |v|
  {
    var n := |v| - 1;
    if |v| == |a| {
      assert v[..|a|] == v && v[|a|..] == [];
      ChosenMore(a, b, v);
    } else {
      ChosenSplit(a, b, v[..n]);
      assert v[..n][..|a|] == v[..|a|] && v[|a|..][..n - |a|] == v[..n][|a|..];
    }
  }

  // The plan a run arrives at: the first |v| requests are settled, the rest stand.
  ghost predicate Arrived(start: Plan, end: Plan, more: seq<Tx>, v: seq<bool>) {
    var asked := start.pending + start.later + more;
    && |v| <= |asked|
    && end.kept == start.kept + Chosen(asked, v)
    && end.pending + end.later == asked[|v|..]
    && |end.pending| == if |v| < |start.pending| then |start.pending| - |v| else 0
  }

  lemma {:induction false} RunArrives(p: Pool, steps: seq<Step>)
    requires Inv(p)
    ensures Arrived(PlanOf(p), PlanOf(Run(p, steps)), New(steps), Verdicts(|p.queue|, steps))
  {
    hide Arrived, PlanOf, Inv, Answer, PlanAnswer;
    QueueIsPlan(p);
    if steps == [] {
      ArrivedStart(PlanOf(p));
    } else {
      var n := |steps| - 1;
      RunArrives(p, steps[..n]);
      var q, more, v := Run(p, steps[..n]), New(steps[..n]), Verdicts(|p.queue|, steps[..n]);
      QueueIsPlan(q);
      ArrivedCount(PlanOf(p), PlanOf(q), more, v);
      match steps[n]
      case Asked(tx) =>
        CheckTxRefines(q, tx);
        ArrivedAsk(PlanOf(p), PlanOf(q), more, v, tx);
      case Answered(ok) =>
        assert New(steps) == more;
        if q.queue != [] {
          AnswerRefines(q, ok);
          ArrivedAnswer(PlanOf(p), PlanOf(q), more, v, ok);
        }
    }
  }

  lemma ArrivedStart(s: Plan)
    ensures Arrived(s, s, [], [])
  {
  }

  lemma ArrivedCount(start: Plan, end: Plan, more: seq<Tx>, v: seq<bool>)
    requires Arrived(start, end, more, v)
    ensures |v| + |end.pending + end.later| == |start.pending + start.later| + |more|
  {
  }

  lemma QueueIsPlan(p: Pool)
    requires Inv(p)
    ensures p.queue == PlanOf(p).pending + PlanOf(p).later
  {
  }

  lemma ArrivedAsk(start: Plan, end: Plan, more: seq<Tx>, v: seq<bool>, tx: Tx)
    requires Arrived(start, end, more, v)
    ensures Arrived(start, end.(later := end.later + [tx]), more + [tx], v)
  {
    var asked := start.pending + start.later + more;
    assert start.pending + start.later + (more + [tx]) == asked + [tx];
    ChosenMore(asked, [tx], v);
    assert (asked + [tx])[|v|..] == asked[|v|..] + [tx];
  }

  lemma ArrivedAnswer(start: Plan, end: Plan, more: seq<Tx>, v: seq<bool>, ok: bool)
    requires Arrived(start, end, more, v) && end.pending + end.later != []
    ensures Arrived(start, PlanAnswer(end, ok), more, v + [ok])
  {
  }

  // The pool some time after a block was committed.
  ghost function AfterBlock(p: Pool, block: set<Tx>, steps: seq<Step>): Pool
    requires Inv(p) && p.queue == []
  {
    UpdateRefines(p, block, true);
    Run(Update(p, block, true), steps)
  }

  // Recheck is an order-preserving filter.  After a block, and whatever new
  // transactions arrive meanwhile: the pool is rechecking exactly while one of the
  // remaining transactions awaits its verdict; from then on the list is the old one
  // without the committed and the now invalid, followed by the newly accepted.
  lemma RecheckIsFilter(p: Pool, block: set<Tx>, steps: seq<Step>)
    requires Inv(p) && p.queue == []
    ensures var good := Without(List(p), block);
            var q, v := AfterBlock(p, block, steps), Verdicts(|good|, steps);
      && |q.elems| == |q.live| && (q.rechecking <==> |v| < |good|)
      && (|v| >= |good| ==> List(q) == Chosen(good, v[..|good|]) + Chosen(New(steps), v[|good|..]))
  {
    var good := Without(List(p), block);
    var u := Update(p, block, true);
    UpdateRefines(p, block, true);
    QueueIsPlan(u);
    assert u.queue == good;
    RunArrives(u, steps);
    var q, v := Run(u, steps), Verdicts(|good|, steps);
    assert good + [] + New(steps) == good + New(steps);
    if q.rechecking { PendingIsLive(q); }
    if |v| >= |good| { ChosenSplit(good, New(steps), v); }
  }

  lemma PendingIsLive(p: Pool)
    requires Inv(p) && p.rechecking
    ensures PlanOf(p).pending != []
  {
  }
}
