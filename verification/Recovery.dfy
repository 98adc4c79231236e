// Crash recovery: the durable effects of finalizeCommit (consensus/state.go) and
// ApplyBlock (state/execution.go), and the replay of consensus/replay.go.
//
// A procedure is the list of its durable effects in order; a crash anywhere
// leaves a prefix of them.  Blocks are their heights, and the app hash is
// idealised as the log of blocks the application committed.
module Recovery {

  datatype Action =
    | SaveBlock(h: int)      // blockStore.SaveBlock
    | EndHeight(h: int)      // wal.WriteSync(EndHeightMessage)
    | Exec(h: int)           // BeginBlock, DeliverTx, EndBlock on the real app
    | SaveResponses(h: int)  // saveABCIResponses
    | CommitApp(h: int)      // Commit on the real app
    | SaveState(h: int)      // SaveState with the app hash just returned

  // The three durable heights, the saved responses, the app's log, and the block
  // the app has executed but not committed, which a crash loses.
  datatype World = World(
    store: int, wal: int, state: int, stateHash: seq<int>, responses: set<int>, log: seq<int>, running: int)

  function Apply(w: World, a: Action): World {
    match a
    case SaveBlock(h) => w.(store := h)
    case EndHeight(h) => w.(wal := h)
    case Exec(h) => w.(running := h)
    case SaveResponses(h) => w.(responses := w.responses + {h})
    case CommitApp(h) => w.(log := w.log + [h], running := 0)
    case SaveState(h) => w.(state := h, stateHash := w.log)
  }

  function Do(w: World, plan: seq<Action>): World {
    if plan == [] then w else Apply(Do(w, plan[..|plan| - 1]), plan[|plan| - 1])
  }

  // What LoadBlockHeight in the app's Info response says.
  function AppHeight(w: World): int {
    if w.log == [] then 0 else w.log[|w.log| - 1]
  }

  // ---- The procedures ----

  // ApplyBlock with the real app, and with mockProxyApp.
  function ApplyBlock(h: int): seq<Action> {
    [Exec(h), SaveResponses(h), CommitApp(h), SaveState(h)]
  }

  function ApplyBlockMock(h: int): seq<Action> {
    [SaveResponses(h), SaveState(h)]
  }

  function FinalizeCommit(w: World): seq<Action> {
    var h := w.state + 1;
    (if w.store < h then [SaveBlock(h)] else []) + [EndHeight(h)] + ApplyBlock(h)
  }

  // The loop of replayBlocks: ExecCommitBlock for each of the blocks after `app`.
  function ExecCommits(app: int, last: int): seq<Action>
    decreases last - app
  {
    if last <= app then [] else ExecCommits(app, last - 1) + [Exec(last), CommitApp(last)]
  }

  // The validators of each height, by number.  A block's commit has one vote for each
  // validator of the height before.
  type Sizes = int -> nat

  // The check of getBeginBlockValidatorInfo in the loop of replayBlocks: every old
  // block is run with the LastValidators of the state at hand, not with its own.
  predicate Fits(sizes: Sizes, state: int, h: int) {
    h > 1 ==> sizes(h - 1) == sizes(state)
  }

  // The first of the blocks after `app` that fails it, or the one after the last.
  function Stop(sizes: Sizes, state: int, app: int, last: int): (h: int)
    ensures app < last ==> app < h <= last + 1
    ensures app >= last ==> h == last + 1
    ensures forall k :: app < k < h && k <= last ==> Fits(sizes, state, k)
    ensures h <= last ==> !Fits(sizes, state, h)
    decreases last - app
  {
    if app >= last then last + 1
    else if !Fits(sizes, state, app + 1) then app + 1
    else Stop(sizes, state, app + 1, last)
  }

  // A replay is the list of its effects; LengthPanic has those before the panic.
  datatype Replay =
    | Replay(plan: seq<Action>)
    | LengthPanic(done: seq<Action>)
    | AppTooHigh | StateAboveStore | StoreTooFarAhead | MissingResponses | HashMismatch | ShouldNeverHappen

  // Handshaker.ReplayBlocks; the hash check at the end of replayBlocks is on the
  // state after the plan.
  function ReplayBlocks(sizes: Sizes, w: World): Replay {
    var app := AppHeight(w);
    if w.store == 0 then (if w.stateHash == w.log then Replay([]) else HashMismatch)
    else if w.store < app then AppTooHigh
    else if w.store < w.state then StateAboveStore
    else if w.store > w.state + 1 then StoreTooFarAhead
    else if w.store == w.state then
      if app < w.store then ReplayOld(sizes, w, app, w.store, [])
      else if app == w.store then (if w.stateHash == w.log then Replay([]) else HashMismatch)
      else ShouldNeverHappen
    else if app < w.state then ReplayOld(sizes, w, app, w.store - 1, ApplyBlock(w.store))
    else if app == w.state then Replay(ApplyBlock(w.store))
    else if app == w.store then
      if w.store in w.responses then Replay(ApplyBlockMock(w.store)) else MissingResponses
    else ShouldNeverHappen
  }

  // replayBlocks: the loop, and then the last block if it is not in the state yet.
  function ReplayOld(sizes: Sizes, w: World, app: int, last: int, tail: seq<Action>): Replay {
    var h := Stop(sizes, w.state, app, last);
    if h <= last then LengthPanic(ExecCommits(app, h - 1)) else Checked(w, ExecCommits(app, last) + tail)
  }

  function Checked(w: World, plan: seq<Action>): Replay {
    var w' := Do(w, plan);
    if w'.stateHash == w'.log then Replay(plan) else HashMismatch
  }

  // ---- The invariant every crash point keeps ----

  function Upto(n: int): seq<int> {
    if n <= 0 then [] else Upto(n - 1) + [n]
  }

  ghost predicate OK(w: World) {
    && 0 <= w.state <= w.store <= w.state + 1
    && |w.log| <= w.store && w.log == Upto(|w.log|) && w.stateHash == Upto(w.state)
    && (|w.log| == w.state + 1 ==> w.state + 1 in w.responses)
  }

  // Store, state and app at one height, and the app idle.
  ghost predicate Synced(w: World) {
    OK(w) && w.state == w.store == |w.log| && w.running == 0
  }

  lemma {:induction false} UptoLength(n: nat)
    ensures |Upto(n)| == n && (n > 0 ==> Upto(n)[n - 1] == n)
  {
    if n > 0 { UptoLength(n - 1); }
  }

  lemma AppHeightIsLength(w: World)
    requires OK(w)
    ensures AppHeight(w) == |w.log|
  {
  }

  // The app is given only the block after its last one, and commits it before it is
  // given another.
  predicate InOrder(w: World, a: Action) {
    match a
    case Exec(h) => h == |w.log| + 1 && w.running == 0
    case CommitApp(h) => h == |w.log| + 1 && w.running == h
    case _ => true
  }

  // No saved block and no saved state is given up.
  predicate Keeps(w: World, w': World) {
    w.store <= w'.store && w.state <= w'.state
  }

  // A plan whose every prefix keeps the invariant and the app's order.
  ghost predicate Safe(w: World, plan: seq<Action>) {
    && (forall n :: 0 <= n <= |plan| ==> OK(Do(w, plan[..n])) && Keeps(w, Do(w, plan[..n])))
    && (forall n :: 0 <= n < |plan| ==> InOrder(Do(w, plan[..n]), plan[n]))
  }

  lemma {:induction false} DoAppend(w: World, a: seq<Action>, b: seq<Action>)
    ensures Do(w, a + b) == Do(Do(w, a), b)
  {
    if b == [] {
      assert a + b == a;
    } else {
      assert (a + b)[..|a + b| - 1] == a + b[..|b| - 1];
      DoAppend(w, a, b[..|b| - 1]);
    }
  }

  lemma SafeNone(w: World)
    requires OK(w)
    ensures Safe(w, []) && Do(w, []) == w
  {
  }

  lemma SafeThen(w: World, plan: seq<Action>, a: Action)
    requires Safe(w, plan) && InOrder(Do(w, plan), a)
    requires OK(Apply(Do(w, plan), a)) && Keeps(w, Apply(Do(w, plan), a))
    ensures Safe(w, plan + [a]) && Do(w, plan + [a]) == Apply(Do(w, plan), a)
  {
    var more := plan + [a];
    assert more[..|plan|] == plan;
    forall n | 0 <= n <= |more| ensures OK(Do(w, more[..n])) && Keeps(w, Do(w, more[..n])) {
      if n <= |plan| { assert more[..n] == plan[..n]; } else { assert more[..n] == more; }
    }
    forall n | 0 <= n < |more| ensures InOrder(Do(w, more[..n]), more[n]) {
      if n < |plan| { assert more[..n] == plan[..n]; }
    }
  }

  // Executing and committing the next block, below the state or on top of it.
  lemma SafeExecCommit(w: World, plan: seq<Action>, h: int)
    requires Safe(w, plan)
    requires var w' := Do(w, plan); h == |w'.log| + 1 <= w'.state && w'.running == 0
    ensures Safe(w, plan + [Exec(h), CommitApp(h)])
    ensures Do(w, plan + [Exec(h), CommitApp(h)]) == Do(w, plan).(log := Do(w, plan).log + [h], running := 0)
  {
    hide Safe, Do;
    SafeEnd(w, plan);
    SafeThen(w, plan, Exec(h));
    SafeThen(w, plan + [Exec(h)], CommitApp(h));
    assert plan + [Exec(h)] + [CommitApp(h)] == plan + [Exec(h), CommitApp(h)];
  }

  lemma {:induction false} SafeExecCommits(w: World, app: int, last: int)
    requires OK(w) && app == |w.log| && app <= last <= w.state && w.running == 0
    ensures Safe(w, ExecCommits(app, last))
    ensures Do(w, ExecCommits(app, last)) == w.(log := Upto(last))
    ensures last == app ==> ExecCommits(app, last) == []
    decreases last - app
  {
    hide Safe, Do;
    UptoLength(last);
    SafeNone(w);
    if app < last {
      UptoLength(last - 1);
      SafeExecCommits(w, app, last - 1);
      SafeExecCommit(w, ExecCommits(app, last - 1), last);
    }
  }

  // ApplyBlock for the block above state and app, already in the store.
  lemma SafeApplyBlock(w: World, plan: seq<Action>)
    requires Safe(w, plan)
    requires var w' := Do(w, plan); |w'.log| == w'.state == w'.store - 1 && w'.running == 0
    ensures var w', h := Do(w, plan), Do(w, plan).store;
      && Safe(w, plan + ApplyBlock(h))
      && Do(w, plan + ApplyBlock(h)) ==
           w'.(state := h, stateHash := Upto(h), log := Upto(h), running := 0, responses := w'.responses + {h})
  {
    hide Safe, Do;
    SafeEnd(w, plan);
    var h := Do(w, plan).store;
    UptoLength(h - 1);
    var p1 := plan + [Exec(h)];
    SafeThen(w, plan, Exec(h));
    var p2 := p1 + [SaveResponses(h)];
    SafeThen(w, p1, SaveResponses(h));
    var p3 := p2 + [CommitApp(h)];
    SafeThen(w, p2, CommitApp(h));
    SafeThen(w, p3, SaveState(h));
    assert p3 + [SaveState(h)] == plan + ApplyBlock(h);
  }

  lemma SafeEnd(w: World, plan: seq<Action>)
    requires Safe(w, plan)
    ensures OK(Do(w, plan)) && Keeps(w, Do(w, plan))
  {
    assert plan[..|plan|] == plan;
  }

  lemma SafeApplyBlockMock(w: World)
    requires OK(w) && |w.log| == w.store == w.state + 1
    ensures var h := w.store;
      && Safe(w, ApplyBlockMock(h))
      && Do(w, ApplyBlockMock(h)) == w.(state := h, stateHash := Upto(h), responses := w.responses + {h})
  {
    hide Safe, Do;
    var h := w.store;
    SafeNone(w);
    SafeThen(w, [], SaveResponses(h));
    SafeThen(w, [] + [SaveResponses(h)], SaveState(h));
    assert [] + [SaveResponses(h)] + [SaveState(h)] == ApplyBlockMock(h);
  }

  // ---- The main results ----

  // From synced heights finalizeCommit brings all three to the next height.
  lemma FinalizeCommitSafe(w: World)
    requires Synced(w)
    ensures Safe(w, FinalizeCommit(w))
    ensures Synced(Do(w, FinalizeCommit(w))) && Do(w, FinalizeCommit(w)).store == w.store + 1
  {
    hide Safe, Do;
    var h := w.state + 1;
    SafeNone(w);
    SafeThen(w, [], SaveBlock(h));
    var p := [] + [SaveBlock(h)] + [EndHeight(h)];
    SafeThen(w, [] + [SaveBlock(h)], EndHeight(h));
    SafeApplyBlock(w, p);
    UptoLength(h);
    assert p + ApplyBlock(h) == FinalizeCommit(w);
  }

  // Every block between the app and the state passes the check.
  predicate SameSize(sizes: Sizes, w: World) {
    forall h :: AppHeight(w) < h <= w.state ==> Fits(sizes, w.state, h)
  }

  // The handshake finds a plan if and only if the number of validators has not changed
  // over the blocks to be run again.  The plan is safe and ends with all heights equal.
  lemma ReplaySafeIff(sizes: Sizes, w: World)
    requires OK(w) && w.running == 0
    ensures ReplayBlocks(sizes, w).Replay? <==> SameSize(sizes, w)
    ensures !SameSize(sizes, w) ==> ReplayBlocks(sizes, w).LengthPanic?
    ensures SameSize(sizes, w) ==>
      var plan := ReplayBlocks(sizes, w).plan;
      Safe(w, plan) && Synced(Do(w, plan)) && Do(w, plan).store == w.store
  {
    hide Safe, Do;
    AppHeightIsLength(w);
    UptoLength(w.store);
    UptoLength(w.state);
    SafeNone(w);
    var app := |w.log|;
    StopIff(sizes, w.state, app, w.state);
    if w.store == w.state {
      SafeExecCommits(w, app, w.store);
      assert ExecCommits(app, w.store) + [] == ExecCommits(app, w.store);
    } else if app < w.state {
      SafeExecCommits(w, app, w.state);
      SafeApplyBlock(w, ExecCommits(app, w.state));
    } else if app == w.state {
      SafeApplyBlock(w, []);
      assert [] + ApplyBlock(w.store) == ApplyBlock(w.store);
    } else {
      SafeApplyBlockMock(w);
    }
  }

  // The loop of replayBlocks touches nothing but the app.
  predicate OnApp(plan: seq<Action>) {
    forall i :: 0 <= i < |plan| ==> plan[i].Exec? || plan[i].CommitApp?
  }

  lemma {:induction false} ExecCommitsOnApp(app: int, last: int)
    ensures OnApp(ExecCommits(app, last))
    decreases last - app
  {
    if app < last { ExecCommitsOnApp(app, last - 1); }
  }

  lemma {:induction false} TouchesOnlyApp(w: World, plan: seq<Action>)
    requires OnApp(plan)
    ensures var w' := Do(w, plan); w' == w.(log := w'.log, running := w'.running)
  {
    if plan != [] { TouchesOnlyApp(w, plan[..|plan| - 1]); }
  }

  lemma StopIff(sizes: Sizes, state: int, app: int, last: int)
    ensures Stop(sizes, state, app, last) > last <==> forall h :: app < h <= last ==> Fits(sizes, state, h)
  {
  }

  // An app at the height of the state or above it is brought up in any case.
  lemma NothingToRunAgain(sizes: Sizes, w: World)
    requires AppHeight(w) >= w.state
    ensures SameSize(sizes, w)
  {
  }

  // The panic comes with the blocks before it committed, in a world that is OK and in
  // which the next handshake meets the same block.
  lemma LengthPanicSafe(sizes: Sizes, w: World)
    requires OK(w) && w.running == 0 && ReplayBlocks(sizes, w).LengthPanic?
    ensures var done := ReplayBlocks(sizes, w).done; var w' := Do(w, done);
      && Safe(w, done) && OnApp(done) && w' == w.(log := w'.log) && w.log <= w'.log
      && |w'.log| < w.state && !Fits(sizes, w.state, |w'.log| + 1)
  {
    hide Safe, Do, ReplayBlocks, Stop;
    PanicStops(sizes, w);
    UptoLength(w.state);
    var app := |w.log|;
    var h := Stop(sizes, w.state, app, w.state);
    SafeExecCommits(w, app, h - 1);
    UptoLength(h - 1);
    UptoPrefix(h - 1, app);
    ExecCommitsOnApp(app, h - 1);
  }

  lemma PanicStops(sizes: Sizes, w: World)
    requires OK(w) && ReplayBlocks(sizes, w).LengthPanic?
    ensures var h := Stop(sizes, w.state, |w.log|, w.state);
      |w.log| < h <= w.state && ReplayBlocks(sizes, w) == LengthPanic(ExecCommits(|w.log|, h - 1))
  {
    hide Do, Stop, ExecCommits;
    AppHeightIsLength(w);
  }

  // The blocks a plan commits to the real app, in order.
  function Commits(plan: seq<Action>): seq<int> {
    if plan == [] then []
    else
      var n := |plan| - 1;
      Commits(plan[..n]) + if plan[n].CommitApp? then [plan[n].h] else []
  }

  // The blocks a plan executes on the real app, in order.
  function Execs(plan: seq<Action>): seq<int> {
    if plan == [] then []
    else
      var n := |plan| - 1;
      Execs(plan[..n]) + if plan[n].Exec? then [plan[n].h] else []
  }

  lemma {:induction false} CommitsGrowLog(w: World, plan: seq<Action>)
    ensures Do(w, plan).log == w.log + Commits(plan)
  {
    if plan != [] { CommitsGrowLog(w, plan[..|plan| - 1]); }
  }

  lemma OneMore(plan: seq<Action>, a: Action)
    ensures Commits(plan + [a]) == Commits(plan) + if a.CommitApp? then [a.h] else []
    ensures Execs(plan + [a]) == Execs(plan) + if a.Exec? then [a.h] else []
  {
    assert (plan + [a])[..|plan|] == plan;
  }

  lemma SafePrefix(w: World, plan: seq<Action>, n: nat)
    requires Safe(w, plan) && n <= |plan|
    ensures Safe(w, plan[..n])
  {
    var p := plan[..n];
    forall k | 0 <= k <= n ensures p[..k] == plan[..k] {}
  }

  // From an idle app, a safe plan executes what it commits, and at most the one block
  // that the app is left with.
  lemma {:induction false} SafeExecs(w: World, plan: seq<Action>)
    requires Safe(w, plan) && w.running == 0
    ensures var left := Do(w, plan).running;
      left >= 0 && Execs(plan) == Commits(plan) + if left == 0 then [] else [left]
  {
    if plan != [] {
      var n := |plan| - 1;
      SafePrefix(w, plan, n);
      SafeExecs(w, plan[..n]);
      assert InOrder(Do(w, plan[..n]), plan[n]);
    }
  }

  // Exactly once: an uninterrupted replay executes and commits the blocks from the
  // app's height up to the store's, each once and in order, and none that the app has.
  lemma ReplayRunsOnce(sizes: Sizes, w: World)
    requires OK(w) && w.running == 0 && SameSize(sizes, w)
    ensures ReplayBlocks(sizes, w).Replay?
    ensures w.log + Commits(ReplayBlocks(sizes, w).plan) == Upto(w.store)
    ensures w.log + Execs(ReplayBlocks(sizes, w).plan) == Upto(w.store)
  {
    hide ReplayBlocks, SameSize;
    ReplaySafeIff(sizes, w);
    CommitsGrowLog(w, ReplayBlocks(sizes, w).plan);
    SafeExecs(w, ReplayBlocks(sizes, w).plan);
    UptoLength(w.store);
  }

  // A finalized block is executed and committed once.
  lemma FinalizeRunsOnce(w: World)
    requires Synced(w)
    ensures Execs(FinalizeCommit(w)) == Commits(FinalizeCommit(w)) == [w.store + 1]
  {
    hide FinalizeCommit;
    FinalizeCommitSafe(w);
    CommitsGrowLog(w, FinalizeCommit(w));
    SafeExecs(w, FinalizeCommit(w));
    UptoLength(w.store);
    var commits := Commits(FinalizeCommit(w));
    assert w.log + commits == w.log + [w.store + 1];
    assert commits == (w.log + commits)[|w.log|..] == (w.log + [w.store + 1])[|w.log|..];
  }

  // ---- Whole lives ----

  // A life of the node: blocks finalized and restarts, each possibly cut short
  // after some number of durable effects.  At a restart the app may come back
  // with any prefix of its log.
  datatype Event = Finalize(steps: nat) | Restart(keep: nat, steps: nat)

  function Cut(plan: seq<Action>, steps: nat): seq<Action> {
    if steps < |plan| then plan[..steps] else plan
  }

  function Rebooted(w: World, keep: nat): World {
    w.(log := if keep < |w.log| then w.log[..keep] else w.log, running := 0)
  }

  lemma {:induction false} UptoPrefix(n: nat, k: nat)
    requires k <= n
    ensures |Upto(n)| == n && Upto(n)[..k] == Upto(k)
  {
    UptoLength(n);
    if k < n {
      UptoPrefix(n - 1, k);
      assert Upto(n)[..k] == Upto(n - 1)[..k];
    }
  }

  lemma RebootedOK(w: World, keep: nat)
    requires OK(w)
    ensures OK(Rebooted(w, keep))
  {
    if keep < |w.log| {
      UptoPrefix(|w.log|, keep);
      UptoLength(keep);
    }
  }

  // The world an event starts from, and what it would do if it were not cut short.
  // Consensus only runs while the node is up: a Finalize on one that is down does nothing.
  function Begin(w: World, e: Event): World {
    match e
    case Finalize(_) => w
    case Restart(keep, _) => Rebooted(w, keep)
  }

  function Plan(sizes: Sizes, w: World, up: bool, e: Event): seq<Action> {
    match e
    case Finalize(_) => if up then FinalizeCommit(w) else []
    case Restart(keep, _) =>
      match ReplayBlocks(sizes, Rebooted(w, keep))
      case Replay(plan) => plan
      case LengthPanic(done) => done
      case _ => []
  }

  function Effects(sizes: Sizes, w: World, up: bool, e: Event): seq<Action> {
    Cut(Plan(sizes, w, up, e), e.steps)
  }

  // Whether the node is up afterwards: nothing was cut off and nothing panicked.
  predicate UpAfter(sizes: Sizes, w: World, up: bool, e: Event) {
    && e.steps >= |Plan(sizes, w, up, e)|
    && match e
       case Finalize(_) => up
       case Restart(keep, _) => ReplayBlocks(sizes, Rebooted(w, keep)).Replay?
  }

  lemma PlanSafe(sizes: Sizes, w: World, up: bool, e: Event)
    requires OK(w) && (up ==> Synced(w))
    ensures e.Restart? || up ==> Begin(w, e).running == 0
    ensures OK(Begin(w, e)) && Safe(Begin(w, e), Plan(sizes, w, up, e))
    ensures UpAfter(sizes, w, up, e) ==> Synced(Do(Begin(w, e), Plan(sizes, w, up, e)))
  {
    hide Safe, Do, ReplayBlocks, FinalizeCommit, SameSize;
    match e
    case Finalize(steps) =>
      SafeNone(w);
      if up { FinalizeCommitSafe(w); }
    case Restart(keep, steps) =>
      RebootedOK(w, keep);
      var w1 := Rebooted(w, keep);
      SafeNone(w1);
      ReplaySafeIff(sizes, w1);
      if ReplayBlocks(sizes, w1).LengthPanic? { LengthPanicSafe(sizes, w1); }
  }

  ghost function Next(sizes: Sizes, w: World, up: bool, e: Event): (r: (World, bool))
    requires OK(w) && (up ==> Synced(w))
    ensures OK(r.0) && (r.1 ==> Synced(r.0)) && Keeps(w, r.0)
  {
    PlanSafe(sizes, w, up, e);
    CutSafe(Begin(w, e), Plan(sizes, w, up, e), e.steps);
    (Do(Begin(w, e), Effects(sizes, w, up, e)), UpAfter(sizes, w, up, e))
  }

  lemma CutSafe(w: World, plan: seq<Action>, steps: nat)
    requires Safe(w, plan)
    ensures OK(Do(w, Cut(plan, steps))) && Keeps(w, Do(w, Cut(plan, steps)))
    ensures steps >= |plan| ==> Do(w, Cut(plan, steps)) == Do(w, plan)
  {
    assert plan[..|plan|] == plan;
  }

  ghost function Live(sizes: Sizes, w: World, up: bool, events: seq<Event>): (r: (World, bool))
    requires OK(w) && (up ==> Synced(w))
    ensures OK(r.0) && (r.1 ==> Synced(r.0))
  {
    if events == [] then (w, up)
    else
      var n := |events| - 1;
      var (w1, up1) := Live(sizes, w, up, events[..n]);
      Next(sizes, w1, up1, events[n])
  }

  const GENESIS := World(0, 0, 0, [], {}, [], 0)

  // In every life from genesis: the app's log is always the first blocks, each
  // once and in order, and never ahead of the store; whenever the node is up,
  // store, state and app are at one height; and no stored block or state is lost.
  lemma {:induction false} RecoveryIsExactlyOnce(sizes: Sizes, events: seq<Event>, k: nat)
    requires k <= |events|
    ensures OK(GENESIS)
    ensures var (w, up) := Live(sizes, GENESIS, true, events);
      && w.log == Upto(|w.log|) && |w.log| <= w.store
      && (up ==> w.state == w.store == |w.log|)
      && Keeps(Live(sizes, GENESIS, true, events[..k]).0, w)
    decreases |events|
  {
    hide Next;
    if k < |events| {
      var n := |events| - 1;
      RecoveryIsExactlyOnce(sizes, events[..n], k);
      assert events[..n][..k] == events[..k];
    } else {
      assert events[..k] == events;
    }
  }

  // A restart that is not cut short brings the node up if and only if the number of
  // validators has not changed over the blocks to be run again.
  lemma RestartIff(sizes: Sizes, w: World, up: bool, e: Event)
    requires OK(w) && (up ==> Synced(w)) && e.Restart? && e.steps >= |Plan(sizes, w, up, e)|
    ensures Next(sizes, w, up, e).1 <==> SameSize(sizes, Rebooted(w, e.keep))
  {
    hide ReplayBlocks, SameSize, Do, Safe;
    RebootedOK(w, e.keep);
    ReplaySafeIff(sizes, Rebooted(w, e.keep));
  }

  // ---- After the panic ----

  // A block to be run again that fails the check.
  ghost predicate Blocked(sizes: Sizes, w: World) {
    exists h :: |w.log| < h <= w.state && !Fits(sizes, w.state, h)
  }

  lemma BlockedIsNotSameSize(sizes: Sizes, w: World)
    requires OK(w)
    ensures Blocked(sizes, w) <==> !SameSize(sizes, w)
  {
    AppHeightIsLength(w);
  }

  lemma {:induction false} CommitsPrefix(plan: seq<Action>, n: nat)
    requires n <= |plan|
    ensures |Commits(plan[..n])| <= |Commits(plan)|
    decreases |plan|
  {
    if n < |plan| {
      var m := |plan| - 1;
      CommitsPrefix(plan[..m], n);
      assert plan[..m][..n] == plan[..n];
    } else {
      assert plan[..n] == plan;
    }
  }

  lemma RestartBlocked(sizes: Sizes, w: World, up: bool, e: Event)
    requires OK(w) && (up ==> Synced(w)) && e.Restart? && Blocked(sizes, Rebooted(w, e.keep))
    ensures var r := Next(sizes, w, up, e); !r.1 && Blocked(sizes, r.0)
  {
    hide Safe, ReplayBlocks;
    RebootedOK(w, e.keep);
    var w1 := Rebooted(w, e.keep);
    BlockedIsNotSameSize(sizes, w1);
    ReplaySafeIff(sizes, w1);
    LengthPanicSafe(sizes, w1);
    var done := ReplayBlocks(sizes, w1).done;
    CommitsGrowLog(w1, done);
    CommitsGrowLog(w1, Cut(done, e.steps));
    if e.steps < |done| { CommitsPrefix(done, e.steps); }
    TouchesOnlyApp(w1, Cut(done, e.steps));
    assert !Fits(sizes, w.state, |Do(w1, done).log| + 1);
  }

  lemma StaysBlocked(sizes: Sizes, w: World, e: Event)
    requires OK(w) && Blocked(sizes, w)
    ensures var r := Next(sizes, w, false, e); !r.1 && Blocked(sizes, r.0)
  {
    hide Safe, ReplayBlocks;
    match e
    case Finalize(steps) => assert Effects(sizes, w, false, e) == [];
    case Restart(keep, steps) => RestartBlocked(sizes, w, false, e);
  }

  // Once a restart has met such a block, no life brings the node up again.
  lemma {:induction false} NeverUpAgain(sizes: Sizes, w: World, events: seq<Event>)
    requires OK(w) && Blocked(sizes, w)
    ensures var r := Live(sizes, w, false, events); !r.1 && Blocked(sizes, r.0)
    decreases |events|
  {
    hide Blocked, Next;
    if events != [] {
      var n := |events| - 1;
      NeverUpAgain(sizes, w, events[..n]);
      StaysBlocked(sizes, Live(sizes, w, false, events[..n]).0, events[n]);
    }
  }

  lemma FinalizeUp(sizes: Sizes, w: World, steps: nat)
    requires Synced(w) && steps >= 6
    ensures var r := Next(sizes, w, true, Finalize(steps)); r.1 && Synced(r.0) && r.0.store == w.store + 1
  {
    hide Safe, Do;
    FinalizeCommitSafe(w);
    assert |FinalizeCommit(w)| <= 6;
    CutSafe(w, FinalizeCommit(w), steps);
  }

  lemma {:induction false} LiveAppend(sizes: Sizes, w: World, up: bool, a: seq<Event>, b: seq<Event>)
    requires OK(w) && (up ==> Synced(w))
    ensures var r := Live(sizes, w, up, a); Live(sizes, w, up, a + b) == Live(sizes, r.0, r.1, b)
    decreases |b|
  {
    hide Next, OK, Synced;
    if b == [] {
      assert a + b == a;
    } else {
      var n := |b| - 1;
      LiveAppend(sizes, w, up, a, b[..n]);
      assert (a + b)[..|a + b| - 1] == a + b[..n];
    }
  }

  lemma LiveOne(sizes: Sizes, w: World, up: bool, events: seq<Event>, e: Event)
    requires OK(w) && (up ==> Synced(w))
    ensures var r := Live(sizes, w, up, events); Live(sizes, w, up, events + [e]) == Next(sizes, r.0, r.1, e)
  {
    assert (events + [e])[..|events|] == events;
  }

  function Grown(h: int): nat { if h <= 1 then 1 else 2 }

  // Two blocks, the second with one more validator; then the app comes back without the
  // second, and the node is down for good.
  lemma SizeChangeStops(rest: seq<Event>)
    ensures Synced(GENESIS)
    ensures var two, three := [Finalize(9), Finalize(9)], [Finalize(9), Finalize(9), Restart(1, 9)];
      && Live(Grown, GENESIS, true, two).1
      && !Live(Grown, GENESIS, true, three).1 && !Live(Grown, GENESIS, true, three + rest).1
  {
    hide Next, Blocked;
    var one, two, three := [Finalize(9)], [Finalize(9), Finalize(9)], [Finalize(9), Finalize(9), Restart(1, 9)];
    assert [] + [Finalize(9)] == one && one + [Finalize(9)] == two && two + [Restart(1, 9)] == three;
    FinalizeUp(Grown, GENESIS, 9);
    LiveOne(Grown, GENESIS, true, [], Finalize(9));
    var w1 := Live(Grown, GENESIS, true, one).0;
    FinalizeUp(Grown, w1, 9);
    LiveOne(Grown, GENESIS, true, one, Finalize(9));
    var w2 := Live(Grown, GENESIS, true, two).0;
    LastRefused(w2);
    RestartBlocked(Grown, w2, true, Restart(1, 9));
    LiveOne(Grown, GENESIS, true, two, Restart(1, 9));
    NeverUpAgain(Grown, Live(Grown, GENESIS, true, three).0, rest);
    LiveAppend(Grown, GENESIS, true, three, rest);
  }

  lemma LastRefused(w: World)
    requires OK(w) && w.state == |w.log| == 2
    ensures Blocked(Grown, Rebooted(w, 1))
  {
    assert !Fits(Grown, 2, 2);
  }

  // ---- How often a block is executed ----

  // The blocks executed and committed over a life, in order.
  ghost function Ran(sizes: Sizes, w: World, up: bool, events: seq<Event>): seq<int>
    requires OK(w) && (up ==> Synced(w))
  {
    if events == [] then []
    else
      var n := |events| - 1;
      var (w1, up1) := Live(sizes, w, up, events[..n]);
      Ran(sizes, w, up, events[..n]) + Execs(Effects(sizes, w1, up1, events[n]))
  }

  ghost function Committed(sizes: Sizes, w: World, up: bool, events: seq<Event>): seq<int>
    requires OK(w) && (up ==> Synced(w))
  {
    if events == [] then []
    else
      var n := |events| - 1;
      var (w1, up1) := Live(sizes, w, up, events[..n]);
      Committed(sizes, w, up, events[..n]) + Commits(Effects(sizes, w1, up1, events[n]))
  }

  // The event did something, and stopped between executing a block and committing it.
  ghost predicate CutInBlock(sizes: Sizes, w: World, up: bool, e: Event) {
    (up || e.Restart?) && Do(Begin(w, e), Effects(sizes, w, up, e)).running != 0
  }

  ghost function CutsInBlock(sizes: Sizes, w: World, up: bool, events: seq<Event>): nat
    requires OK(w) && (up ==> Synced(w))
  {
    if events == [] then 0
    else
      var n := |events| - 1;
      var (w1, up1) := Live(sizes, w, up, events[..n]);
      CutsInBlock(sizes, w, up, events[..n]) + if CutInBlock(sizes, w1, up1, events[n]) then 1 else 0
  }

  lemma EventExecs(sizes: Sizes, w: World, up: bool, e: Event)
    requires OK(w) && (up ==> Synced(w))
    ensures var p := Effects(sizes, w, up, e); var left := Do(Begin(w, e), p).running;
      Execs(p) == Commits(p) + if CutInBlock(sizes, w, up, e) then [left] else []
  {
    hide Safe, Plan;
    PlanSafe(sizes, w, up, e);
    var plan := Plan(sizes, w, up, e);
    assert plan[..|plan|] == plan;
    SafePrefix(Begin(w, e), plan, if e.steps < |plan| then e.steps else |plan|);
    if up || e.Restart? {
      SafeExecs(Begin(w, e), Effects(sizes, w, up, e));
    } else {
      NothingPlanned(sizes, w, e);
    }
  }

  lemma NothingPlanned(sizes: Sizes, w: World, e: Event)
    requires e.Finalize?
    ensures Effects(sizes, w, false, e) == []
  {
  }

  // Over a life the blocks executed are those committed, in the same order, if and only
  // if no event stopped inside a block; each that did adds one execution.
  lemma {:induction false} ExecutedOnceIff(sizes: Sizes, w: World, up: bool, events: seq<Event>)
    requires OK(w) && (up ==> Synced(w))
    ensures var ran, committed := Ran(sizes, w, up, events), Committed(sizes, w, up, events);
            var cuts := CutsInBlock(sizes, w, up, events);
      |ran| == |committed| + cuts && (ran == committed <==> cuts == 0)
    decreases |events|
  {
    hide CutInBlock, Effects, Next;
    if events != [] {
      var n := |events| - 1;
      ExecutedOnceIff(sizes, w, up, events[..n]);
      var (w1, up1) := Live(sizes, w, up, events[..n]);
      EventExecs(sizes, w1, up1, events[n]);
    }
  }

  // The first block, cut off after it was executed, and executed again by the restart.
  lemma ExecutedTwice(sizes: Sizes)
    ensures Synced(GENESIS)
    ensures var events := [Finalize(3), Restart(0, 9)];
      Ran(sizes, GENESIS, true, events) == [1, 1] && Committed(sizes, GENESIS, true, events) == [1]
  {
    var events := [Finalize(3), Restart(0, 9)];
    var w1 := Next(sizes, GENESIS, true, events[0]).0;
    assert events[..1] == [events[0]] && events[..1][..0] == [] && events[..2] == events;
    FirstCut(sizes);
    assert Live(sizes, GENESIS, true, events[..1]) == (w1, false);
    hide Next, Effects, Plan, UpAfter;
    SecondRuns(sizes, w1);
  }

  lemma FirstCut(sizes: Sizes)
    ensures Synced(GENESIS)
    ensures var e := Finalize(3); var p := [SaveBlock(1), EndHeight(1), Exec(1)];
      && Effects(sizes, GENESIS, true, e) == p && Execs(p) == [1] && Commits(p) == []
      && Next(sizes, GENESIS, true, e) == (World(1, 1, 0, [], {}, [], 1), false)
  {
    var p := [SaveBlock(1), EndHeight(1), Exec(1)];
    assert FinalizeCommit(GENESIS)[..3] == p;
    OneMore([], SaveBlock(1));
    OneMore([SaveBlock(1)], EndHeight(1));
    OneMore([SaveBlock(1), EndHeight(1)], Exec(1));
    assert [] + [SaveBlock(1)] == [SaveBlock(1)] && [SaveBlock(1)] + [EndHeight(1)] == [SaveBlock(1), EndHeight(1)];
    assert [SaveBlock(1), EndHeight(1)] + [Exec(1)] == p;
    assert p[..2] == [SaveBlock(1), EndHeight(1)] && p[..2][..1] == [SaveBlock(1)] && p[..2][..1][..0] == [];
  }

  lemma SecondRuns(sizes: Sizes, w: World)
    requires w == World(1, 1, 0, [], {}, [], 1)
    ensures OK(w)
    ensures var p := Effects(sizes, w, false, Restart(0, 9)); Execs(p) == Commits(p) == [1]
  {
    hide Execs, Commits, Do, Stop;
    var w1 := Rebooted(w, 0);
    assert ReplayBlocks(sizes, w1) == Replay(ApplyBlock(1));
    NothingToRunAgain(sizes, w1);
    ReplayRunsOnce(sizes, w1);
    assert Upto(1) == Upto(0) + [1] == [1];
    assert Effects(sizes, w, false, Restart(0, 9)) == ApplyBlock(1);
    assert w1.log + Execs(ApplyBlock(1)) == Execs(ApplyBlock(1));
    assert w1.log + Commits(ApplyBlock(1)) == Commits(ApplyBlock(1));
  }
}
