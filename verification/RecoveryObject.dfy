// consensus/replay.go, finalizeCommit and ApplyBlock in their own form: methods
// that change the stores and the app one durable effect at a time, on a machine
// that may die before any of them.
module RecoveryObject {
  import opened Recovery

  // The machine got through the first effects of `plan`, all of them if it is alive.
  ghost predicate Performed(w: World, left: nat, plan: seq<Action>, w': World, left': nat, alive: bool) {
    && w' == Do(w, Cut(plan, left))
    && (alive <==> left >= |plan|)
    && (alive ==> left' == left - |plan|)
  }

  lemma PerformedNone(w: World, left: nat)
    ensures Performed(w, left, [], w, left, true)
  {
  }

  // Doing one plan and, if still alive, another.
  lemma PerformedThen(w: World, left: nat, a: seq<Action>, w1: World, left1: nat, b: seq<Action>,
                      w2: World, left2: nat, alive: bool)
    requires Performed(w, left, a, w1, left1, true) && Performed(w1, left1, b, w2, left2, alive)
    ensures Performed(w, left, a + b, w2, left2, alive)
  {
    assert Cut(a + b, left) == a + Cut(b, left1);
    DoAppend(w, a, Cut(b, left1));
  }

  lemma PerformedCut(w: World, left: nat, a: seq<Action>, b: seq<Action>, w': World, left': nat, left'': nat)
    requires Performed(w, left, a, w', left', false)
    ensures Performed(w, left, a + b, w', left'', false)
  {
    assert (a + b)[..left] == a[..left];
  }

  // How a replay ends: it gets through, the machine dies, or the commit-length check panics.
  datatype Ending = Survived | Died | Panicked

  ghost predicate Ends(w: World, left: nat, replay: Replay, w': World, left': nat, end: Ending) {
    match replay
    case Replay(plan) => Performed(w, left, plan, w', left', end == Survived) && end != Panicked
    case LengthPanic(done) => Performed(w, left, done, w', left', end == Panicked) && end != Survived
    case _ => false
  }

  // However it ends the world is recoverable, and the app has lost nothing; after the
  // panic the next replay meets the same block.
  lemma EndsSafe(sizes: Sizes, w: World, left: nat, w': World, left': nat, end: Ending)
    requires OK(w) && w.running == 0 && Ends(w, left, Recovery.ReplayBlocks(sizes, w), w', left', end)
    ensures OK(w') && Keeps(w, w') && w.log <= w'.log
    ensures end == Survived ==> Synced(w') && w'.store == w.store
    ensures end == Panicked ==> Blocked(sizes, w')
  {
    hide Performed, Safe, Do, Recovery.ReplayBlocks, SameSize;
    ReplaySafeIff(sizes, w);
    match Recovery.ReplayBlocks(sizes, w)
    case Replay(plan) => PerformedSafe(w, left, plan, w', left', end == Survived);
    case LengthPanic(done) =>
      LengthPanicSafe(sizes, w);
      PerformedSafe(w, left, done, w', left', end == Panicked);
      assert !Fits(sizes, w.state, |Do(w, done).log| + 1);
  }

  class Machine {
    const sizes: Sizes
    var world: World
    var left: nat // how many more durable effects before it dies

    constructor (sizes: Sizes, world: World, left: nat)
      ensures this.sizes == sizes && this.world == world && this.left == left
    {
      this.sizes, this.world, this.left := sizes, world, left;
    }

    method Perform(a: Action) returns (alive: bool)
      modifies this
      ensures Performed(old(world), old(left), [a], world, left, alive)
    {
      alive := left > 0;
      if alive {
        world, left := Apply(world, a), left - 1;
        assert [a][..0] == [];
      }
    }

    // ApplyBlock on the block above the state, with the real app behind it; or, when
    // the app has the block already, with mockProxyApp, which touches nothing durable.
    // Wherever it dies the world is recoverable; if it does not, the heights agree.
    method ApplyBlock(h: int, mock: bool) returns (alive: bool)
      requires OK(world) && h == world.store == world.state + 1
      requires |world.log| == (if mock then h else h - 1) && world.running == 0
      modifies this
      ensures OK(world) && Keeps(old(world), world) && old(world).log <= world.log
      ensures alive ==> Synced(world) && world.store == h
      ensures var plan := if mock then ApplyBlockMock(h) else Recovery.ApplyBlock(h);
        Performed(old(world), old(left), plan, world, left, alive)
    {
      hide Safe, Do;
      if mock {
        alive := PerformAll([SaveResponses(h), SaveState(h)]);
        SafeApplyBlockMock(old(world));
        PerformedSafe(old(world), old(left), ApplyBlockMock(h), world, left, alive);
      } else {
        alive := PerformAll([Exec(h), SaveResponses(h), CommitApp(h), SaveState(h)]);
        SafeNone(old(world));
        SafeApplyBlock(old(world), []);
        assert [] + Recovery.ApplyBlock(h) == Recovery.ApplyBlock(h);
        PerformedSafe(old(world), old(left), Recovery.ApplyBlock(h), world, left, alive);
      }
      UptoLength(h);
    }

    method PerformAll(plan: seq<Action>) returns (alive: bool)
      modifies this
      ensures Performed(old(world), old(left), plan, world, left, alive)
    {
      hide Performed;
      PerformedNone(world, left);
      alive := true;
      var i := 0;
      while i < |plan|
        invariant 0 <= i <= |plan| && alive
        invariant Performed(old(world), old(left), plan[..i], world, left, true)
      {
        ghost var w, l := world, left;
        alive := Perform(plan[i]);
        PerformedThen(old(world), old(left), plan[..i], w, l, [plan[i]], world, left, alive);
        assert plan[..i] + [plan[i]] == plan[..i + 1];
        i := i + 1;
        if !alive {
          PerformedCut(old(world), old(left), plan[..i], plan[i..], world, left, left);
          assert plan[..i] + plan[i..] == plan;
          return;
        }
      }
      assert plan[..i] == plan;
    }

    // finalizeCommit, from saving the block on: recoverable wherever it dies, and
    // one height further if it does not.
    method FinalizeCommit() returns (alive: bool)
      requires Synced(world)
      modifies this
      ensures OK(world) && Keeps(old(world), world) && old(world).log <= world.log
      ensures alive ==> Synced(world) && world.store == old(world).store + 1
      ensures Performed(old(world), old(left), Recovery.FinalizeCommit(old(world)), world, left, alive)
    {
      hide Safe, Do;
      var h := world.state + 1;
      var plan := [];
      if world.store < h { plan := [SaveBlock(h)]; }
      alive := PerformAll(plan + [EndHeight(h)] + [Exec(h), SaveResponses(h), CommitApp(h), SaveState(h)]);
      FinalizeCommitSafe(old(world));
      PerformedSafe(old(world), old(left), Recovery.FinalizeCommit(old(world)), world, left, alive);
    }

    // The loop of replayBlocks: each block is run with the LastValidators of the state,
    // and getBeginBlockValidatorInfo panics on a commit of another length.
    method ExecBlocks(app: int, last: int) returns (end: Ending)
      requires OK(world) && world.running == 0 && app == |world.log| <= last <= world.state
      modifies this
      ensures var stop := Stop(sizes, old(world).state, app, last);
        if stop <= last
        then Ends(old(world), old(left), LengthPanic(ExecCommits(app, stop - 1)), world, left, end)
        else Ends(old(world), old(left), Replay(ExecCommits(app, last)), world, left, end)
    {
      hide Performed, Safe, Do, Stop;
      var state := world.state;
      ghost var stop := Stop(sizes, state, app, last);
      ghost var target := if stop <= last then stop - 1 else last;
      PerformedNone(world, left);
      var i := app + 1;
      while i <= last
        invariant app + 1 <= i <= target + 1
        invariant Performed(old(world), old(left), ExecCommits(app, i - 1), world, left, true)
      {
        if !Fits(sizes, state, i) { return Panicked; }
        ghost var w, l := world, left;
        var alive := PerformAll([Exec(i), CommitApp(i)]);
        PerformedThen(old(world), old(left), ExecCommits(app, i - 1), w, l,
                      [Exec(i), CommitApp(i)], world, left, alive);
        if !alive {
          ghost var rest := MoreCommits(app, i, target);
          PerformedCut(old(world), old(left), ExecCommits(app, i), rest, world, left, left);
          return Died;
        }
        i := i + 1;
      }
      return Survived;
    }

    // replayBlocks, for an app behind the state
    method ReplayOld(app: int, store: int, mutateState: bool) returns (end: Ending)
      requires OK(world) && world.running == 0 && app == |world.log| < world.state
      requires store == world.store == world.state + (if mutateState then 1 else 0)
      modifies this
      ensures Ends(old(world), old(left), Recovery.ReplayBlocks(sizes, old(world)), world, left, end)
      ensures OK(world) && Keeps(old(world), world) && old(world).log <= world.log
      ensures end == Survived ==> Synced(world) && world.store == store
      ensures end == Panicked ==> Blocked(sizes, world)
    {
      hide Performed, Safe, Do, SameSize, Stop;
      ghost var w0, l0, replay := world, left, Recovery.ReplayBlocks(sizes, world);
      AppHeightIsLength(world);
      ReplaySafeIff(sizes, world);
      var finalBlock := if mutateState then store - 1 else store;
      end := ExecBlocks(app, finalBlock);
      ghost var old1 := ExecCommits(app, finalBlock);
      assert old1 + [] == old1;
      if end == Survived && mutateState {
        ghost var w, l := world, left;
        SafeExecCommits(w0, app, finalBlock);
        PerformedSafe(w0, l0, old1, world, left, true);
        UptoLength(finalBlock);
        var alive := ApplyBlock(store, false);
        PerformedThen(w0, l0, old1, w, l, Recovery.ApplyBlock(store), world, left, alive);
        end := if alive then Survived else Died;
      } else if end == Died && mutateState && replay.Replay? {
        PerformedCut(w0, l0, old1, Recovery.ApplyBlock(store), world, left, left);
      }
      EndsSafe(sizes, w0, l0, world, left, end);
    }

    // Handshaker.ReplayBlocks, for a world any crash may have left behind.
    method ReplayBlocks() returns (end: Ending)
      requires OK(world) && world.running == 0
      modifies this
      ensures Ends(old(world), old(left), Recovery.ReplayBlocks(sizes, old(world)), world, left, end)
      ensures OK(world) && Keeps(old(world), world) && old(world).log <= world.log
      ensures end == Survived ==> Synced(world) && world.store == old(world).store
      ensures end == Panicked ==> Blocked(sizes, world)
      ensures end == Panicked ==> !SameSize(sizes, old(world))
    {
      hide Performed, Do, Safe, SameSize;
      ghost var w0, l0 := world, left;
      ReplaySafeIff(sizes, world);
      AppHeightIsLength(world);
      PerformedNone(world, left);
      var app, store, state := AppHeight(world), world.store, world.state;
      if store == 0 {
        CheckAppHash();
        end := Survived;
      } else if store < app || store < state || store > state + 1 {
        assert false; // ErrAppBlockHeightTooHigh, and the two panics on the heights
      } else if store == state {
        if app < store {
          end := ReplayOld(app, store, false);
        } else {
          CheckAppHash();
          end := Survived;
        }
      } else if app < state {
        end := ReplayOld(app, store, true);
      } else if app == state {
        var alive := ApplyBlock(store, false);
        end := if alive then Survived else Died;
      } else if app == store {
        if store !in world.responses {
          assert false; // ErrNoABCIResponsesForHeight
        }
        var alive := ApplyBlock(store, true);
        end := if alive then Survived else Died;
      } else {
        assert false; // "Should never happen"
      }
      EndsSafe(sizes, w0, l0, world, left, end);
    }

    // checkAppHash on a world already in step
    method CheckAppHash()
      requires OK(world) && |world.log| == world.state
      ensures world.stateHash == world.log
    {
      if world.stateHash != world.log {
        assert false; // "state.AppHash does not match AppHash after replay"
      }
    }
  }

  // The blocks of the loop still to come.
  ghost function MoreCommits(app: int, i: int, last: int): (rest: seq<Action>)
    requires i <= last && app <= last
    ensures ExecCommits(app, i) + rest == ExecCommits(app, last)
    decreases last - i
  {
    if i == last then []
    else if last <= app then []
    else
      var rest := MoreCommits(app, i, last - 1) + [Exec(last), CommitApp(last)];
      assert ExecCommits(app, last) == ExecCommits(app, last - 1) + [Exec(last), CommitApp(last)];
      rest
  }

  lemma PerformedSafe(w: World, left: nat, plan: seq<Action>, w': World, left': nat, alive: bool)
    requires Performed(w, left, plan, w', left', alive) && Safe(w, plan)
    ensures OK(w') && Keeps(w, w') && w.log <= w'.log && (alive ==> w' == Do(w, plan))
  {
    CutSafe(w, plan, left);
    CommitsGrowLog(w, Cut(plan, left));
  }
}
