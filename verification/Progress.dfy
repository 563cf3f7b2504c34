/**
 Stops can always be brought to an end. Every step an ending actor or a stop call takes uses something
 up, so from any moment of a stop some finite continuation of such steps makes the call return; and in the
 same way any actor can be brought to its end without a child it does not wait for ever moving.
 */
module Progress {
  import opened Wrappers
  import opened Ordered
  import opened Paths
  import opened Registry
  import opened GuardianStop
  import opened Sweeps

  // ---- What a step uses up --------------------------------------------------------------------------------

  /** How much an actor still has to do, if no scan finds more than half of `bound`. */
  function Rank(phase: Phase, bound: nat): nat {
    match phase
    case Starting => bound + 5
    case Serving => bound + 4
    case Leaving => bound + 3
    case Retired => bound + 2
    case Sweeping(todo, waiting) => 2 * |todo| + (if waiting.Some? then 1 else 0) + 1
    case Ended => 0
  }

  function RankOf(w: World, i: nat, bound: nat): nat {
    if i in w.actors then Rank(w.actors[i].phase, bound) else 0
  }

  function Total(w: World, n: nat, bound: nat): nat {
    if n == 0 then 0 else Total(w, n - 1, bound) + RankOf(w, n - 1, bound)
  }

  lemma {:induction false} TotalStays(w: World, w': World, n: nat, bound: nat)
    requires forall i :: 0 <= i < n ==> RankOf(w', i, bound) == RankOf(w, i, bound)
    ensures Total(w', n, bound) == Total(w, n, bound)
  {
    if n > 0 {
      TotalStays(w, w', n - 1, bound);
    }
  }

  lemma {:induction false} TotalDrops(w: World, w': World, n: nat, bound: nat, j: nat)
    requires j < n && RankOf(w', j, bound) < RankOf(w, j, bound)
    requires forall i :: 0 <= i < n && i != j ==> RankOf(w', i, bound) == RankOf(w, i, bound)
    ensures Total(w', n, bound) < Total(w, n, bound)
  {
    if j == n - 1 {
      TotalStays(w, w', n - 1, bound);
    } else {
      TotalDrops(w, w', n - 1, bound, j);
    }
  }

  /** No actor but `j` moves to another phase, none is created, and no row goes in. */
  ghost predicate OnlyMoves(w: World, w': World, j: nat) {
    && w'.next == w.next && w'.live.Keys <= w.live.Keys && w'.actors.Keys == w.actors.Keys
    && forall i :: i in w.actors && i != j ==> w'.actors[i].phase == w.actors[i].phase
  }

  lemma MoveDrops(w: World, w': World, bound: nat, j: nat)
    requires RegistryInv(w) && j in w.actors && OnlyMoves(w, w', j)
    requires Rank(w'.actors[j].phase, bound) < Rank(w.actors[j].phase, bound)
    ensures Total(w', w'.next, bound) < Total(w, w.next, bound)
  {
    assert ActorHolds(w, j);
    TotalDrops(w, w', w.next, bound, j);
  }

  lemma FewerRows(w: World, w': World)
    requires w'.live.Keys <= w.live.Keys
    ensures |w'.live| <= |w.live|
  {
    SubsetIsSmaller(w'.live.Keys, w.live.Keys);
    assert |w'.live| == |w'.live.Keys| && |w.live| == |w.live.Keys|;
  }

  // ---- The next step of one actor -------------------------------------------------------------------------

  /** A step of this actor's own task that uses something up, and is quiet if it was asked to stop. */
  ghost predicate Uses(w: World, action: Action, j: nat, bound: nat) {
    && j in w.actors && Enabled(w, action) && IsStepOf(action, j) && (action.Started? ==> action.ok)
    && OnlyMoves(w, Do(w, action), j) && Do(w, action).stops == w.stops
    && Rank(Do(w, action).actors[j].phase, bound) < Rank(w.actors[j].phase, bound)
  }

  lemma EarlyMove(w: World, j: nat, bound: nat) returns (action: Action)
    requires j in w.actors && (w.actors[j].Runs() || w.actors[j].phase.Leaving?)
    ensures Uses(w, action, j, bound)
  {
    match w.actors[j].phase
    case Starting => action := Started(j, true);
    case Serving => action := Leave(j);
    case Leaving => action := Retire(j);
  }

  lemma ScanMove(w: World, j: nat, bound: nat) returns (action: Action)
    requires j in w.actors && w.actors[j].phase.Retired? && 2 * |w.live| <= bound
    ensures Uses(w, action, j, bound)
  {
    var found := Listed(w.live.Keys, w.actors[j].path);
    assert |w.live.Keys| == |w.live|;
    action := Scan(Ending(j), found);
  }

  lemma HaltMove(w: World, j: nat, bound: nat)
    requires RegistryInv(w) && Enabled(w, HaltNext(Ending(j)))
    ensures Uses(w, HaltNext(Ending(j)), j, bound)
  {
    var path := Todo(w, Ending(j))[0];
    assert ActorHolds(w, j);
    assert path in w.live ==> RowHolds(w, path);
  }

  lemma SweepMove(w: World, j: nat, bound: nat) returns (action: Action)
    requires RegistryInv(w) && j in w.actors && w.actors[j].phase.Sweeping? && !Blocked(w, j)
    ensures Uses(w, action, j, bound)
  {
    assert ActorHolds(w, j);
    var phase := w.actors[j].phase;
    if phase.waiting.Some? {
      action := Awake(Ending(j));
    } else if phase.todo != [] {
      action := HaltNext(Ending(j));
      HaltMove(w, j, bound);
    } else {
      action := End(j);
    }
  }

  lemma OwnMove(w: World, j: nat, bound: nat) returns (action: Action)
    requires RegistryInv(w) && j in w.actors && !w.actors[j].phase.Ended? && !Blocked(w, j) && 2 * |w.live| <= bound
    ensures Uses(w, action, j, bound)
  {
    if w.actors[j].phase.Sweeping? {
      action := SweepMove(w, j, bound);
    } else if w.actors[j].phase.Retired? {
      action := ScanMove(w, j, bound);
    } else {
      action := EarlyMove(w, j, bound);
    }
  }

  lemma RunFrom(w: World, action: Action, worlds: seq<World>, actions: seq<Action>)
    requires Enabled(w, action) && IsRun(worlds, actions) && worlds[0] == Do(w, action)
    ensures IsRun([w] + worlds, [action] + actions)
  {
    var longer, more := [w] + worlds, [action] + actions;
    forall k | 0 <= k < |more|
      ensures Enabled(longer[k], more[k]) && longer[k + 1] == Do(longer[k], more[k])
    {
      if k > 0 {
        assert longer[k] == worlds[k - 1] && more[k] == actions[k - 1] && longer[k + 1] == worlds[k];
      }
    }
  }

  // ---- Leaving a child behind -------------------------------------------------------------------------------

  /** A child of `c` that has not ended, has no row and is not what `c` waits for. */
  predicate OutOfReach(w: World, c: nat, k: nat) {
    IsChild(w, c, k) && !w.actors[k].phase.Ended? && !Registered(w, k) && !WaitsOn(w, c, k)
  }

  /** Nobody on the way down from `c` waits for its child, so somebody else can move. */
  lemma SomeoneElseCanMove(w: World, c: nat, k: nat) returns (j: nat)
    requires RegistryInv(w) && OutOfReach(w, c, k) && !w.actors[c].phase.Ended?
    ensures j in w.actors && j != k && !w.actors[j].phase.Ended? && !Blocked(w, j)
  {
    assert ActorHolds(w, k) && ActorHolds(w, c);
    j := c;
    if Blocked(w, c) {
      var waiter;
      j, waiter := SomeoneBelowIsUnblocked(w, c);
      assert ActorHolds(w, waiter);
    }
  }

  lemma StaysOutOfReach(w: World, action: Action, c: nat, k: nat, j: nat)
    requires RegistryInv(w) && OutOfReach(w, c, k) && Enabled(w, action) && j != k && OnlyMoves(w, Do(w, action), j)
    ensures OutOfReach(Do(w, action), c, k)
  {
    WhatStays(w, action, k);
    WhatStays(w, action, c);
    WaitsBeginAndEnd(w, action, c, k);
  }

  /**
   Whatever else is going on, an actor can be brought to its end over any child that has left the registry
   and that it does not wait for, without that child taking a step.
   */
  lemma {:induction false} AParentCanEndOverAChildOutOfReach(w: World, c: nat, k: nat, bound: nat)
    returns (worlds: seq<World>, actions: seq<Action>)
    requires RegistryInv(w) && OutOfReach(w, c, k) && !w.actors[c].phase.Ended? && 2 * |w.live| <= bound
    ensures IsRun(worlds, actions) && worlds[0] == w
    ensures forall m :: 0 <= m < |actions| ==> !IsStepOf(actions[m], k)
    ensures var end := worlds[|actions|];
            c in end.actors && k in end.actors && end.actors[c].phase.Ended? && !end.actors[k].phase.Ended?
    decreases Total(w, w.next, bound)
  {
    var j := SomeoneElseCanMove(w, c, k);
    var action := OwnMove(w, j, bound);
    var w' := Do(w, action);
    StepKeepsRegistry(w, action);
    StaysOutOfReach(w, action, c, k, j);
    MoveDrops(w, w', bound, j);
    FewerRows(w, w');
    if w'.actors[c].phase.Ended? {
      worlds, actions := [w, w'], [action];
    } else {
      var rest, more := AParentCanEndOverAChildOutOfReach(w', c, k, bound);
      RunFrom(w, action, rest, more);
      worlds, actions := [w] + rest, [action] + more;
    }
  }

  // ---- Finishing a stop ---------------------------------------------------------------------------------------

  function CallRank(call: StopCall, bound: nat): nat {
    (if call.scanned then 0 else bound + 1) + 2 * |call.todo| + (if call.waiting.Some? then 1 else 0)
  }

  /** What the stop as a whole still has to use up. */
  function Left(w: World, call: nat, bound: nat): nat
    requires call in w.stops
  {
    Total(w, w.next, bound) + CallRank(w.stops[call], bound)
  }

  /** A quiet step of the stop that brings it nearer its end. */
  ghost predicate Advances(w: World, root: Path, call: nat, action: Action, bound: nat) {
    && call in w.stops && Enabled(w, action) && Quiet(w, root, call, action)
    && call in Do(w, action).stops && Left(Do(w, action), call, bound) < Left(w, call, bound)
    && Do(w, action).live.Keys <= w.live.Keys
  }

  lemma CallScans(w: World, root: Path, call: nat, bound: nat) returns (action: Action)
    requires StopInv(w, root, call) && 2 * |w.live| <= bound
    requires w.stops[call].waiting.None? && w.stops[call].todo == [] && !w.stops[call].scanned
    ensures Advances(w, root, call, action, bound)
  {
    var found := Listed(w.live.Keys, root);
    assert |w.live.Keys| == |w.live|;
    action := Scan(Calling(call), found);
    TotalStays(w, Do(w, action), w.next, bound);
  }

  lemma CallHalts(w: World, root: Path, call: nat, bound: nat) returns (action: Action)
    requires StopInv(w, root, call) && w.stops[call].waiting.None? && w.stops[call].todo != []
    ensures Advances(w, root, call, action, bound)
  {
    action := HaltNext(Calling(call));
    var w' := Do(w, action);
    assert w'.next == w.next;
    forall i | 0 <= i < w.next
      ensures RankOf(w', i, bound) == RankOf(w, i, bound)
    {
    }
    TotalStays(w, w', w.next, bound);
  }

  lemma CallAwakes(w: World, root: Path, call: nat, bound: nat) returns (action: Action)
    requires StopInv(w, root, call) && w.stops[call].waiting.Some?
    requires w.stops[call].waiting.value in w.actors && w.actors[w.stops[call].waiting.value].phase.Ended?
    ensures Advances(w, root, call, action, bound)
  {
    action := Awake(Calling(call));
    TotalStays(w, Do(w, action), w.next, bound);
  }

  lemma ActorAdvances(w: World, root: Path, call: nat, j: nat, bound: nat) returns (action: Action)
    requires StopInv(w, root, call) && 2 * |w.live| <= bound
    requires InBranch(w, root, j) && w.actors[j].stopRaised && !w.actors[j].phase.Ended? && !Blocked(w, j)
    ensures Advances(w, root, call, action, bound)
  {
    action := OwnMove(w, j, bound);
    MoveDrops(w, Do(w, action), bound, j);
  }

  lemma SomethingAdvances(w: World, root: Path, call: nat, bound: nat) returns (action: Action)
    requires StopInv(w, root, call) && !w.stops[call].Returned() && 2 * |w.live| <= bound
    ensures Advances(w, root, call, action, bound)
  {
    var stop := w.stops[call];
    if stop.waiting.None? {
      if stop.todo == [] {
        action := CallScans(w, root, call, bound);
      } else {
        action := CallHalts(w, root, call, bound);
      }
    } else {
      assert CallHolds(w, call);
      var t := stop.waiting.value;
      if w.actors[t].phase.Ended? {
        action := CallAwakes(w, root, call, bound);
      } else {
        if Blocked(w, t) {
          var waiter;
          t, waiter := SomeoneBelowIsUnblocked(w, t);
        }
        action := ActorAdvances(w, root, call, t, bound);
      }
    }
  }

  ghost predicate AllQuiet(worlds: seq<World>, actions: seq<Action>, root: Path, call: nat) {
    |worlds| == |actions| + 1 && forall k :: 0 <= k < |actions| ==> Quiet(worlds[k], root, call, actions[k])
  }

  lemma QuietFrom(w: World, action: Action, worlds: seq<World>, actions: seq<Action>, root: Path, call: nat)
    requires Quiet(w, root, call, action) && AllQuiet(worlds, actions, root, call)
    ensures AllQuiet([w] + worlds, [action] + actions, root, call)
  {
    var longer, more := [w] + worlds, [action] + actions;
    forall k | 0 <= k < |more|
      ensures Quiet(longer[k], root, call, more[k])
    {
      if k > 0 {
        assert longer[k] == worlds[k - 1] && more[k] == actions[k - 1];
      }
    }
  }

  lemma OneStepNearer(w: World, root: Path, call: nat, bound: nat) returns (action: Action, w': World)
    requires StopInv(w, root, call) && !w.stops[call].Returned() && 2 * |w.live| <= bound
    ensures Enabled(w, action) && Quiet(w, root, call, action) && w' == Do(w, action)
    ensures StopInv(w', root, call) && 2 * |w'.live| <= bound && Left(w', call, bound) < Left(w, call, bound)
  {
    action := SomethingAdvances(w, root, call, bound);
    w' := Do(w, action);
    StepKeepsStop(w, root, call, action);
    FewerRows(w, w');
  }

  /** A quiet run from `w` at whose end the call has returned. */
  ghost predicate Finishes(w: World, worlds: seq<World>, actions: seq<Action>, root: Path, call: nat) {
    && IsRun(worlds, actions) && worlds[0] == w && AllQuiet(worlds, actions, root, call)
    && call in worlds[|actions|].stops && worlds[|actions|].stops[call].Returned()
  }

  lemma FinishesFrom(w: World, action: Action, w': World, worlds: seq<World>, actions: seq<Action>, root: Path, call: nat)
    requires Enabled(w, action) && Quiet(w, root, call, action) && w' == Do(w, action)
    requires Finishes(w', worlds, actions, root, call)
    ensures Finishes(w, [w] + worlds, [action] + actions, root, call)
  {
    RunFrom(w, action, worlds, actions);
    QuietFrom(w, action, worlds, actions, root, call);
    assert ([w] + worlds)[|[action] + actions|] == worlds[|actions|];
  }

  /** From any moment of a stop, some finite quiet continuation makes the call return. */
  lemma {:induction false} AStopCanAlwaysFinish(w: World, root: Path, call: nat, bound: nat)
    returns (worlds: seq<World>, actions: seq<Action>)
    requires StopInv(w, root, call) && 2 * |w.live| <= bound
    ensures Finishes(w, worlds, actions, root, call)
    decreases Left(w, call, bound)
  {
    if w.stops[call].Returned() {
      worlds, actions := [w], [];
    } else {
      var action, w' := OneStepNearer(w, root, call, bound);
      var rest, more := AStopCanAlwaysFinish(w', root, call, bound);
      FinishesFrom(w, action, w', rest, more, root, call);
      worlds, actions := [w] + rest, [action] + more;
    }
  }

  /** So a stop of a quiet branch has a quiet run in which it returns, with everything in the branch ended. */
  lemma AStopOfAQuietBranchCanFinish(w: World, root: Path, call: nat)
    returns (worlds: seq<World>, actions: seq<Action>)
    requires QuietStart(w, root, call)
    ensures IsQuietRun(worlds, actions, root, call) && worlds[0] == w
    ensures var end := worlds[|actions|];
            && call in end.stops && end.stops[call].Returned()
            && (forall i :: InBranch(end, root, i) ==> end.actors[i].phase.Ended?)
            && forall p :: p in end.live ==> !(root <= p)
  {
    QuietStartHolds(w, root, call);
    worlds, actions := AStopCanAlwaysFinish(w, root, call, 2 * |w.live|);
    StoppingABranchEndsIt(worlds, actions, root, call, |actions|);
  }
}
