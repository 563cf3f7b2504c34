/**
 The path registry and the lifecycle of the actors in it (`src/system.rs`, `src/runtime.rs`).

 Each section of code that holds the registry lock is one step, and so is each observation an
 actor's task makes on its way out. Handlers create children, outsiders create actors, actors
 leave on their own or when asked, stop calls and ending actors halt whatever is below them one
 path at a time: all of it interleaved freely.
 */
module Registry {
  import opened Wrappers
  import opened Paths

  /** Where an actor's task is in `run_actor`. */
  datatype Phase =
    | Starting                                            // on_start is running
    | Serving                                             // in the mailbox loop
    | Leaving                                             // out of the loop, not yet retired
    | Retired                                             // its own row is gone, not yet scanned below
    | Sweeping(todo: seq<Path>, waiting: Option<nat>)     // halting what it found below, one at a time
    | Ended

  datatype Actor = Actor(path: Path, creator: Option<nat>, stopRaised: bool, phase: Phase) {
    /** Only these two have a context to create children with. */
    predicate Runs() { phase.Starting? || phase.Serving? }
  }

  /** One call of `stop_at(root)`: the root first, then one scan of what is left below it. */
  datatype StopCall = StopCall(root: Path, scanned: bool, todo: seq<Path>, waiting: Option<nat>) {
    predicate Returned() { scanned && todo == [] && waiting.None? }
  }

  datatype World = World(
    actors: map<nat, Actor>,
    live: map<Path, nat>,
    next: nat,
    stops: map<nat, StopCall>,
    calls: nat
  )

  /** Who is halting: an ending actor sweeping below itself, or a stop call. */
  datatype Halter = Ending(id: nat) | Calling(id: nat)

  datatype Action =
    | Create(creator: Option<nat>, path: Path)
    | Started(id: nat, ok: bool)
    | Leave(id: nat)
    | Retire(id: nat)
    | Stop(root: Path)
    | Scan(who: Halter, found: seq<Path>)
    | HaltNext(who: Halter)
    | Awake(who: Halter)
    | End(id: nat)

  const INITIAL := World(map[], map[], 0, map[], 0)

  function SetPhase(w: World, id: nat, phase: Phase): World
    requires id in w.actors
  {
    w.(actors := w.actors[id := w.actors[id].(phase := phase)])
  }

  /** `found` lists, in some order, exactly the registered paths strictly below `root`. */
  ghost predicate Lists(live: map<Path, nat>, root: Path, found: seq<Path>) {
    forall p :: p in found <==> p in live && root < p
  }

  /** The halter's own path, what it still has to halt and what it waits for. */
  predicate CanHalt(w: World, who: Halter) {
    match who
    case Ending(id) => id in w.actors && w.actors[id].phase.Sweeping?
    case Calling(id) => id in w.stops
  }

  function Todo(w: World, who: Halter): seq<Path>
    requires CanHalt(w, who)
  {
    match who
    case Ending(id) => w.actors[id].phase.todo
    case Calling(id) => w.stops[id].todo
  }

  function Waiting(w: World, who: Halter): Option<nat>
    requires CanHalt(w, who)
  {
    match who
    case Ending(id) => w.actors[id].phase.waiting
    case Calling(id) => w.stops[id].waiting
  }

  function SetHalter(w: World, who: Halter, todo: seq<Path>, waiting: Option<nat>): World
    requires CanHalt(w, who)
  {
    match who
    case Ending(id) => SetPhase(w, id, Sweeping(todo, waiting))
    case Calling(id) => w.(stops := w.stops[id := w.stops[id].(todo := todo, waiting := waiting)])
  }

  predicate Alive(w: World, path: Path) {
    path in w.live && w.live[path] in w.actors && !w.actors[w.live[path]].phase.Ended?
  }

  /** `get_or_create` under its lock: an alive row is returned as it is, anything else is replaced. */
  function DoCreate(w: World, creator: Option<nat>, path: Path): World {
    if Alive(w, path) then w
    else
      w.(actors := w.actors[w.next := Actor(path, creator, false, Starting)],
         live := w.live[path := w.next],
         next := w.next + 1)
  }

  /** Drop the row for the path only if it still holds this very instance. */
  function DoRetire(w: World, id: nat): World
    requires id in w.actors
  {
    var path := w.actors[id].path;
    var out := if path in w.live && w.live[path] == id then w.(live := w.live - {path}) else w;
    SetPhase(out, id, Retired)
  }

  function Raise(w: World, id: nat): World {
    if id in w.actors then w.(actors := w.actors[id := w.actors[id].(stopRaised := true)]) else w
  }

  /** The lock section of `halt` and the signal after it: the row is out and its actor asked to stop. */
  function RowOut(w: World, path: Path): World {
    if path in w.live then Raise(w.(live := w.live - {path}), w.live[path]) else w
  }

  function Target(w: World, path: Path): Option<nat> {
    if path in w.live then Some(w.live[path]) else None
  }

  /** The first half of `halt`: take the next row out and start waiting for its actor. */
  function DoHaltNext(w: World, who: Halter): World
    requires CanHalt(w, who) && Todo(w, who) != [] && Waiting(w, who).None?
  {
    var path := Todo(w, who)[0];
    SetHalter(RowOut(w, path), who, Todo(w, who)[1..], Target(w, path))
  }

  predicate MayCreate(w: World, creator: Option<nat>, path: Path) {
    creator.Some? ==>
      && creator.value in w.actors && w.actors[creator.value].Runs()
      && |path| == |w.actors[creator.value].path| + 1 && w.actors[creator.value].path < path
  }

  ghost predicate Enabled(w: World, action: Action) {
    match action
    case Create(creator, path) => MayCreate(w, creator, path)
    case Started(id, _) => id in w.actors && w.actors[id].phase.Starting?
    case Leave(id) => id in w.actors && w.actors[id].phase.Serving?
    case Retire(id) => id in w.actors && w.actors[id].phase.Leaving?
    case Stop(_) => true
    case Scan(Ending(id), found) =>
      id in w.actors && w.actors[id].phase.Retired? && Lists(w.live, w.actors[id].path, found)
    case Scan(Calling(id), found) =>
      && id in w.stops && !w.stops[id].scanned && w.stops[id].todo == [] && w.stops[id].waiting.None?
      && Lists(w.live, w.stops[id].root, found)
    case HaltNext(who) => CanHalt(w, who) && Todo(w, who) != [] && Waiting(w, who).None?
    case Awake(who) =>
      CanHalt(w, who) && Waiting(w, who).Some? &&
      Waiting(w, who).value in w.actors && w.actors[Waiting(w, who).value].phase.Ended?
    case End(id) => id in w.actors && w.actors[id].phase == Sweeping([], None)
  }

  ghost function Do(w: World, action: Action): World
    requires Enabled(w, action)
  {
    match action
    case Create(creator, path) => DoCreate(w, creator, path)
    case Started(id, ok) => SetPhase(w, id, if ok then Serving else Leaving)
    case Leave(id) => SetPhase(w, id, Leaving)
    case Retire(id) => DoRetire(w, id)
    case Stop(root) =>
      w.(stops := w.stops[w.calls := StopCall(root, false, [root], None)], calls := w.calls + 1)
    case Scan(Ending(id), found) => SetPhase(w, id, Sweeping(found, None))
    case Scan(Calling(id), found) =>
      w.(stops := w.stops[id := w.stops[id].(scanned := true, todo := found)])
    case HaltNext(who) => DoHaltNext(w, who)
    case Awake(who) => SetHalter(w, who, Todo(w, who), None)
    case End(id) => SetPhase(w, id, Ended)
  }

  /** `worlds` is a run: every world follows from the one before by an enabled action. */
  ghost predicate IsRun(worlds: seq<World>, actions: seq<Action>) {
    && |worlds| == |actions| + 1
    && forall k :: 0 <= k < |actions| ==>
         Enabled(worlds[k], actions[k]) && worlds[k + 1] == Do(worlds[k], actions[k])
  }

  // ---- What every run keeps -------------------------------------------------------------

  /**
   A row holds a running or leaving actor of that path that nobody has halted. Its creator's task
   has not ended, and a creator that is already sweeping still has this path to halt.
   */
  ghost predicate RowHolds(w: World, p: Path)
    requires p in w.live
  {
    && w.live[p] in w.actors
    && var a := w.actors[w.live[p]];
       && a.path == p && !a.stopRaised && (a.Runs() || a.phase.Leaving?)
       && (a.creator.Some? ==>
             && a.creator.value in w.actors
             && var c := w.actors[a.creator.value];
                !c.phase.Ended? && (c.phase.Sweeping? ==> p in c.phase.todo))
  }

  predicate Fits(w: World, a: Actor) {
    a.creator.Some? ==>
      && a.creator.value in w.actors && a.creator.value < w.next
      && |a.path| == |w.actors[a.creator.value].path| + 1 && w.actors[a.creator.value].path < a.path
  }

  /** What is waited for was asked to stop, and lies below. */
  predicate WaitsFor(w: World, waiting: Option<nat>) {
    waiting.Some? ==> waiting.value in w.actors && w.actors[waiting.value].stopRaised
  }

  /**
   An actor nobody has halted keeps its row until it retires. A sweep only looks, and only waits,
   strictly further down.
   */
  ghost predicate ActorHolds(w: World, i: nat)
    requires i in w.actors
  {
    var a := w.actors[i];
    && i < w.next
    && (!a.stopRaised && (a.Runs() || a.phase.Leaving?) ==> a.path in w.live && w.live[a.path] == i)
    && Fits(w, a)
    && (a.phase.Sweeping? ==>
          && WaitsFor(w, a.phase.waiting)
          && (forall p :: p in a.phase.todo ==> a.path < p)
          && (a.phase.waiting.Some? ==> a.path < w.actors[a.phase.waiting.value].path))
  }

  ghost predicate CallHolds(w: World, s: nat)
    requires s in w.stops
  {
    var call := w.stops[s];
    && s < w.calls
    && WaitsFor(w, call.waiting)
    && (forall p :: p in call.todo ==> call.root <= p)
    && (call.waiting.Some? ==> call.root <= w.actors[call.waiting.value].path)
  }

  ghost predicate RegistryInv(w: World) {
    && (forall p :: p in w.live ==> RowHolds(w, p))
    && (forall i :: i in w.actors ==> ActorHolds(w, i))
    && (forall s :: s in w.stops ==> CallHolds(w, s))
  }

  lemma CreateKeepsRegistry(w: World, creator: Option<nat>, path: Path)
    requires RegistryInv(w) && MayCreate(w, creator, path)
    ensures RegistryInv(DoCreate(w, creator, path))
  {
    var w' := DoCreate(w, creator, path);
    if path in w.live {
      assert RowHolds(w, path);
    } else {
      assert w.next in w.actors ==> ActorHolds(w, w.next);
      assert w.next !in w.actors;
      if creator.Some? {
        assert ActorHolds(w, creator.value);
      }
      forall p | p in w'.live
        ensures RowHolds(w', p)
      {
        assert p != path ==> RowHolds(w, p);
      }
      forall i | i in w'.actors
        ensures ActorHolds(w', i)
      {
        assert i != w.next ==> ActorHolds(w, i);
      }
      forall s | s in w'.stops
        ensures CallHolds(w', s)
      {
        assert CallHolds(w, s);
      }
    }
  }

  /** A new phase that keeps row, todo and wait conditions leaves the rest of the world alone. */
  lemma PhaseKeepsRegistry(w: World, id: nat, phase: Phase)
    requires RegistryInv(w) && id in w.actors
    requires var a := w.actors[id];
             && (phase.Starting? || phase.Serving? || phase.Leaving? <==> a.Runs() || a.phase.Leaving?)
             && (phase.Sweeping? ==>
                   && WaitsFor(w, phase.waiting)
                   && (forall p :: p in phase.todo ==> a.path < p)
                   && (phase.waiting.Some? ==> a.path < w.actors[phase.waiting.value].path))
    requires forall p :: p in w.live && RowHolds(w, p) && w.actors[w.live[p]].creator == Some(id) ==>
               !phase.Ended? && (phase.Sweeping? ==> p in phase.todo)
    ensures RegistryInv(SetPhase(w, id, phase))
  {
    var w' := SetPhase(w, id, phase);
    forall p | p in w'.live
      ensures RowHolds(w', p)
    {
      assert RowHolds(w, p);
    }
    forall i | i in w'.actors
      ensures ActorHolds(w', i)
    {
      assert ActorHolds(w, i);
    }
    forall s | s in w'.stops
      ensures CallHolds(w', s)
    {
      assert CallHolds(w, s);
    }
  }

  lemma CallKeepsRegistry(w: World, s: nat, call: StopCall)
    requires RegistryInv(w) && s < w.calls
    requires WaitsFor(w, call.waiting)
    requires forall p :: p in call.todo ==> call.root <= p
    requires call.waiting.Some? ==> call.root <= w.actors[call.waiting.value].path
    ensures RegistryInv(w.(stops := w.stops[s := call]))
  {
    var w' := w.(stops := w.stops[s := call]);
    forall p | p in w'.live
      ensures RowHolds(w', p)
    {
      assert RowHolds(w, p);
    }
    forall i | i in w'.actors
      ensures ActorHolds(w', i)
    {
      assert ActorHolds(w, i);
    }
    forall t | t in w'.stops
      ensures CallHolds(w', t)
    {
      assert t != s ==> CallHolds(w, t);
    }
  }

  /** Taking a row out together with raising its actor's stop. */
  lemma RowOutKeepsRegistry(w: World, path: Path)
    requires RegistryInv(w) && path in w.live
    ensures RegistryInv(Raise(w.(live := w.live - {path}), w.live[path]))
  {
    var target := w.live[path];
    var w' := Raise(w.(live := w.live - {path}), target);
    assert RowHolds(w, path);
    forall p | p in w'.live
      ensures RowHolds(w', p)
    {
      assert RowHolds(w, p);
    }
    forall i | i in w'.actors
      ensures ActorHolds(w', i)
    {
      assert ActorHolds(w, i);
    }
    forall s | s in w'.stops
      ensures CallHolds(w', s)
    {
      assert CallHolds(w, s);
    }
  }

  lemma EndingHaltKeepsRegistry(w: World, id: nat)
    requires RegistryInv(w) && Enabled(w, HaltNext(Ending(id)))
    ensures RegistryInv(DoHaltNext(w, Ending(id)))
  {
    var todo := w.actors[id].phase.todo;
    var path, rest := todo[0], todo[1..];
    assert forall p :: p in rest ==> p in todo;
    var w1 := RowOut(w, path);
    assert ActorHolds(w, id);
    assert path in todo && w.actors[id].path < path;
    if path in w.live {
      RowOutKeepsRegistry(w, path);
      assert RowHolds(w, path);
    }
    forall p | p in w1.live && RowHolds(w1, p) && w1.actors[w1.live[p]].creator == Some(id)
      ensures p in rest
    {
      assert RowHolds(w, p);
      assert p in todo && p != path;
    }
    PhaseKeepsRegistry(w1, id, Sweeping(rest, Target(w, path)));
  }

  lemma CallingHaltKeepsRegistry(w: World, id: nat)
    requires RegistryInv(w) && Enabled(w, HaltNext(Calling(id)))
    ensures RegistryInv(DoHaltNext(w, Calling(id)))
  {
    var todo := w.stops[id].todo;
    var path, rest := todo[0], todo[1..];
    assert forall p :: p in rest ==> p in todo;
    assert CallHolds(w, id);
    assert path in todo && w.stops[id].root <= path;
    if path in w.live {
      RowOutKeepsRegistry(w, path);
      assert RowHolds(w, path);
    }
    CallKeepsRegistry(RowOut(w, path), id, w.stops[id].(todo := rest, waiting := Target(w, path)));
  }

  lemma RetireKeepsRegistry(w: World, id: nat)
    requires RegistryInv(w) && Enabled(w, Retire(id))
    ensures RegistryInv(DoRetire(w, id))
  {
    var w' := DoRetire(w, id);
    assert ActorHolds(w, id);
    forall p | p in w'.live
      ensures RowHolds(w', p)
    {
      assert RowHolds(w, p);
    }
    forall i | i in w'.actors
      ensures ActorHolds(w', i)
    {
      assert ActorHolds(w, i);
    }
    forall s | s in w'.stops
      ensures CallHolds(w', s)
    {
      assert CallHolds(w, s);
    }
  }

  lemma ScanKeepsRegistry(w: World, who: Halter, found: seq<Path>)
    requires RegistryInv(w) && Enabled(w, Scan(who, found))
    ensures RegistryInv(Do(w, Scan(who, found)))
  {
    match who
    case Ending(id) =>
      forall p | p in w.live && RowHolds(w, p) && w.actors[w.live[p]].creator == Some(id)
        ensures p in found
      {
        assert ActorHolds(w, w.live[p]);
      }
      PhaseKeepsRegistry(w, id, Sweeping(found, None));
    case Calling(id) =>
      assert CallHolds(w, id);
      CallKeepsRegistry(w, id, w.stops[id].(scanned := true, todo := found));
  }

  lemma AwakeKeepsRegistry(w: World, who: Halter)
    requires RegistryInv(w) && Enabled(w, Awake(who))
    ensures RegistryInv(Do(w, Awake(who)))
  {
    match who
    case Ending(id) =>
      assert ActorHolds(w, id);
      PhaseKeepsRegistry(w, id, Sweeping(w.actors[id].phase.todo, None));
    case Calling(id) =>
      assert CallHolds(w, id);
      CallKeepsRegistry(w, id, w.stops[id].(waiting := None));
  }

  lemma StopKeepsRegistry(w: World, root: Path)
    requires RegistryInv(w)
    ensures RegistryInv(Do(w, Stop(root)))
  {
    var w1 := w.(calls := w.calls + 1);
    assert RegistryInv(w1) by {
      assert forall p :: p in w.live && RowHolds(w, p) ==> RowHolds(w1, p);
      assert forall i :: i in w.actors && ActorHolds(w, i) ==> ActorHolds(w1, i);
      assert forall s :: s in w.stops && CallHolds(w, s) ==> CallHolds(w1, s);
    }
    CallKeepsRegistry(w1, w.calls, StopCall(root, false, [root], None));
  }

  lemma StepKeepsRegistry(w: World, action: Action)
    requires RegistryInv(w) && Enabled(w, action)
    ensures RegistryInv(Do(w, action))
  {
    match action
    case Create(creator, path) => CreateKeepsRegistry(w, creator, path);
    case Started(id, ok) => PhaseKeepsRegistry(w, id, if ok then Serving else Leaving);
    case Leave(id) => PhaseKeepsRegistry(w, id, Leaving);
    case Retire(id) => RetireKeepsRegistry(w, id);
    case Stop(root) => StopKeepsRegistry(w, root);
    case Scan(who, found) => ScanKeepsRegistry(w, who, found);
    case HaltNext(Ending(id)) => EndingHaltKeepsRegistry(w, id);
    case HaltNext(Calling(id)) => CallingHaltKeepsRegistry(w, id);
    case Awake(who) => AwakeKeepsRegistry(w, who);
    case End(id) => PhaseKeepsRegistry(w, id, Ended);
  }

  /** The registry's invariant holds over every interleaving. */
  lemma {:induction false} RunKeepsRegistry(worlds: seq<World>, actions: seq<Action>)
    requires IsRun(worlds, actions) && RegistryInv(worlds[0])
    ensures RegistryInv(worlds[|actions|])
    decreases |actions|
  {
    if actions != [] {
      var n := |actions| - 1;
      assert IsRun(worlds[..n + 1], actions[..n]);
      RunKeepsRegistry(worlds[..n + 1], actions[..n]);
      StepKeepsRegistry(worlds[n], actions[n]);
    }
  }

  /**
   Over every interleaving from an empty system: no registered actor has a creator whose task has
   ended, and of the instances at one path at most one runs without having been halted.
   */
  lemma RegistryIsSound(worlds: seq<World>, actions: seq<Action>, i: nat, j: nat)
    requires IsRun(worlds, actions) && worlds[0] == INITIAL
    requires i in worlds[|actions|].actors && j in worlds[|actions|].actors
    ensures var w := worlds[|actions|];
            w.actors[i].path in w.live && w.live[w.actors[i].path] == i && w.actors[i].creator == Some(j) ==>
              !w.actors[j].phase.Ended?
    ensures var w := worlds[|actions|];
            (&& w.actors[i].path == w.actors[j].path
             && w.actors[i].Runs() && !w.actors[i].stopRaised
             && w.actors[j].Runs() && !w.actors[j].stopRaised) ==> i == j
  {
    var w := worlds[|actions|];
    RunKeepsRegistry(worlds, actions);
    assert ActorHolds(w, i) && ActorHolds(w, j);
    assert w.actors[i].path in w.live ==> RowHolds(w, w.actors[i].path);
  }

  /** A slow shutdown drops its own row or none: the row of an instance that replaced it stays. */
  lemma RetireSparesTheReplacement(w: World, id: nat, p: Path)
    requires Enabled(w, Retire(id)) && p in w.live
    ensures p in Do(w, Retire(id)).live <==> w.live[p] != id || p != w.actors[id].path
    ensures p in Do(w, Retire(id)).live ==> Do(w, Retire(id)).live[p] == w.live[p]
  {
  }

  // ---- Waiting never goes round ---------------------------------------------------------

  predicate WaitsOn(w: World, i: nat, t: nat) {
    i in w.actors && w.actors[i].phase.Sweeping? && w.actors[i].phase.waiting == Some(t)
  }

  /** Along any chain of waits the paths grow at every link, so no chain comes back to its start. */
  lemma {:induction false} WaitsNeverCycle(w: World, chain: seq<nat>)
    requires RegistryInv(w) && |chain| > 1
    requires forall k :: 0 <= k < |chain| - 1 ==> WaitsOn(w, chain[k], chain[k + 1])
    ensures chain[0] in w.actors && chain[|chain| - 1] in w.actors
    ensures w.actors[chain[0]].path < w.actors[chain[|chain| - 1]].path
    ensures chain[0] != chain[|chain| - 1]
    decreases |chain|
  {
    assert WaitsOn(w, chain[0], chain[1]);
    assert ActorHolds(w, chain[0]);
    if |chain| > 2 {
      var tail := chain[1..];
      forall k | 0 <= k < |tail| - 1
        ensures WaitsOn(w, tail[k], tail[k + 1])
      {
        assert WaitsOn(w, chain[k + 1], chain[k + 2]);
      }
      WaitsNeverCycle(w, tail);
    }
  }

  predicate Blocked(w: World, i: nat) {
    && i in w.actors && w.actors[i].phase.Sweeping? && w.actors[i].phase.waiting.Some?
    && w.actors[i].phase.waiting.value in w.actors
    && !w.actors[w.actors[i].phase.waiting.value].phase.Ended?
  }

  ghost function Deeper(w: World, path: Path): set<nat> {
    set i | i in w.actors && path < w.actors[i].path
  }

  lemma {:induction false} Listed(keys: set<Path>, root: Path) returns (found: seq<Path>)
    ensures forall p :: p in found <==> p in keys && root < p
    ensures |found| <= |keys|
  {
    found := [];
    if keys != {} {
      var key :| key in keys;
      var rest := Listed(keys - {key}, root);
      found := if root < key then [key] + rest else rest;
    }
  }

  /** A step that this actor's own task takes. */
  predicate IsStepOf(action: Action, id: nat) {
    match action
    case Started(i, _) => i == id
    case Leave(i) => i == id
    case Retire(i) => i == id
    case Scan(who, _) => who == Ending(id)
    case HaltNext(who) => who == Ending(id)
    case Awake(who) => who == Ending(id)
    case End(i) => i == id
    case _ => false
  }

  /** An actor that has not ended and waits for nobody unended has a step to take. */
  lemma AnUnblockedActorCanMove(w: World, j: nat) returns (action: Action)
    requires RegistryInv(w) && j in w.actors && !w.actors[j].phase.Ended? && !Blocked(w, j)
    ensures Enabled(w, action) && IsStepOf(action, j)
  {
    assert ActorHolds(w, j);
    match w.actors[j].phase
    case Starting => action := Started(j, true);
    case Serving => action := Leave(j);
    case Leaving => action := Retire(j);
    case Retired =>
      var found := Listed(w.live.Keys, w.actors[j].path);
      action := Scan(Ending(j), found);
    case Sweeping(todo, waiting) =>
      action := if waiting.Some? then Awake(Ending(j)) else if todo != [] then HaltNext(Ending(j)) else End(j);
  }

  /** Down the chain of waits there is an unblocked actor; `waiter` waits for it. */
  lemma {:induction false} SomeoneBelowIsUnblocked(w: World, i: nat) returns (j: nat, waiter: nat)
    requires RegistryInv(w) && Blocked(w, i)
    ensures j in w.actors && w.actors[i].path < w.actors[j].path && w.actors[j].stopRaised
    ensures !w.actors[j].phase.Ended? && !Blocked(w, j)
    ensures WaitsOn(w, waiter, j) && (waiter == i || w.actors[i].path < w.actors[waiter].path)
    decreases Deeper(w, w.actors[i].path)
  {
    j, waiter := w.actors[i].phase.waiting.value, i;
    assert ActorHolds(w, i);
    if Blocked(w, j) {
      assert j in Deeper(w, w.actors[i].path) && j !in Deeper(w, w.actors[j].path);
      assert Deeper(w, w.actors[j].path) <= Deeper(w, w.actors[i].path);
      j, waiter := SomeoneBelowIsUnblocked(w, j);
    }
  }

  /** Behind every blocked actor there is, further down, one with a step of its own to take. */
  lemma SomeoneBelowCanMove(w: World, i: nat) returns (j: nat, action: Action)
    requires RegistryInv(w) && Blocked(w, i)
    ensures j in w.actors && w.actors[i].path < w.actors[j].path && !w.actors[j].phase.Ended?
    ensures Enabled(w, action) && IsStepOf(action, j)
  {
    var waiter;
    j, waiter := SomeoneBelowIsUnblocked(w, i);
    action := AnUnblockedActorCanMove(w, j);
  }
}
