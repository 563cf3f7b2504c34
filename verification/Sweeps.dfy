/**
 What an ending actor takes down with it, exactly (the tail of `run_actor`, `stop_descendants` and
 `halt`). It scans the registry once, by path, and halts what it finds one row at a time. So it waits
 for exactly the children whose rows it takes out itself, and it sweeps the children of another
 instance of its path exactly when that instance has registered ones.
 */
module Sweeps {
  import opened Wrappers
  import opened Paths
  import opened Registry

  predicate Registered(w: World, k: nat) {
    k in w.actors && w.actors[k].path in w.live && w.live[w.actors[k].path] == k
  }

  predicate IsChild(w: World, c: nat, k: nat) {
    c in w.actors && k in w.actors && w.actors[k].creator == Some(c)
  }

  lemma {:induction false} RegistryAt(worlds: seq<World>, actions: seq<Action>, k: nat)
    requires IsRun(worlds, actions) && worlds[0] == INITIAL && k < |worlds|
    ensures RegistryInv(worlds[k])
  {
    if k > 0 {
      RegistryAt(worlds, actions, k - 1);
      StepKeepsRegistry(worlds[k - 1], actions[k - 1]);
    }
  }

  /** Paths and creators are for life, ended actors stay ended, and a row that is gone stays gone. */
  lemma WhatStays(w: World, action: Action, k: nat)
    requires RegistryInv(w) && Enabled(w, action) && k in w.actors
    ensures var w' := Do(w, action);
            && k in w'.actors && w'.actors[k].path == w.actors[k].path && w'.actors[k].creator == w.actors[k].creator
            && (w.actors[k].phase.Ended? ==> w'.actors[k].phase.Ended?)
            && (!Registered(w, k) ==> !Registered(w', k))
  {
    assert ActorHolds(w, k);
    assert w.next in w.actors ==> ActorHolds(w, w.next);
  }

  // ---- When it serves -----------------------------------------------------------------------------------

  /** What its own task has done so far decides whether an actor is starting, serving or on its way out. */
  ghost predicate AsItsTaskWent(w: World, past: seq<Action>, id: nat) {
    var began, failed, left := Started(id, true) in past, Started(id, false) in past, Leave(id) in past;
    if id !in w.actors then !began && !failed && !left
    else
      && (w.actors[id].phase.Starting? <==> !began && !failed)
      && (w.actors[id].phase.Serving? <==> began && !left)
      && !(began && failed) && (left ==> began)
  }

  lemma StepKeepsTaskOrder(w: World, action: Action, past: seq<Action>, id: nat)
    requires RegistryInv(w) && Enabled(w, action) && AsItsTaskWent(w, past, id)
    ensures AsItsTaskWent(Do(w, action), past + [action], id)
  {
    var w' := Do(w, action);
    if id in w.actors {
      WhatStays(w, action, id);
      PhaseMovesOnlyByItsOwnTask(w, action, id);
    }
  }

  lemma PhaseMovesOnlyByItsOwnTask(w: World, action: Action, id: nat)
    requires RegistryInv(w) && Enabled(w, action) && id in w.actors
    ensures id in Do(w, action).actors
    ensures !IsStepOf(action, id) ==> Do(w, action).actors[id].phase == w.actors[id].phase
  {
    assert w.next in w.actors ==> ActorHolds(w, w.next);
  }

  lemma {:induction false} TaskOrderInRuns(worlds: seq<World>, actions: seq<Action>, m: nat, id: nat)
    requires IsRun(worlds, actions) && worlds[0] == INITIAL && m < |worlds|
    ensures AsItsTaskWent(worlds[m], actions[..m], id)
  {
    if m > 0 {
      TaskOrderInRuns(worlds, actions, m - 1, id);
      RegistryAt(worlds, actions, m - 1);
      StepKeepsTaskOrder(worlds[m - 1], actions[m - 1], actions[..m - 1], id);
      assert actions[..m] == actions[..m - 1] + [actions[m - 1]];
    }
  }

  /** An actor serves exactly from the moment `on_start` succeeded until it leaves; one that failed to start never does. */
  lemma AnActorServesIffItStartedAndHasNotLeft(worlds: seq<World>, actions: seq<Action>, m: nat, id: nat)
    requires IsRun(worlds, actions) && worlds[0] == INITIAL && m < |worlds| && id in worlds[m].actors
    ensures worlds[m].actors[id].phase.Serving? <==> Started(id, true) in actions[..m] && Leave(id) !in actions[..m]
    ensures Started(id, false) in actions[..m] ==> !worlds[m].actors[id].Runs()
  {
    TaskOrderInRuns(worlds, actions, m, id);
  }

  // ---- Whom it waits for --------------------------------------------------------------------------------

  /** The ending actor takes this actor's row out of the registry. */
  predicate TakesOut(w: World, action: Action, c: nat, k: nat) {
    && action == HaltNext(Ending(c)) && CanHalt(w, Ending(c)) && Todo(w, Ending(c)) != []
    && Registered(w, k) && Todo(w, Ending(c))[0] == w.actors[k].path
  }

  lemma TakingOutIsWaiting(w: World, action: Action, c: nat, k: nat)
    requires Enabled(w, action) && TakesOut(w, action, c, k)
    ensures WaitsOn(Do(w, action), c, k)
  {
  }

  /** A wait begins only with a row taken out, and ends only when the other has ended. */
  lemma WaitsBeginAndEnd(w: World, action: Action, c: nat, k: nat)
    requires RegistryInv(w) && Enabled(w, action)
    ensures WaitsOn(Do(w, action), c, k) && !WaitsOn(w, c, k) ==> TakesOut(w, action, c, k)
    ensures WaitsOn(w, c, k) && !WaitsOn(Do(w, action), c, k) ==> k in w.actors && w.actors[k].phase.Ended?
  {
    if action.HaltNext? && action.who == Ending(c) {
      var path := Todo(w, Ending(c))[0];
      assert path in w.live ==> RowHolds(w, path);
    }
    assert w.next in w.actors ==> ActorHolds(w, w.next);
  }

  /** The scan of `c` is at `s`. */
  ghost predicate ScansAt(worlds: seq<World>, actions: seq<Action>, s: nat, c: nat)
    requires |worlds| == |actions| + 1
  {
    s < |actions| && actions[s].Scan? && actions[s].who == Ending(c)
  }

  lemma {:induction false} AWaitWasATakingOut(worlds: seq<World>, actions: seq<Action>, s: nat, n: nat, c: nat, k: nat)
    returns (m: nat)
    requires IsRun(worlds, actions) && worlds[0] == INITIAL && ScansAt(worlds, actions, s, c)
    requires s < n < |worlds| && WaitsOn(worlds[n], c, k)
    ensures s < m < n && TakesOut(worlds[m], actions[m], c, k)
    decreases n
  {
    m := n - 1;
    RegistryAt(worlds, actions, m);
    if m == s {
      NoWaitAfterTheScan(worlds[m], actions[m], c, k);
    } else {
      WaitsBeginAndEnd(worlds[m], actions[m], c, k);
      if WaitsOn(worlds[m], c, k) {
        m := AWaitWasATakingOut(worlds, actions, s, m, c, k);
      }
    }
  }

  lemma NoWaitAfterTheScan(w: World, action: Action, c: nat, k: nat)
    requires Enabled(w, action) && action.Scan? && action.who == Ending(c)
    ensures !WaitsOn(Do(w, action), c, k)
  {
  }

  /** It waits for exactly the actors whose rows it takes out. */
  lemma AnEndingActorWaitsForExactlyWhatItTakesOut(
      worlds: seq<World>, actions: seq<Action>, s: nat, n: nat, c: nat, k: nat)
    requires IsRun(worlds, actions) && worlds[0] == INITIAL && ScansAt(worlds, actions, s, c) && s < n < |worlds|
    ensures (exists m :: s < m <= n && WaitsOn(worlds[m], c, k)) <==>
            (exists m :: s < m < n && TakesOut(worlds[m], actions[m], c, k))
  {
    if m :| s < m <= n && WaitsOn(worlds[m], c, k) {
      var out := AWaitWasATakingOut(worlds, actions, s, m, c, k);
    }
    if m :| s < m < n && TakesOut(worlds[m], actions[m], c, k) {
      TakingOutIsWaiting(worlds[m], actions[m], c, k);
      assert WaitsOn(worlds[m + 1], c, k);
    }
  }

  /** From the taking out on, the actor waits or the other has ended. */
  lemma {:induction false} WaitingOrEnded(worlds: seq<World>, actions: seq<Action>, m: nat, n: nat, c: nat, k: nat)
    requires IsRun(worlds, actions) && worlds[0] == INITIAL && m < n < |worlds|
    requires TakesOut(worlds[m], actions[m], c, k)
    ensures k in worlds[n].actors && (WaitsOn(worlds[n], c, k) || worlds[n].actors[k].phase.Ended?)
  {
    RegistryAt(worlds, actions, n - 1);
    if n == m + 1 {
      TakingOutIsWaiting(worlds[m], actions[m], c, k);
      WhatStays(worlds[m], actions[m], k);
    } else {
      WaitingOrEnded(worlds, actions, m, n - 1, c, k);
      WhatStays(worlds[n - 1], actions[n - 1], k);
      WaitsBeginAndEnd(worlds[n - 1], actions[n - 1], c, k);
    }
  }

  lemma {:induction false} UnregisteredStays(worlds: seq<World>, actions: seq<Action>, j: nat, n: nat, k: nat)
    requires IsRun(worlds, actions) && worlds[0] == INITIAL && j <= n < |worlds|
    requires k in worlds[j].actors && !Registered(worlds[j], k)
    ensures k in worlds[n].actors && !Registered(worlds[n], k)
  {
    if j < n {
      UnregisteredStays(worlds, actions, j, n - 1, k);
      RegistryAt(worlds, actions, n - 1);
      WhatStays(worlds[n - 1], actions[n - 1], k);
    }
  }

  lemma {:induction false} ChildStays(worlds: seq<World>, actions: seq<Action>, j: nat, n: nat, c: nat, k: nat)
    requires IsRun(worlds, actions) && worlds[0] == INITIAL && j <= n < |worlds| && IsChild(worlds[j], c, k)
    ensures IsChild(worlds[n], c, k)
  {
    if j < n {
      ChildStays(worlds, actions, j, n - 1, c, k);
      RegistryAt(worlds, actions, n - 1);
      WhatStays(worlds[n - 1], actions[n - 1], k);
      WhatStays(worlds[n - 1], actions[n - 1], c);
    }
  }

  /** An actor that may end has no registered child left. */
  lemma NoChildIsRegisteredAtTheEnd(w: World, c: nat, k: nat)
    requires RegistryInv(w) && Enabled(w, End(c)) && IsChild(w, c, k)
    ensures !Registered(w, k)
  {
    assert Registered(w, k) ==> RowHolds(w, w.actors[k].path);
  }

  /**
   When a parent may end, each of its children has ended, if the parent took out its row; and otherwise
   it left the registry some other way and the parent never waited for it. The guard is the registry
   row: without one at the scan it is always the second.
   */
  lemma AParentEndsAfterExactlyTheChildrenItTookOut(
      worlds: seq<World>, actions: seq<Action>, s: nat, n: nat, c: nat, k: nat)
    requires IsRun(worlds, actions) && worlds[0] == INITIAL && ScansAt(worlds, actions, s, c) && s < n < |worlds|
    requires IsChild(worlds[s], c, k) && Enabled(worlds[n], End(c))
    ensures IsChild(worlds[n], c, k) && !Registered(worlds[n], k)
    ensures (exists m :: s < m < n && TakesOut(worlds[m], actions[m], c, k)) ==> worlds[n].actors[k].phase.Ended?
    ensures !(exists m :: s < m < n && TakesOut(worlds[m], actions[m], c, k)) ==>
              forall m :: s < m <= n ==> !WaitsOn(worlds[m], c, k)
    ensures !Registered(worlds[s], k) ==> forall m :: s < m < n ==> !TakesOut(worlds[m], actions[m], c, k)
  {
    RegistryAt(worlds, actions, n);
    ChildStays(worlds, actions, s, n, c, k);
    NoChildIsRegisteredAtTheEnd(worlds[n], c, k);
    AnEndingActorWaitsForExactlyWhatItTakesOut(worlds, actions, s, n, c, k);
    if m :| s < m < n && TakesOut(worlds[m], actions[m], c, k) {
      WaitingOrEnded(worlds, actions, m, n, c, k);
    }
    if !Registered(worlds[s], k) {
      forall m | s < m < n
        ensures !TakesOut(worlds[m], actions[m], c, k)
      {
        UnregisteredStays(worlds, actions, s, m, k);
      }
    }
  }

  /** Its row leaves the registry by nobody else's hand. */
  ghost predicate OnlyTakenOutBy(worlds: seq<World>, actions: seq<Action>, s: nat, n: nat, c: nat, k: nat)
    requires |worlds| == |actions| + 1 && n < |worlds|
  {
    forall m :: s <= m < n && Registered(worlds[m], k) && !Registered(worlds[m + 1], k) ==>
      actions[m] == HaltNext(Ending(c))
  }

  lemma {:induction false} RowLeftAt(worlds: seq<World>, actions: seq<Action>, s: nat, n: nat, k: nat) returns (m: nat)
    requires |worlds| == |actions| + 1 && s <= n < |worlds|
    requires Registered(worlds[s], k) && !Registered(worlds[n], k)
    ensures s <= m < n && Registered(worlds[m], k) && !Registered(worlds[m + 1], k)
    decreases n - s
  {
    if Registered(worlds[n - 1], k) {
      m := n - 1;
    } else {
      m := RowLeftAt(worlds, actions, s, n - 1, k);
    }
  }

  lemma LeavingByTheHaltIsTakingOut(w: World, c: nat, k: nat)
    requires RegistryInv(w) && Enabled(w, HaltNext(Ending(c)))
    requires Registered(w, k) && !Registered(Do(w, HaltNext(Ending(c))), k)
    ensures TakesOut(w, HaltNext(Ending(c)), c, k)
  {
    assert RowHolds(w, w.actors[k].path);
  }

  /** So a child that is registered at the scan and does not leave by itself or by another ends first. */
  lemma AChildLeftToItsParentEndsFirst(worlds: seq<World>, actions: seq<Action>, s: nat, n: nat, c: nat, k: nat)
    requires IsRun(worlds, actions) && worlds[0] == INITIAL && ScansAt(worlds, actions, s, c) && s < n < |worlds|
    requires IsChild(worlds[s], c, k) && Enabled(worlds[n], End(c))
    requires Registered(worlds[s], k) && OnlyTakenOutBy(worlds, actions, s, n, c, k)
    ensures k in worlds[n].actors && worlds[n].actors[k].phase.Ended?
  {
    AParentEndsAfterExactlyTheChildrenItTookOut(worlds, actions, s, n, c, k);
    var m := RowLeftAt(worlds, actions, s, n, k);
    assert actions[m] == HaltNext(Ending(c));
    RegistryAt(worlds, actions, m);
    LeavingByTheHaltIsTakingOut(worlds[m], c, k);
    assert s < m;
  }

  /** And one without a row can be left behind: with nothing else below, the parent ends at once. */
  lemma AnUnregisteredChildCanBeLeftBehind(w: World, c: nat, k: nat)
    requires RegistryInv(w) && IsChild(w, c, k) && !w.actors[k].phase.Ended? && w.actors[c].phase.Retired?
    requires forall p :: p in w.live ==> !(w.actors[c].path < p)
    ensures Enabled(w, Scan(Ending(c), []))
    ensures var scanned := Do(w, Scan(Ending(c), []));
            && Enabled(scanned, End(c))
            && var ended := Do(scanned, End(c));
               ended.actors[c].phase.Ended? && !ended.actors[k].phase.Ended?
  {
  }

  // ---- Whose children it sweeps -------------------------------------------------------------------------

  /** Registered directly below this actor's path, by somebody other than it. */
  ghost predicate Foreign(w: World, id: nat, p: Path) {
    && id in w.actors && p in w.live && w.live[p] in w.actors
    && |p| == |w.actors[id].path| + 1 && w.actors[id].path < p
    && w.actors[w.live[p]].creator != Some(id)
  }

  /** `j` is another instance of the same path, and has a registered child at `p`. */
  ghost predicate OthersChild(w: World, id: nat, j: nat, p: Path) {
    && id in w.actors && j in w.actors && j != id && w.actors[j].path == w.actors[id].path
    && p in w.live && IsChild(w, j, w.live[p])
  }

  /** Put directly below this path by nobody's handler. */
  ghost predicate FromOutside(w: World, id: nat, p: Path) {
    Foreign(w, id, p) && w.actors[w.live[p]].creator.None?
  }

  /** A row directly below belongs to another instance of the path, one that has not ended, or to outside. */
  lemma ForeignIsAnothersOrFromOutside(w: World, id: nat, p: Path)
    requires RegistryInv(w) && id in w.actors
    ensures Foreign(w, id, p) <==> FromOutside(w, id, p) || exists j :: OthersChild(w, id, j, p)
    ensures forall j :: OthersChild(w, id, j, p) ==> !w.actors[j].phase.Ended?
  {
    if p in w.live {
      assert RowHolds(w, p);
      assert ActorHolds(w, w.live[p]);
      var creator := w.actors[w.live[p]].creator;
      if Foreign(w, id, p) && creator.Some? {
        SamePrefix(w.actors[id].path, w.actors[creator.value].path, p);
        assert OthersChild(w, id, creator.value, p);
      }
    }
  }

  lemma SamePrefix(a: Path, b: Path, p: Path)
    requires a < p && b < p && |a| == |b|
    ensures a == b
  {
    assert a == p[..|a|] && b == p[..|b|];
  }

  /**
   An ending actor's scan finds a child that is not its own if and only if another instance of its path
   has a registered child, or somebody outside registered an actor directly below it.
   */
  lemma ASweepTakesOthersIffTheyAreRegistered(
      worlds: seq<World>, actions: seq<Action>, s: nat, id: nat, found: seq<Path>)
    requires IsRun(worlds, actions) && worlds[0] == INITIAL && s < |actions|
    requires actions[s] == Scan(Ending(id), found)
    ensures var w := worlds[s];
            (exists p :: p in found && Foreign(w, id, p)) <==>
            (exists j, p :: OthersChild(w, id, j, p)) || (exists p :: FromOutside(w, id, p))
    ensures var w := worlds[s]; forall j, p :: OthersChild(w, id, j, p) ==> p in found && !w.actors[j].phase.Ended?
  {
    var w := worlds[s];
    RegistryAt(worlds, actions, s);
    forall p
      ensures Foreign(w, id, p) <==> FromOutside(w, id, p) || exists j :: OthersChild(w, id, j, p)
      ensures forall j :: OthersChild(w, id, j, p) ==> !w.actors[j].phase.Ended?
    {
      ForeignIsAnothersOrFromOutside(w, id, p);
    }
    forall p | Foreign(w, id, p)
      ensures p in found
    {
    }
    forall j, p | OthersChild(w, id, j, p)
      ensures p in found && Foreign(w, id, p)
    {
      assert Foreign(w, id, p);
    }
  }

  /** The actor this one descends from at a given depth, going by creators. */
  ghost function Climb(w: World, x: nat, depth: nat): Option<nat>
    requires RegistryInv(w) && x in w.actors
    decreases |w.actors[x].path|
  {
    assert ActorHolds(w, x);
    if |w.actors[x].path| <= depth then Some(x)
    else if w.actors[x].creator.None? then None
    else Climb(w, w.actors[x].creator.value, depth)
  }

  /** Whatever a sweep finds, however deep, descends from some instance of the path, or from outside. */
  lemma {:induction false} EverythingSweptDescendsFromAnInstance(w: World, root: Path, x: nat)
    requires RegistryInv(w) && x in w.actors && root <= w.actors[x].path
    ensures var top := Climb(w, x, |root|);
            top.Some? ==> top.value in w.actors && w.actors[top.value].path == root
    decreases |w.actors[x].path|
  {
    assert ActorHolds(w, x);
    if |w.actors[x].path| > |root| && w.actors[x].creator.Some? {
      var c := w.actors[x].creator.value;
      assert root == w.actors[x].path[..|root|] && w.actors[c].path == w.actors[x].path[..|w.actors[c].path|];
      EverythingSweptDescendsFromAnInstance(w, root, c);
    }
  }
}
