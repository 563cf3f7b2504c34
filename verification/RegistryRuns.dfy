/**
 Two runs that show what a stop does not promise once a branch is not quiet: a child that leaves
 on its own is not waited for, and an ending actor sweeps by path, so it takes down the children
 of the instance that replaced it although it spares that instance.
 */
module RegistryRuns {
  import opened Wrappers
  import opened Paths
  import opened Registry

  /** Whatever the run, an actor only ends over children that had already left the registry. */
  lemma EndLeavesOnlyUnregisteredChildren(w: World, c: nat, k: nat)
    requires RegistryInv(w) && Enabled(w, End(c)) && k in w.actors
    requires w.actors[k].creator == Some(c) && !w.actors[k].phase.Ended?
    ensures forall p :: p in w.live ==> w.live[p] != k
    ensures w.actors[k].stopRaised || w.actors[k].phase.Retired? || w.actors[k].phase.Sweeping?
  {
    forall p | p in w.live
      ensures w.live[p] != k
    {
      assert RowHolds(w, p);
    }
    assert ActorHolds(w, k);
  }

  const P: Path := ["p"]
  const PC: Path := ["p", "c"]

  /** Some run from the empty system ends in `w`. */
  ghost predicate Reachable(w: World) {
    exists worlds: seq<World>, actions: seq<Action> ::
      IsRun(worlds, actions) && worlds[0] == INITIAL && worlds[|actions|] == w
  }

  lemma InitiallyReachable()
    ensures Reachable(INITIAL)
  {
    assert IsRun([INITIAL], []);
  }

  lemma StepReaches(w: World, action: Action)
    requires Reachable(w) && Enabled(w, action)
    ensures Reachable(Do(w, action))
  {
    var worlds: seq<World>, actions: seq<Action> :|
      IsRun(worlds, actions) && worlds[0] == INITIAL && worlds[|actions|] == w;
    assert IsRun(worlds + [Do(w, action)], actions + [action]);
  }

  function Top(stopRaised: bool, phase: Phase): Actor { Actor(P, None, stopRaised, phase) }

  function Child(of: nat, stopRaised: bool, phase: Phase): Actor { Actor(PC, Some(of), stopRaised, phase) }

  function One(phase: Phase): World { World(map[0 := Top(false, phase)], map[P := 0], 1, map[], 0) }

  lemma OneServes()
    ensures Reachable(One(Serving))
  {
    InitiallyReachable();
    StepReaches(INITIAL, Create(None, P));
    assert Do(INITIAL, Create(None, P)) == One(Starting);
    StepReaches(One(Starting), Started(0, true));
    assert Do(One(Starting), Started(0, true)) == One(Serving);
  }

  // A child that retires on its own.

  function Family(parent: Phase, child: Phase, live: map<Path, nat>): World {
    World(map[0 := Top(false, parent), 1 := Child(0, false, child)], live, 2, map[], 0)
  }

  const BOTH: map<Path, nat> := map[P := 0, PC := 1]

  lemma ChildLeaves()
    ensures Reachable(Family(Serving, Retired, map[P := 0]))
  {
    OneServes();
    StepReaches(One(Serving), Create(Some(0), PC));
    var w1, w2, w3 := Family(Serving, Starting, BOTH), Family(Serving, Serving, BOTH), Family(Serving, Leaving, BOTH);
    assert Do(One(Serving), Create(Some(0), PC)) == w1;
    StepReaches(w1, Started(1, true));
    assert Do(w1, Started(1, true)) == w2;
    StepReaches(w2, Leave(1));
    assert Do(w2, Leave(1)) == w3;
    StepReaches(w3, Retire(1));
    assert Do(w3, Retire(1)) == Family(Serving, Retired, map[P := 0]);
  }

  /** A child that has retired on its own is still going when its parent has ended. */
  lemma ARetiringChildCanOutliveItsParent()
    ensures Reachable(Family(Ended, Retired, map[]))
  {
    ChildLeaves();
    var w1, w2 := Family(Serving, Retired, map[P := 0]), Family(Leaving, Retired, map[P := 0]);
    var w3, w4 := Family(Retired, Retired, map[]), Family(Sweeping([], None), Retired, map[]);
    StepReaches(w1, Leave(0));
    assert Do(w1, Leave(0)) == w2;
    StepReaches(w2, Retire(0));
    assert Do(w2, Retire(0)) == w3;
    StepReaches(w3, Scan(Ending(0), []));
    assert Do(w3, Scan(Ending(0), [])) == w4;
    StepReaches(w4, End(0));
    assert Do(w4, End(0)) == Family(Ended, Retired, map[]);
  }

  // An instance that is replaced while it shuts down.

  const HALTED := StopCall(P, false, [], Some(0))

  function Duo(phase: Phase): World {
    World(map[0 := Top(true, Serving), 1 := Top(false, phase)], map[P := 1], 2, map[0 := HALTED], 1)
  }

  function Trio(first: Phase, stopRaised: bool, live: map<Path, nat>): World {
    World(map[0 := Top(true, first), 1 := Top(false, Serving), 2 := Child(1, stopRaised, Starting)],
          live, 3, map[0 := HALTED], 1)
  }

  const REPLACEMENT: map<Path, nat> := map[P := 1, PC := 2]

  const ASKED := One(Serving).(stops := map[0 := StopCall(P, false, [P], None)], calls := 1)

  const OUT := World(map[0 := Top(true, Serving)], map[], 1, map[0 := HALTED], 1)

  lemma Halted()
    ensures Reachable(OUT)
  {
    OneServes();
    StepReaches(One(Serving), Stop(P));
    assert Do(One(Serving), Stop(P)) == ASKED;
    CallHaltsTheFirst();
    StepReaches(ASKED, HaltNext(Calling(0)));
  }

  lemma CallHaltsTheFirst()
    ensures Enabled(ASKED, HaltNext(Calling(0))) && Do(ASKED, HaltNext(Calling(0))) == OUT
  {
    assert ASKED.live - {P} == map[];
    assert [P][1..] == [];
    var w := RowOut(ASKED, P);
    assert w.actors == OUT.actors;
    assert w.stops[0 := HALTED] == OUT.stops;
  }

  lemma Replaced()
    ensures Reachable(Duo(Serving))
  {
    Halted();
    StepReaches(OUT, Create(None, P));
    assert Do(OUT, Create(None, P)) == Duo(Starting);
    StepReaches(Duo(Starting), Started(1, true));
    assert Do(Duo(Starting), Started(1, true)) == Duo(Serving);
  }

  lemma ReplacementHasAChild()
    ensures Reachable(Trio(Leaving, false, REPLACEMENT))
  {
    Replaced();
    var w := Trio(Serving, false, REPLACEMENT);
    StepReaches(Duo(Serving), Create(Some(1), PC));
    assert Do(Duo(Serving), Create(Some(1), PC)) == w;
    StepReaches(w, Leave(0));
    assert Do(w, Leave(0)) == Trio(Leaving, false, REPLACEMENT);
  }

  lemma FirstScans()
    ensures Reachable(Trio(Sweeping([PC], None), false, REPLACEMENT))
  {
    ReplacementHasAChild();
    var w1, w2 := Trio(Leaving, false, REPLACEMENT), Trio(Retired, false, REPLACEMENT);
    StepReaches(w1, Retire(0));
    assert Do(w1, Retire(0)) == w2;
    StepReaches(w2, Scan(Ending(0), [PC]));
    assert Do(w2, Scan(Ending(0), [PC])) == Trio(Sweeping([PC], None), false, REPLACEMENT);
  }

  /**
   The shutdown of a replaced instance spares its successor's row and halts its successor's
   child: actor 2, created by the serving actor 1, is being stopped by actor 0.
   */
  lemma ASlowShutdownSweepsItsReplacementsChildren()
    ensures Reachable(Trio(Sweeping([], Some(2)), true, map[P := 1]))
  {
    FirstScans();
    FirstHaltsTheChild();
    StepReaches(Trio(Sweeping([PC], None), false, REPLACEMENT), HaltNext(Ending(0)));
  }

  lemma FirstHaltsTheChild()
    ensures var w := Trio(Sweeping([PC], None), false, REPLACEMENT);
            && Enabled(w, HaltNext(Ending(0)))
            && Do(w, HaltNext(Ending(0))) == Trio(Sweeping([], Some(2)), true, map[P := 1])
  {
    var w, w' := Trio(Sweeping([PC], None), false, REPLACEMENT), Trio(Sweeping([], Some(2)), true, map[P := 1]);
    assert REPLACEMENT - {PC} == map[P := 1];
    assert [PC][1..] == [];
    var out := RowOut(w, PC);
    assert out.live == w'.live;
    assert out.actors == w.actors[2 := Child(1, true, Starting)];
    assert out.actors[0 := Top(true, Sweeping([], Some(2)))] == w'.actors;
  }
}
