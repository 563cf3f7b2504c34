/**
 Stopping a path in an otherwise quiet branch (`stop_at`, `stop_descendants`, `halt` and the tail
 of `run_actor`). Handlers inside the branch may go on creating children while it comes down, and
 anything may happen outside it. When the call returns nothing in the branch is left, and no
 actor ended before an actor it created.
 */
module GuardianStop {
  import opened Wrappers
  import opened Paths
  import opened Registry

  predicate InBranch(w: World, root: Path, i: nat) {
    i in w.actors && root <= w.actors[i].path
  }

  /** In the branch, asked to stop, and not yet ended: the actors the stop is waiting its way through. */
  predicate Stopping(w: World, root: Path, i: nat) {
    InBranch(w, root, i) && w.actors[i].stopRaised && !w.actors[i].phase.Ended?
  }

  /** A halter that belongs to the stop: the call itself, or an actor of the branch on its way out. */
  predicate Ours(w: World, root: Path, call: nat, who: Halter) {
    match who
    case Ending(id) => InBranch(w, root, id)
    case Calling(id) => id == call
  }

  /**
   What the rest of the system refrains from while the call runs: halting paths of the branch,
   creating actors in it from outside, and actors of the branch leaving before they are asked.
   */
  ghost predicate Quiet(w: World, root: Path, call: nat, action: Action) {
    match action
    case Create(creator, path) => root <= path ==> creator.Some? && InBranch(w, root, creator.value)
    case Started(id, ok) => InBranch(w, root, id) && !ok ==> w.actors[id].stopRaised
    case Leave(id) => InBranch(w, root, id) ==> w.actors[id].stopRaised
    case HaltNext(who) =>
      CanHalt(w, who) && Todo(w, who) != [] && root <= Todo(w, who)[0] ==> Ours(w, root, call, who)
    case _ => true
  }

  /** The call has just been made, and everything in the branch is running and unasked. */
  ghost predicate QuietStart(w: World, root: Path, call: nat) {
    && RegistryInv(w)
    && call in w.stops && w.stops[call] == StopCall(root, false, [root], None)
    && forall i :: InBranch(w, root, i) && !w.actors[i].phase.Ended? ==>
         w.actors[i].Runs() && !w.actors[i].stopRaised
  }

  /** That is what a call of `stop_at` makes of a branch in which nothing is on its way out. */
  lemma ACallBeginsAStop(w: World, root: Path)
    requires RegistryInv(w)
    requires forall i :: InBranch(w, root, i) && !w.actors[i].phase.Ended? ==> w.actors[i].Runs() && !w.actors[i].stopRaised
    ensures Enabled(w, Stop(root)) && QuietStart(Do(w, Stop(root)), root, w.calls)
  {
    StepKeepsRegistry(w, Stop(root));
    var w' := Do(w, Stop(root));
    assert forall i :: InBranch(w', root, i) ==> InBranch(w, root, i);
  }

  ghost predicate IsQuietRun(worlds: seq<World>, actions: seq<Action>, root: Path, call: nat) {
    && IsRun(worlds, actions)
    && QuietStart(worlds[0], root, call)
    && forall k :: 0 <= k < |actions| ==> Quiet(worlds[k], root, call, actions[k])
  }

  /** An actor of the branch that nobody asked to stop is running. */
  ghost predicate Unasked(w: World, root: Path, i: nat) {
    InBranch(w, root, i) && !w.actors[i].phase.Ended? && !w.actors[i].stopRaised ==> w.actors[i].Runs()
  }

  /**
   The stopping actors form one chain: of any two, the upper one is waiting, for something that
   is still stopping and is not below the other.
   */
  ghost predicate Chained(w: World, root: Path, i: nat, j: nat) {
    Stopping(w, root, i) && Stopping(w, root, j) && i != j ==>
      && (w.actors[i].path < w.actors[j].path || w.actors[j].path < w.actors[i].path)
      && (w.actors[i].path < w.actors[j].path ==>
            && w.actors[i].phase.Sweeping? && w.actors[i].phase.waiting.Some?
            && var t := w.actors[i].phase.waiting.value;
               Stopping(w, root, t) && w.actors[t].path <= w.actors[j].path)
  }

  /** The call stands at the top of the chain. */
  ghost predicate CallChained(w: World, root: Path, call: nat, i: nat) {
    Stopping(w, root, i) ==>
      && call in w.stops && w.stops[call].waiting.Some?
      && Stopping(w, root, w.stops[call].waiting.value)
      && w.actors[w.stops[call].waiting.value].path <= w.actors[i].path
  }

  /** What an actor of the branch created is gone once it has ended, and accounted for while it sweeps. */
  ghost predicate ChildAccounted(w: World, root: Path, k: nat) {
    k in w.actors && w.actors[k].creator.Some? && InBranch(w, root, w.actors[k].creator.value)
    && !w.actors[k].phase.Ended? ==>
      var c := w.actors[w.actors[k].creator.value];
      && !c.phase.Ended?
      && (c.phase.Sweeping? ==>
            c.phase.waiting == Some(k) || (!w.actors[k].stopRaised && w.actors[k].path in c.phase.todo))
  }

  /** An actor of the branch that was not created from inside it. */
  predicate IsTop(w: World, root: Path, k: nat) {
    InBranch(w, root, k) && !(w.actors[k].creator.Some? && InBranch(w, root, w.actors[k].creator.value))
  }

  /** The tops are stopping, or the call still has them to do. */
  ghost predicate TopAccounted(w: World, root: Path, call: nat, k: nat) {
    IsTop(w, root, k) && !w.actors[k].phase.Ended? && call in w.stops ==>
      || w.actors[k].stopRaised
      || (!w.stops[call].scanned && (w.stops[call].todo == [root] || root < w.actors[k].path))
      || (w.stops[call].scanned && w.actors[k].path in w.stops[call].todo)
  }

  ghost predicate StopInv(w: World, root: Path, call: nat) {
    && RegistryInv(w)
    && call in w.stops && w.stops[call].root == root
    && (!w.stops[call].scanned ==> w.stops[call].todo == [root] || w.stops[call].todo == [])
    && (forall i :: i in w.actors ==> Unasked(w, root, i))
    && (forall i, j :: i in w.actors && j in w.actors ==> Chained(w, root, i, j))
    && (forall i :: i in w.actors ==> CallChained(w, root, call, i))
    && (forall k :: k in w.actors ==> ChildAccounted(w, root, k))
    && (forall k :: k in w.actors ==> TopAccounted(w, root, call, k))
  }

  lemma QuietStartHolds(w: World, root: Path, call: nat)
    requires QuietStart(w, root, call)
    ensures StopInv(w, root, call)
  {
    forall k | k in w.actors
      ensures ChildAccounted(w, root, k)
    {
      assert ActorHolds(w, k);
      assert w.actors[k].path in w.live ==> RowHolds(w, w.actors[k].path);
    }
  }

  /** When the call has returned, nothing of the branch is running or registered. */
  lemma {:induction false} ReturnedMeansGone(w: World, root: Path, call: nat, i: nat)
    requires StopInv(w, root, call) && w.stops[call].Returned() && InBranch(w, root, i)
    ensures w.actors[i].phase.Ended?
    decreases |w.actors[i].path|
  {
    assert CallChained(w, root, call, i) && TopAccounted(w, root, call, i);
    if !IsTop(w, root, i) {
      assert ChildAccounted(w, root, i) && ActorHolds(w, i);
      ReturnedMeansGone(w, root, call, w.actors[i].creator.value);
    }
  }

  // ---- Every quiet step keeps it --------------------------------------------------------

  /** A step that leaves the branch and the call alone. */
  lemma OutsideKeepsStop(w: World, w': World, root: Path, call: nat)
    requires StopInv(w, root, call) && RegistryInv(w')
    requires call in w'.stops && w'.stops[call] == w.stops[call]
    requires forall i :: InBranch(w, root, i) || InBranch(w', root, i) ==>
               i in w.actors && i in w'.actors && w'.actors[i] == w.actors[i]
    ensures StopInv(w', root, call)
  {
    forall i | i in w'.actors
      ensures Unasked(w', root, i) && CallChained(w', root, call, i)
      ensures ChildAccounted(w', root, i) && TopAccounted(w', root, call, i)
    {
      assert ActorHolds(w', i);
      if InBranch(w', root, i) {
        assert Unasked(w, root, i) && CallChained(w, root, call, i);
        assert ChildAccounted(w, root, i) && TopAccounted(w, root, call, i);
      }
    }
    forall i, j | i in w'.actors && j in w'.actors
      ensures Chained(w', root, i, j)
    {
      assert InBranch(w', root, i) && InBranch(w', root, j) ==> Chained(w, root, i, j);
    }
  }

  // One actor of the branch changes phase, and waits for nobody afterwards.

  /** `w'` is `w` with actor `id` in another phase, and possibly with fewer rows. */
  ghost predicate OnePhase(w: World, w': World, root: Path, call: nat, id: nat) {
    && StopInv(w, root, call) && RegistryInv(w') && w'.stops == w.stops
    && InBranch(w, root, id) && !w.actors[id].phase.Ended?
    && id in w'.actors && w'.actors == w.actors[id := w.actors[id].(phase := w'.actors[id].phase)]
    && Unasked(w', root, id)
    && (w'.actors[id].phase.Sweeping? ==> w'.actors[id].phase.waiting.None?)
  }

  /** It is the lowest of the stopping actors, if it is one of them. */
  ghost predicate Lowest(w: World, root: Path, id: nat) {
    Stopping(w, root, id) ==>
      forall k :: Stopping(w, root, k) && k != id ==> w.actors[k].path < w.actors[id].path
  }

  /** Its new phase accounts for what it created. */
  ghost predicate AccountsForChildren(w: World, w': World, id: nat)
    requires id in w'.actors
  {
    forall k :: k in w.actors && w.actors[k].creator == Some(id) && !w.actors[k].phase.Ended? ==>
      && !w'.actors[id].phase.Ended?
      && (w'.actors[id].phase.Sweeping? ==>
            !w.actors[k].stopRaised && w.actors[k].path in w'.actors[id].phase.todo)
  }

  lemma OnePhaseChain(w: World, w': World, root: Path, call: nat, id: nat, i: nat, j: nat)
    requires OnePhase(w, w', root, call, id) && Lowest(w, root, id)
    requires i in w'.actors && j in w'.actors
    ensures Chained(w', root, i, j)
  {
    assert Chained(w, root, i, j);
  }

  lemma OnePhaseActor(w: World, w': World, root: Path, call: nat, id: nat, i: nat)
    requires OnePhase(w, w', root, call, id) && Lowest(w, root, id) && AccountsForChildren(w, w', id)
    requires i in w'.actors
    ensures Unasked(w', root, i) && CallChained(w', root, call, i)
    ensures ChildAccounted(w', root, i) && TopAccounted(w', root, call, i)
  {
    assert Unasked(w, root, i) && CallChained(w, root, call, i);
    assert ChildAccounted(w, root, i) && TopAccounted(w, root, call, i);
  }

  lemma OnePhaseKeepsStop(w: World, w': World, root: Path, call: nat, id: nat)
    requires OnePhase(w, w', root, call, id) && Lowest(w, root, id) && AccountsForChildren(w, w', id)
    ensures StopInv(w', root, call)
  {
    forall i | i in w'.actors
      ensures Unasked(w', root, i) && CallChained(w', root, call, i)
      ensures ChildAccounted(w', root, i) && TopAccounted(w', root, call, i)
    {
      OnePhaseActor(w, w', root, call, id, i);
    }
    forall i, j | i in w'.actors && j in w'.actors
      ensures Chained(w', root, i, j)
    {
      OnePhaseChain(w, w', root, call, id, i, j);
    }
  }

  /** A stopping actor that waits for nobody is the end of the chain. */
  lemma WaitsForNobodyIsLowest(w: World, root: Path, call: nat, id: nat)
    requires StopInv(w, root, call) && InBranch(w, root, id)
    requires w.actors[id].phase.Sweeping? ==> w.actors[id].phase.waiting.None?
    ensures Lowest(w, root, id)
  {
    forall k | Stopping(w, root, id) && Stopping(w, root, k) && k != id
      ensures w.actors[k].path < w.actors[id].path
    {
      assert Chained(w, root, id, k);
    }
  }

  lemma NothingStopsAtAll(w: World, root: Path, call: nat, k: nat)
    requires StopInv(w, root, call) && w.stops[call].waiting.None? && InBranch(w, root, k)
    ensures !Stopping(w, root, k)
  {
    assert CallChained(w, root, call, k);
  }

  /** An unasked actor of the branch has its row. */
  lemma UnaskedHasRow(w: World, root: Path, call: nat, k: nat)
    requires StopInv(w, root, call) && InBranch(w, root, k)
    requires !w.actors[k].phase.Ended? && !w.actors[k].stopRaised
    ensures w.actors[k].path in w.live && w.live[w.actors[k].path] == k
  {
    assert Unasked(w, root, k) && ActorHolds(w, k);
  }

  lemma LeavingKeepsStop(w: World, root: Path, call: nat, action: Action)
    requires StopInv(w, root, call) && Enabled(w, action) && Quiet(w, root, call, action)
    requires action.Started? || action.Leave? || action.Retire?
    requires InBranch(w, root, action.id)
    ensures StopInv(Do(w, action), root, call)
  {
    StepKeepsRegistry(w, action);
    assert Unasked(w, root, action.id);
    WaitsForNobodyIsLowest(w, root, call, action.id);
    OnePhaseKeepsStop(w, Do(w, action), root, call, action.id);
  }

  lemma EndingScanKeepsStop(w: World, root: Path, call: nat, id: nat, found: seq<Path>)
    requires StopInv(w, root, call) && Enabled(w, Scan(Ending(id), found)) && InBranch(w, root, id)
    ensures StopInv(Do(w, Scan(Ending(id), found)), root, call)
  {
    var w' := Do(w, Scan(Ending(id), found));
    StepKeepsRegistry(w, Scan(Ending(id), found));
    assert Unasked(w, root, id);
    WaitsForNobodyIsLowest(w, root, call, id);
    forall k | k in w.actors && w.actors[k].creator == Some(id) && !w.actors[k].phase.Ended?
      ensures !w.actors[k].stopRaised && w.actors[k].path in found
    {
      assert ActorHolds(w, k);
      assert !Stopping(w, root, k);
      UnaskedHasRow(w, root, call, k);
    }
    OnePhaseKeepsStop(w, w', root, call, id);
  }

  lemma EndKeepsStop(w: World, root: Path, call: nat, id: nat)
    requires StopInv(w, root, call) && Enabled(w, End(id)) && InBranch(w, root, id)
    ensures StopInv(Do(w, End(id)), root, call)
  {
    StepKeepsRegistry(w, End(id));
    WaitsForNobodyIsLowest(w, root, call, id);
    assert forall k :: k in w.actors ==> ChildAccounted(w, root, k);
    OnePhaseKeepsStop(w, Do(w, End(id)), root, call, id);
  }

  lemma EndingAwakeKeepsStop(w: World, root: Path, call: nat, id: nat)
    requires StopInv(w, root, call) && Enabled(w, Awake(Ending(id))) && InBranch(w, root, id)
    ensures StopInv(Do(w, Awake(Ending(id))), root, call)
  {
    var w' := Do(w, Awake(Ending(id)));
    StepKeepsRegistry(w, Awake(Ending(id)));
    assert Unasked(w, root, id);
    forall k | Stopping(w, root, id) && Stopping(w, root, k) && k != id
      ensures w.actors[k].path < w.actors[id].path
    {
      assert Chained(w, root, id, k);
    }
    forall k | k in w.actors && w.actors[k].creator == Some(id) && !w.actors[k].phase.Ended?
      ensures !w.actors[k].stopRaised && w.actors[k].path in w.actors[id].phase.todo
    {
      assert ChildAccounted(w, root, k);
    }
    OnePhaseKeepsStop(w, w', root, call, id);
  }

  // The call itself moves on.

  lemma CallingScanKeepsStop(w: World, root: Path, call: nat, found: seq<Path>)
    requires StopInv(w, root, call) && Enabled(w, Scan(Calling(call), found))
    ensures StopInv(Do(w, Scan(Calling(call), found)), root, call)
  {
    var w' := Do(w, Scan(Calling(call), found));
    StepKeepsRegistry(w, Scan(Calling(call), found));
    forall i | i in w'.actors
      ensures Unasked(w', root, i) && CallChained(w', root, call, i)
      ensures ChildAccounted(w', root, i) && TopAccounted(w', root, call, i)
    {
      assert Unasked(w, root, i) && CallChained(w, root, call, i);
      assert ChildAccounted(w, root, i) && TopAccounted(w, root, call, i);
      if InBranch(w, root, i) && !w.actors[i].phase.Ended? {
        NothingStopsAtAll(w, root, call, i);
        UnaskedHasRow(w, root, call, i);
      }
    }
    forall i, j | i in w'.actors && j in w'.actors
      ensures Chained(w', root, i, j)
    {
      assert Chained(w, root, i, j);
    }
  }

  lemma CallingAwakeKeepsStop(w: World, root: Path, call: nat)
    requires StopInv(w, root, call) && Enabled(w, Awake(Calling(call)))
    ensures StopInv(Do(w, Awake(Calling(call))), root, call)
  {
    var w' := Do(w, Awake(Calling(call)));
    StepKeepsRegistry(w, Awake(Calling(call)));
    forall i | i in w'.actors
      ensures Unasked(w', root, i) && CallChained(w', root, call, i)
      ensures ChildAccounted(w', root, i) && TopAccounted(w', root, call, i)
    {
      assert Unasked(w, root, i) && CallChained(w, root, call, i);
      assert ChildAccounted(w, root, i) && TopAccounted(w, root, call, i);
    }
    forall i, j | i in w'.actors && j in w'.actors
      ensures Chained(w', root, i, j)
    {
      assert Chained(w, root, i, j);
    }
  }

  // A handler of the branch creates a child.

  lemma CreateActor(w: World, root: Path, call: nat, creator: Option<nat>, path: Path, i: nat)
    requires StopInv(w, root, call) && Enabled(w, Create(creator, path)) && Quiet(w, root, call, Create(creator, path))
    requires i in DoCreate(w, creator, path).actors
    ensures var w' := DoCreate(w, creator, path);
            && Unasked(w', root, i) && CallChained(w', root, call, i)
            && ChildAccounted(w', root, i) && TopAccounted(w', root, call, i)
  {
    assert w.next in w.actors ==> ActorHolds(w, w.next);
    if i in w.actors {
      assert ActorHolds(w, i);
      assert Unasked(w, root, i) && CallChained(w, root, call, i);
      assert ChildAccounted(w, root, i) && TopAccounted(w, root, call, i);
    }
  }

  lemma CreateChain(w: World, root: Path, call: nat, creator: Option<nat>, path: Path, i: nat, j: nat)
    requires StopInv(w, root, call) && MayCreate(w, creator, path)
    requires i in DoCreate(w, creator, path).actors && j in DoCreate(w, creator, path).actors
    ensures Chained(DoCreate(w, creator, path), root, i, j)
  {
    assert w.next in w.actors ==> ActorHolds(w, w.next);
    assert i in w.actors && j in w.actors ==> Chained(w, root, i, j);
  }

  lemma CreateKeepsStop(w: World, root: Path, call: nat, creator: Option<nat>, path: Path)
    requires StopInv(w, root, call) && Enabled(w, Create(creator, path)) && Quiet(w, root, call, Create(creator, path))
    ensures StopInv(DoCreate(w, creator, path), root, call)
  {
    var w' := DoCreate(w, creator, path);
    StepKeepsRegistry(w, Create(creator, path));
    forall i | i in w'.actors
      ensures Unasked(w', root, i) && CallChained(w', root, call, i)
      ensures ChildAccounted(w', root, i) && TopAccounted(w', root, call, i)
    {
      CreateActor(w, root, call, creator, path, i);
    }
    forall i, j | i in w'.actors && j in w'.actors
      ensures Chained(w', root, i, j)
    {
      CreateChain(w, root, call, creator, path, i, j);
    }
  }

  // An actor of the branch, or the call, halts the next path on its list.

  /** The list had a path that nothing is registered at any more. */
  lemma EndingSkipKeepsStop(w: World, root: Path, call: nat, id: nat)
    requires StopInv(w, root, call) && Enabled(w, HaltNext(Ending(id))) && InBranch(w, root, id)
    requires w.actors[id].phase.todo[0] !in w.live
    ensures StopInv(DoHaltNext(w, Ending(id)), root, call)
  {
    var w' := DoHaltNext(w, Ending(id));
    var todo := w.actors[id].phase.todo;
    StepKeepsRegistry(w, HaltNext(Ending(id)));
    assert Unasked(w, root, id);
    WaitsForNobodyIsLowest(w, root, call, id);
    forall k | k in w.actors && w.actors[k].creator == Some(id) && !w.actors[k].phase.Ended?
      ensures !w.actors[k].stopRaised && w.actors[k].path in todo[1..]
    {
      assert ChildAccounted(w, root, k) && ActorHolds(w, k);
      UnaskedHasRow(w, root, call, k);
      assert todo == [todo[0]] + todo[1..];
    }
    OnePhaseKeepsStop(w, w', root, call, id);
  }

  /** What a halt inside the branch finds: an unasked actor strictly below the halter. */
  lemma EndingHaltTarget(w: World, root: Path, call: nat, id: nat) returns (t: nat)
    requires StopInv(w, root, call) && Enabled(w, HaltNext(Ending(id))) && InBranch(w, root, id)
    requires w.actors[id].phase.todo[0] in w.live
    ensures t == w.live[w.actors[id].phase.todo[0]] && t in w.actors && t != id
    ensures w.actors[t].path == w.actors[id].phase.todo[0]
    ensures w.actors[id].path < w.actors[t].path
    ensures w.actors[t].Runs() && !w.actors[t].stopRaised && Stopping(w, root, id)
  {
    var path := w.actors[id].phase.todo[0];
    assert path in w.actors[id].phase.todo;
    assert ActorHolds(w, id) && RowHolds(w, path) && Unasked(w, root, id);
    t := w.live[path];
    assert Unasked(w, root, t);
  }

  lemma EndingHaltChain(w: World, root: Path, call: nat, id: nat, i: nat, j: nat)
    requires StopInv(w, root, call) && Enabled(w, HaltNext(Ending(id))) && InBranch(w, root, id)
    requires w.actors[id].phase.todo[0] in w.live && i in w.actors && j in w.actors
    ensures Chained(DoHaltNext(w, Ending(id)), root, i, j)
  {
    var t := EndingHaltTarget(w, root, call, id);
    WaitsForNobodyIsLowest(w, root, call, id);
    assert Chained(w, root, i, j) && Chained(w, root, i, id);
  }

  lemma EndingHaltActor(w: World, root: Path, call: nat, id: nat, i: nat)
    requires StopInv(w, root, call) && Enabled(w, HaltNext(Ending(id))) && InBranch(w, root, id)
    requires w.actors[id].phase.todo[0] in w.live && i in w.actors
    ensures var w' := DoHaltNext(w, Ending(id));
            Unasked(w', root, i) && CallChained(w', root, call, i) && TopAccounted(w', root, call, i)
  {
    var t := EndingHaltTarget(w, root, call, id);
    assert Unasked(w, root, i) && CallChained(w, root, call, i) && CallChained(w, root, call, id);
    assert TopAccounted(w, root, call, i);
  }

  /** A sweeping actor of the branch other than the one that is about to halt is strictly above it. */
  lemma SweepingAboveIsFurtherUp(w: World, root: Path, call: nat, id: nat, c: nat)
    requires StopInv(w, root, call) && Enabled(w, HaltNext(Ending(id))) && InBranch(w, root, id)
    requires InBranch(w, root, c) && c != id
    ensures w.actors[c].phase.Sweeping? ==> |w.actors[c].path| < |w.actors[id].path|
  {
    assert Unasked(w, root, c) && Unasked(w, root, id);
    WaitsForNobodyIsLowest(w, root, call, id);
  }

  lemma EndingHaltChild(w: World, root: Path, call: nat, id: nat, k: nat)
    requires StopInv(w, root, call) && Enabled(w, HaltNext(Ending(id))) && InBranch(w, root, id)
    requires w.actors[id].phase.todo[0] in w.live && k in w.actors
    ensures ChildAccounted(DoHaltNext(w, Ending(id)), root, k)
  {
    var t := EndingHaltTarget(w, root, call, id);
    var todo := w.actors[id].phase.todo;
    assert todo == [todo[0]] + todo[1..];
    assert ChildAccounted(w, root, k) && ActorHolds(w, k);
    if w.actors[k].creator.Some? && InBranch(w, root, w.actors[k].creator.value) && !w.actors[k].phase.Ended? {
      var c := w.actors[k].creator.value;
      if c == id {
        UnaskedHasRow(w, root, call, k);
      } else if k == t {
        SweepingAboveIsFurtherUp(w, root, call, id, c);
      }
    }
  }

  lemma EndingHaltKeepsStop(w: World, root: Path, call: nat, id: nat)
    requires StopInv(w, root, call) && Enabled(w, HaltNext(Ending(id))) && InBranch(w, root, id)
    ensures StopInv(DoHaltNext(w, Ending(id)), root, call)
  {
    if w.actors[id].phase.todo[0] !in w.live {
      EndingSkipKeepsStop(w, root, call, id);
    } else {
      var w' := DoHaltNext(w, Ending(id));
      StepKeepsRegistry(w, HaltNext(Ending(id)));
      var t := EndingHaltTarget(w, root, call, id);
      assert w'.actors.Keys == w.actors.Keys;
      forall i | i in w'.actors
        ensures Unasked(w', root, i) && CallChained(w', root, call, i)
        ensures ChildAccounted(w', root, i) && TopAccounted(w', root, call, i)
      {
        EndingHaltActor(w, root, call, id, i);
        EndingHaltChild(w, root, call, id, i);
      }
      forall i, j | i in w'.actors && j in w'.actors
        ensures Chained(w', root, i, j)
      {
        EndingHaltChain(w, root, call, id, i, j);
      }
    }
  }

  /** Nothing is stopping when the call halts; afterwards at most the actor it halted is. */
  lemma CallingHaltActor(w: World, root: Path, call: nat, i: nat)
    requires StopInv(w, root, call) && Enabled(w, HaltNext(Calling(call))) && i in w.actors
    ensures var w' := DoHaltNext(w, Calling(call));
            && Unasked(w', root, i) && CallChained(w', root, call, i)
            && ChildAccounted(w', root, i)
            && (Stopping(w', root, i) ==> Target(w, w.stops[call].todo[0]) == Some(i))
  {
    var path := w.stops[call].todo[0];
    assert Unasked(w, root, i) && ChildAccounted(w, root, i) && ActorHolds(w, i);
    assert path in w.live ==> RowHolds(w, path);
    if InBranch(w, root, i) {
      NothingStopsAtAll(w, root, call, i);
    }
    if w.actors[i].creator.Some? && InBranch(w, root, w.actors[i].creator.value) {
      var c := w.actors[i].creator.value;
      NothingStopsAtAll(w, root, call, c);
      assert Unasked(w, root, c);
    }
  }

  lemma CallingHaltTop(w: World, root: Path, call: nat, k: nat)
    requires StopInv(w, root, call) && Enabled(w, HaltNext(Calling(call))) && k in w.actors
    ensures TopAccounted(DoHaltNext(w, Calling(call)), root, call, k)
  {
    var todo := w.stops[call].todo;
    assert todo == [todo[0]] + todo[1..];
    assert TopAccounted(w, root, call, k);
    assert todo[0] in w.live ==> RowHolds(w, todo[0]);
    if IsTop(w, root, k) && !w.actors[k].phase.Ended? {
      NothingStopsAtAll(w, root, call, k);
      UnaskedHasRow(w, root, call, k);
      assert |root| == |w.actors[k].path| ==> root == w.actors[k].path;
    }
  }

  lemma CallingHaltKeepsStop(w: World, root: Path, call: nat)
    requires StopInv(w, root, call) && Enabled(w, HaltNext(Calling(call)))
    ensures StopInv(DoHaltNext(w, Calling(call)), root, call)
  {
    var w' := DoHaltNext(w, Calling(call));
    StepKeepsRegistry(w, HaltNext(Calling(call)));
    assert w.stops[call].todo[0] in w.live ==> RowHolds(w, w.stops[call].todo[0]);
    assert w'.actors.Keys == w.actors.Keys;
    forall i | i in w'.actors
      ensures Unasked(w', root, i) && CallChained(w', root, call, i)
      ensures ChildAccounted(w', root, i) && TopAccounted(w', root, call, i)
      ensures Stopping(w', root, i) ==> Target(w, w.stops[call].todo[0]) == Some(i)
    {
      CallingHaltActor(w, root, call, i);
      CallingHaltTop(w, root, call, i);
    }
    forall i, j | i in w'.actors && j in w'.actors
      ensures Chained(w', root, i, j)
    {
    }
  }

  lemma HaltKeepsStop(w: World, root: Path, call: nat, who: Halter)
    requires StopInv(w, root, call) && Enabled(w, HaltNext(who)) && Quiet(w, root, call, HaltNext(who))
    ensures StopInv(DoHaltNext(w, who), root, call)
  {
    if who == Calling(call) {
      CallingHaltKeepsStop(w, root, call);
    } else if who.Ending? && InBranch(w, root, who.id) {
      EndingHaltKeepsStop(w, root, call, who.id);
    } else {
      OutsideHaltKeepsStop(w, root, call, who);
    }
  }

  lemma OutsideHaltKeepsStop(w: World, root: Path, call: nat, who: Halter)
    requires StopInv(w, root, call) && Enabled(w, HaltNext(who)) && Quiet(w, root, call, HaltNext(who))
    requires who != Calling(call) && !(who.Ending? && InBranch(w, root, who.id))
    ensures StopInv(DoHaltNext(w, who), root, call)
  {
    var path := Todo(w, who)[0];
    StepKeepsRegistry(w, HaltNext(who));
    assert path in w.live ==> RowHolds(w, path);
    OutsideKeepsStop(w, DoHaltNext(w, who), root, call);
  }

  /** Steps of one actor: each either leaves the branch alone or is one of the cases above. */
  lemma ActorStepKeepsStop(w: World, root: Path, call: nat, action: Action)
    requires StopInv(w, root, call) && Enabled(w, action) && Quiet(w, root, call, action)
    requires action.Started? || action.Leave? || action.Retire? || action.End?
    ensures StopInv(Do(w, action), root, call)
  {
    if !InBranch(w, root, action.id) {
      StepKeepsRegistry(w, action);
      OutsideKeepsStop(w, Do(w, action), root, call);
    } else if action.End? {
      EndKeepsStop(w, root, call, action.id);
    } else {
      LeavingKeepsStop(w, root, call, action);
    }
  }

  lemma HalterStepKeepsStop(w: World, root: Path, call: nat, action: Action)
    requires StopInv(w, root, call) && Enabled(w, action) && (action.Scan? || action.Awake?)
    ensures StopInv(Do(w, action), root, call)
  {
    if !Ours(w, root, call, action.who) {
      StepKeepsRegistry(w, action);
      OutsideKeepsStop(w, Do(w, action), root, call);
    } else {
      match action
      case Scan(Ending(id), found) => EndingScanKeepsStop(w, root, call, id, found);
      case Scan(Calling(id), found) => CallingScanKeepsStop(w, root, call, found);
      case Awake(Ending(id)) => EndingAwakeKeepsStop(w, root, call, id);
      case Awake(Calling(id)) => CallingAwakeKeepsStop(w, root, call);
    }
  }

  lemma StepKeepsStop(w: World, root: Path, call: nat, action: Action)
    requires StopInv(w, root, call) && Enabled(w, action) && Quiet(w, root, call, action)
    ensures StopInv(Do(w, action), root, call)
  {
    match action
    case Create(creator, path) => CreateKeepsStop(w, root, call, creator, path);
    case HaltNext(who) => HaltKeepsStop(w, root, call, who);
    case Scan(_, _) => HalterStepKeepsStop(w, root, call, action);
    case Awake(_) => HalterStepKeepsStop(w, root, call, action);
    case Stop(_) =>
      StepKeepsRegistry(w, action);
      assert CallHolds(w, call);
      OutsideKeepsStop(w, Do(w, action), root, call);
    case _ => ActorStepKeepsStop(w, root, call, action);
  }

  lemma {:induction false} RunKeepsStop(worlds: seq<World>, actions: seq<Action>, root: Path, call: nat, n: nat)
    requires IsQuietRun(worlds, actions, root, call) && n <= |actions|
    ensures StopInv(worlds[n], root, call)
  {
    if n == 0 {
      QuietStartHolds(worlds[0], root, call);
    } else {
      RunKeepsStop(worlds, actions, root, call, n - 1);
      StepKeepsStop(worlds[n - 1], root, call, actions[n - 1]);
    }
  }

  /** No actor of the branch has ended while an actor it created has not. */
  ghost predicate ChildrenEndFirst(w: World, root: Path) {
    forall k :: k in w.actors && w.actors[k].creator.Some? && InBranch(w, root, w.actors[k].creator.value) ==>
      (w.actors[w.actors[k].creator.value].phase.Ended? ==> w.actors[k].phase.Ended?)
  }

  /**
   The guardian's promise. At every moment of a stop in a quiet branch, an actor of the branch
   that has ended has left no actor it created running; and when the call has returned, every
   actor at or below the path has ended and no row at or below it is left.
   */
  lemma StoppingABranchEndsIt(worlds: seq<World>, actions: seq<Action>, root: Path, call: nat, n: nat)
    requires IsQuietRun(worlds, actions, root, call) && n <= |actions|
    ensures ChildrenEndFirst(worlds[n], root)
    ensures var w := worlds[n];
            call in w.stops && w.stops[call].Returned() ==>
              && (forall i :: InBranch(w, root, i) ==> w.actors[i].phase.Ended?)
              && (forall p :: p in w.live ==> !(root <= p))
  {
    var w := worlds[n];
    RunKeepsStop(worlds, actions, root, call, n);
    assert forall k :: k in w.actors ==> ChildAccounted(w, root, k);
    if w.stops[call].Returned() {
      forall i | InBranch(w, root, i)
        ensures w.actors[i].phase.Ended?
      {
        ReturnedMeansGone(w, root, call, i);
      }
      forall p | p in w.live
        ensures !(root <= p)
      {
        assert RowHolds(w, p);
      }
    }
  }

  // ---- And by path ------------------------------------------------------------------------------

  /** A sweep still has to do every actor below it that was there when the stop began and is not asked yet. */
  ghost predicate OldSwept(w: World, root: Path, base: nat, y: nat, x: nat) {
    && InBranch(w, root, y) && InBranch(w, root, x) && x < base && w.actors[y].path < w.actors[x].path
    && w.actors[y].phase.Sweeping? && !w.actors[x].phase.Ended? && !w.actors[x].stopRaised ==>
      w.actors[x].path in w.actors[y].phase.todo
  }

  lemma HaltKeepsOldSwept(w: World, root: Path, call: nat, who: Halter, base: nat, y: nat, x: nat)
    requires StopInv(w, root, call) && Enabled(w, HaltNext(who)) && y in w.actors && x in w.actors
    requires OldSwept(w, root, base, y, x)
    ensures OldSwept(DoHaltNext(w, who), root, base, y, x)
  {
    assert ActorHolds(w, x) && Unasked(w, root, x);
    var path := Todo(w, who)[0];
    assert path in w.live ==> RowHolds(w, path);
  }

  lemma ScanKeepsOldSwept(w: World, root: Path, call: nat, who: Halter, found: seq<Path>, base: nat, y: nat, x: nat)
    requires StopInv(w, root, call) && Enabled(w, Scan(who, found)) && y in w.actors && x in w.actors
    requires OldSwept(w, root, base, y, x)
    ensures OldSwept(Do(w, Scan(who, found)), root, base, y, x)
  {
    assert ActorHolds(w, x) && Unasked(w, root, x);
  }

  lemma OtherStepKeepsOldSwept(w: World, root: Path, action: Action, base: nat, y: nat, x: nat)
    requires Enabled(w, action) && !action.HaltNext? && !action.Scan? && base <= w.next && w.next !in w.actors
    requires OldSwept(w, root, base, y, x)
    ensures OldSwept(Do(w, action), root, base, y, x)
  {
  }

  lemma StepKeepsOldSwept(w: World, root: Path, call: nat, action: Action, base: nat, y: nat, x: nat)
    requires StopInv(w, root, call) && Enabled(w, action) && base <= w.next
    requires OldSwept(w, root, base, y, x)
    ensures OldSwept(Do(w, action), root, base, y, x)
  {
    assert w.next in w.actors ==> ActorHolds(w, w.next);
    if action.HaltNext? && y in w.actors && x in w.actors {
      HaltKeepsOldSwept(w, root, call, action.who, base, y, x);
    } else if action.Scan? && y in w.actors && x in w.actors {
      ScanKeepsOldSwept(w, root, call, action.who, action.found, base, y, x);
    } else if !action.HaltNext? && !action.Scan? {
      OtherStepKeepsOldSwept(w, root, action, base, y, x);
    }
  }

  lemma IdsGrow(w: World, action: Action)
    requires Enabled(w, action)
    ensures w.next <= Do(w, action).next
  {
  }

  lemma {:induction false} RunKeepsOldSwept(
      worlds: seq<World>, actions: seq<Action>, root: Path, call: nat, n: nat, y: nat, x: nat)
    requires IsQuietRun(worlds, actions, root, call) && n <= |actions|
    ensures worlds[0].next <= worlds[n].next && OldSwept(worlds[n], root, worlds[0].next, y, x)
  {
    if n > 0 {
      RunKeepsOldSwept(worlds, actions, root, call, n - 1, y, x);
      RunKeepsStop(worlds, actions, root, call, n - 1);
      StepKeepsOldSwept(worlds[n - 1], root, call, actions[n - 1], worlds[0].next, y, x);
      IdsGrow(worlds[n - 1], actions[n - 1]);
    }
  }

  lemma MayEndOverNothingOld(w: World, root: Path, call: nat, base: nat, y: nat, x: nat)
    requires StopInv(w, root, call) && Enabled(w, End(y)) && InBranch(w, root, y)
    requires InBranch(w, root, x) && x < base && w.actors[y].path < w.actors[x].path && OldSwept(w, root, base, y, x)
    ensures w.actors[x].phase.Ended?
  {
    assert Unasked(w, root, y) && Chained(w, root, y, x);
  }

  /**
   By path too: an actor of the branch ends only after everything below it that was there when the stop
   began, whoever created it.
   */
  lemma WhatWasBelowEndsFirst(
      worlds: seq<World>, actions: seq<Action>, root: Path, call: nat, n: nat, y: nat, x: nat)
    requires IsQuietRun(worlds, actions, root, call) && n < |actions| && actions[n] == End(y)
    requires InBranch(worlds[n], root, y) && InBranch(worlds[n], root, x) && x < worlds[0].next
    requires worlds[n].actors[y].path < worlds[n].actors[x].path
    ensures worlds[n].actors[x].phase.Ended?
  {
    RunKeepsStop(worlds, actions, root, call, n);
    RunKeepsOldSwept(worlds, actions, root, call, n, y, x);
    MayEndOverNothingOld(worlds[n], root, call, worlds[0].next, y, x);
  }

  /** Whose step it is, if it is a step of the stop: the call, or an actor of its branch. */
  predicate StepOfTheStop(w: World, root: Path, call: nat, action: Action) {
    match action
    case Create(creator, _) => creator.Some? && InBranch(w, root, creator.value)
    case Scan(who, _) => Ours(w, root, call, who)
    case HaltNext(who) => Ours(w, root, call, who)
    case Awake(who) => Ours(w, root, call, who)
    case Stop(_) => false
    case _ => InBranch(w, root, action.id)
  }

  /** Actors and rows outside the branch are as they were. */
  ghost predicate OthersUntouched(w: World, w': World, root: Path) {
    && (forall i :: i in w.actors && !InBranch(w, root, i) ==> i in w'.actors && w'.actors[i] == w.actors[i])
    && (forall p :: !(root <= p) ==> (p in w'.live <==> p in w.live))
    && (forall p :: p in w.live && !(root <= p) ==> w'.live[p] == w.live[p])
  }

  lemma CreateTouchesNoOtherBranch(w: World, root: Path, call: nat, creator: Option<nat>, path: Path)
    requires RegistryInv(w) && Enabled(w, Create(creator, path)) && StepOfTheStop(w, root, call, Create(creator, path))
    ensures OthersUntouched(w, Do(w, Create(creator, path)), root)
  {
    assert w.next in w.actors ==> ActorHolds(w, w.next);
  }

  lemma HaltTouchesNoOtherBranch(w: World, root: Path, call: nat, who: Halter)
    requires RegistryInv(w) && call in w.stops && w.stops[call].root == root
    requires Enabled(w, HaltNext(who)) && StepOfTheStop(w, root, call, HaltNext(who))
    ensures OthersUntouched(w, Do(w, HaltNext(who)), root)
  {
    var path := Todo(w, who)[0];
    assert path in Todo(w, who);
    assert path in w.live ==> RowHolds(w, path);
    assert who.Ending? ==> ActorHolds(w, who.id);
    assert who.Calling? ==> CallHolds(w, who.id);
  }

  /** No other branch is touched by any step of the stop, or of the actors being stopped. */
  lemma StopTouchesNoOtherBranch(w: World, root: Path, call: nat, action: Action)
    requires RegistryInv(w) && call in w.stops && w.stops[call].root == root
    requires Enabled(w, action) && StepOfTheStop(w, root, call, action)
    ensures OthersUntouched(w, Do(w, action), root)
  {
    match action
    case Create(creator, path) => CreateTouchesNoOtherBranch(w, root, call, creator, path);
    case HaltNext(who) => HaltTouchesNoOtherBranch(w, root, call, who);
    case _ =>
  }
}
