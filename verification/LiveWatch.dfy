/**
 Letting go of shards (`set_live` in `src/cluster/node.rs`, `release_vacated_shards` and
 `watch_placement` in `src/system.rs`): the agreed live set moves, a watcher that only ever sees the
 latest value is woken, and it stops the shards that no longer hash to this node.
 */
module LiveWatch {
  import opened Wrappers
  import opened Paths
  import opened Placement

  /** Which node a shard hashes to among these members. */
  ghost function HostOf(members: set<nat>, shard: PlacedShard): Option<nat> {
    Owner(members, ScoringOf(Bytes(shard.typeName), Bytes(shard.shardId)))
  }

  /** The host is the member whose hash of type, shard and id is highest, the higher id on a tie. */
  lemma TheHostScoresHighest(members: set<nat>, shard: PlacedShard, host: nat)
    requires HostOf(members, shard) == Some(host)
    ensures host in members
    ensures var t, s := Bytes(shard.typeName), Bytes(shard.shardId);
            forall n :: n in members ==> Score(t, s, n) <= Score(t, s, host)
  {
    var t, s := Bytes(shard.typeName), Bytes(shard.shardId);
    var score := ScoringOf(t, s);
    TheOwnerIsTheHighestOfTheBest(members, score, host);
    forall n | n in members
      ensures Score(t, s, n) <= Score(t, s, host)
    {
      assert score(n) <= score(host);
    }
  }

  /** One pass over the registry: what it found, what is left to look at, and what it stopped. */
  datatype Sweep = Sweep(found: set<PlacedShard>, todo: set<PlacedShard>, stopped: set<PlacedShard>)

  /**
   `setting` is a call that has moved the table and not announced it yet. `version` counts the
   announced changes; `seen` is the one the watcher was last woken for.
   */
  datatype World = World(
    local: nat,
    table: set<nat>,
    announced: seq<nat>,
    setting: Option<seq<nat>>,
    version: nat,
    seen: nat,
    sweep: Sweep
  )

  function Start(local: nat): World {
    World(local, {}, [], None, 0, 0, Sweep({}, {}, {}))
  }

  datatype Action =
    | SetTable(live: seq<nat>)
    | Announce
    | Wake(keys: set<Path>)          // the watcher wakes and reads the registry
    | Visit(shard: PlacedShard)      // placement is asked about one shard, which is stopped if it moved

  function Running(keys: set<Path>): set<PlacedShard> {
    set key | key in keys && ShardRootOf(key).Some? :: ShardRootOf(key).value
  }

  predicate Enabled(w: World, action: Action) {
    match action
    case SetTable(_) => w.setting.None?
    case Announce => w.setting.Some?
    case Wake(_) => w.sweep.todo == {} && w.seen < w.version
    case Visit(shard) => shard in w.sweep.todo
  }

  ghost function Do(w: World, action: Action): World
    requires Enabled(w, action)
  {
    match action
    case SetTable(live) => w.(setting := Some(live), table := Collected(live))
    case Announce =>
      if w.announced == w.setting.value then w.(setting := None)
      else w.(announced := w.setting.value, version := w.version + 1, setting := None)
    case Wake(keys) => w.(seen := w.version, sweep := Sweep(Running(keys), Running(keys), {}))
    case Visit(shard) =>
      var sweep := w.sweep.(todo := w.sweep.todo - {shard});
      if HostOf(w.table, shard) == Some(w.local) then w.(sweep := sweep)
      else w.(sweep := sweep.(stopped := sweep.stopped + {shard}))
  }

  ghost predicate IsRun(worlds: seq<World>, actions: seq<Action>) {
    && |worlds| == |actions| + 1 && worlds[0] == Start(worlds[0].local)
    && forall k :: 0 <= k < |actions| ==>
         Enabled(worlds[k], actions[k]) && worlds[k + 1] == Do(worlds[k], actions[k])
  }

  /** No change is announced and unseen, and none is on its way. */
  predicate Settled(w: World) {
    w.seen == w.version && (w.setting.None? || w.setting.value == w.announced)
  }

  ghost predicate Judged(w: World, shard: PlacedShard) {
    shard in w.sweep.stopped <==> HostOf(w.table, shard) != Some(w.local)
  }

  ghost predicate WatchInv(w: World) {
    && w.table == Collected(if w.setting.Some? then w.setting.value else w.announced)
    && w.seen <= w.version
    && w.sweep.todo <= w.sweep.found && w.sweep.stopped <= w.sweep.found - w.sweep.todo
    && (Settled(w) ==> forall shard :: shard in w.sweep.found - w.sweep.todo ==> Judged(w, shard))
  }

  lemma StepKeepsWatch(w: World, action: Action)
    requires WatchInv(w) && Enabled(w, action)
    ensures WatchInv(Do(w, action)) && Do(w, action).local == w.local
  {
    var w' := Do(w, action);
    if Settled(w') {
      forall shard | shard in w'.sweep.found - w'.sweep.todo
        ensures Judged(w', shard)
      {
        assert Settled(w) && shard in w.sweep.found - w.sweep.todo ==> Judged(w, shard);
      }
    }
  }

  lemma {:induction false} RunKeepsWatch(worlds: seq<World>, actions: seq<Action>, k: nat)
    requires IsRun(worlds, actions) && k < |worlds|
    ensures WatchInv(worlds[k]) && worlds[k].local == worlds[0].local
  {
    if k > 0 {
      RunKeepsWatch(worlds, actions, k - 1);
      StepKeepsWatch(worlds[k - 1], actions[k - 1]);
    }
  }

  /** Setting the same list again is as if nothing had been set; any other list leaves the watcher something to wake for. */
  lemma OnlyAnotherListIsAnnounced(w: World, live: seq<nat>)
    requires WatchInv(w) && w.setting.None?
    ensures var w' := Do(Do(w, SetTable(live)), Announce);
            && (live == w.announced <==> w' == w)
            && (live != w.announced ==> w'.announced == live && w'.version == w.version + 1 && w'.seen < w'.version)
  {
  }

  /** Nothing announced is unseen, nothing is being set, and the last sweep is over. */
  predicate CaughtUp(w: World) {
    w.seen == w.version && w.setting.None? && w.sweep.todo == {}
  }

  /**
   No change is missed, however many were coalesced: once the watcher has caught up, its last sweep
   stopped exactly the shards it found that do not hash here under the member set that holds now.
   */
  lemma TheLastSweepReadTheFinalMembers(worlds: seq<World>, actions: seq<Action>, k: nat)
    requires IsRun(worlds, actions) && k < |worlds| && CaughtUp(worlds[k])
    ensures var w := worlds[k];
            && w.table == Collected(w.announced)
            && w.sweep.stopped <= w.sweep.found
            && forall shard :: shard in w.sweep.found ==>
                 (shard in w.sweep.stopped <==> HostOf(w.table, shard) != Some(w.local))
  {
    RunKeepsWatch(worlds, actions, k);
    var w := worlds[k];
    forall shard | shard in w.sweep.found
      ensures shard in w.sweep.stopped <==> HostOf(w.table, shard) != Some(w.local)
    {
      assert shard in w.sweep.found - w.sweep.todo;
      assert Judged(w, shard);
    }
  }

  /** Once awake after a change, it is always the present member set that decides: an old sweep cannot settle. */
  lemma AChangeForcesAnotherSweep(worlds: seq<World>, actions: seq<Action>, j: nat, k: nat)
    requires IsRun(worlds, actions) && j < k < |worlds| && actions[j] == Announce
    requires worlds[j + 1].version > worlds[j].version && CaughtUp(worlds[k])
    ensures exists i :: j < i < k && actions[i].Wake?
  {
    if forall i :: j < i < k ==> !actions[i].Wake? {
      RunKeepsWatch(worlds, actions, j);
      SeenStays(worlds, actions, j + 1, k);
      assert false;
    }
  }

  lemma {:induction false} SeenStays(worlds: seq<World>, actions: seq<Action>, j: nat, k: nat)
    requires IsRun(worlds, actions) && j <= k < |worlds|
    requires forall i :: j <= i < k ==> !actions[i].Wake?
    ensures worlds[k].seen == worlds[j].seen && worlds[k].version >= worlds[j].version
  {
    if j < k {
      SeenStays(worlds, actions, j, k - 1);
    }
  }

  /** In registry keys: a key the sweep found is under a stopped root iff it is a shard's and the shard moved. */
  lemma StoppedSubtrees(keys: set<Path>, stopped: set<PlacedShard>, members: set<nat>, local: nat, key: Path)
    requires forall shard :: shard in Running(keys) ==> (shard in stopped <==> HostOf(members, shard) != Some(local))
    requires stopped <= Running(keys) && key in keys
    ensures (exists shard :: shard in stopped && StartsWith(key, ShardRoot(shard))) <==>
            ShardRootOf(key).Some? && HostOf(members, ShardRootOf(key).value) != Some(local)
  {
    if ShardRootOf(key).Some? {
      var mine := ShardRootOf(key).value;
      assert mine in Running(keys);
      ShardRootOfIsThePrefix(key, mine);
    }
    forall shard | shard in stopped && StartsWith(key, ShardRoot(shard))
      ensures ShardRootOf(key) == Some(shard)
    {
      ShardRootOfIsThePrefix(key, shard);
    }
  }

  // ---- As the objects do it ---------------------------------------------------------------------------------

  class LiveSet {
    const table: PlacementTable
    var announced: seq<nat>
    var version: nat

    constructor ()
      ensures fresh(table) && table.members == {} && announced == [] && version == 0
    {
      table := new PlacementTable();
      announced, version := [], 0;
    }

    /** Placement first, then the announcement, and only if the list is a different one. */
    method SetLive(live: seq<nat>)
      modifies this, table
      ensures table.members == Collected(live) && announced == live
      ensures version == if old(announced) == live then old(version) else old(version) + 1
    {
      table.SetMembers(live);
      if announced != live {
        announced := live;
        version := version + 1;
      }
    }

    /** The registry is read once; then placement is asked about each shard found. */
    method ReleaseVacatedShards(keys: set<Path>, local: nat) returns (stopped: set<PlacedShard>)
      ensures stopped <= Running(keys)
      ensures forall shard :: shard in Running(keys) ==>
                (shard in stopped <==> HostOf(table.members, shard) != Some(local))
    {
      var todo := Running(keys);
      stopped := {};
      while todo != {}
        invariant todo <= Running(keys) && stopped <= Running(keys) - todo
        invariant forall shard :: shard in Running(keys) - todo ==>
                    (shard in stopped <==> HostOf(table.members, shard) != Some(local))
        decreases |todo|
      {
        var shard :| shard in todo;
        todo := todo - {shard};
        var owner := table.OwnerOf(Bytes(shard.typeName), Bytes(shard.shardId));
        OneOwner(table.members, ScoringOf(Bytes(shard.typeName), Bytes(shard.shardId)), owner,
                 HostOf(table.members, shard));
        if owner != Some(local) {
          stopped := stopped + {shard};
        }
      }
    }
  }
}
