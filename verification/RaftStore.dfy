/**
 The store itself (`RaftStore` in `src/cluster/store.rs`): one state in memory, written out whole after
 every change. A `Fault` says where, if anywhere, the file system fails the write.
 */
module RaftStore {
  import opened Wrappers
  import opened Ordered
  import opened RaftState
  import opened RaftDisk

  datatype Fault = NoFault | AtEncode | AtCreate | AtFill | AtSync | AtRename

  datatype IoError = IoError(at: Fault) | Undecodable | StreamFailed

  datatype OpenFailure = Unreadable | Corrupt

  class Files {
    var disk: Disk

    constructor ()
      ensures disk == BLANK
    {
      disk := BLANK;
    }
  }

  /** What a flush leaves on disk, wherever it fails. */
  function Flushed(d: Disk, state: Persisted, fault: Fault): Disk {
    match fault
    case AtEncode => d
    case AtCreate => d
    case AtFill => Created(d)
    case AtSync => Filled(d, state)
    case AtRename => Synced(Filled(d, state))
    case NoFault => Renamed(Synced(Filled(d, state)), true)
  }

  /** Only a flush with no fault moves the file, and then to exactly this state. */
  lemma OnlyACleanFlushMovesTheFile(d: Disk, state: Persisted, fault: Fault)
    ensures fault == NoFault ==> Flushed(d, state, fault).main == Whole(state, true)
    ensures fault != NoFault ==> Flushed(d, state, fault).main == d.main && Flushed(d, state, fault).kept == d.kept
  {
  }

  // An update of the store is these steps of a run.

  function FlushSteps(fault: Fault): seq<Action> {
    match fault
    case AtEncode => [Fail]
    case AtCreate => [Fail]
    case AtFill => [Create, Fail]
    case AtSync => [Create, Fill, Fail]
    case AtRename => [Create, Fill, Sync, Fail]
    case NoFault => [Create, Fill, Sync, Rename(true)]
  }

  /** Each step can be taken where the one before it left off, and the last one leads to `w'`. */
  predicate Leads(w: World, actions: seq<Action>, w': World)
    decreases |actions|
  {
    if actions == [] then w == w'
    else w.history != [] && Enabled(w, actions[0]) && Leads(Do(w, actions[0]), actions[1..], w')
  }

  lemma LeadsFirst(w: World, action: Action, rest: seq<Action>, w': World)
    requires w.history != [] && Enabled(w, action) && Leads(Do(w, action), rest, w')
    ensures Leads(w, [action] + rest, w')
  {
    assert ([action] + rest)[1..] == rest;
  }

  /** Memory takes the new state whether or not it reaches the disk; only a clean flush acknowledges it. */
  function Updated(w: World, state: Persisted, fault: Fault): World {
    var history := w.history + [state];
    w.(disk := Flushed(w.disk, state, fault), history := history,
       acked := if fault == NoFault then |history| - 1 else w.acked,
       stored := if fault == NoFault then |history| - 1 else w.stored)
  }

  /** From `Changed`, the flush runs to its end or to its fault. */
  lemma FlushLeads(w: World, state: Persisted, fault: Fault)
    requires w.history != [] && w.stage == Idle
    ensures Leads(Do(w, Update(state)), FlushSteps(fault), Updated(w, state, fault))
  {
    var w1 := Do(w, Update(state));
    var w2 := Do(w1, Create);
    var w3 := Do(w2, Fill);
    var w4 := Do(w3, Sync);
    var end := Updated(w, state, fault);
    match fault
    case AtEncode => LeadsFirst(w1, Fail, [], end);
    case AtCreate => LeadsFirst(w1, Fail, [], end);
    case AtFill =>
      LeadsFirst(w2, Fail, [], end);
      LeadsFirst(w1, Create, [Fail], end);
    case AtSync =>
      LeadsFirst(w3, Fail, [], end);
      LeadsFirst(w2, Fill, [Fail], end);
      LeadsFirst(w1, Create, [Fill, Fail], end);
    case AtRename =>
      LeadsFirst(w4, Fail, [], end);
      LeadsFirst(w3, Sync, [Fail], end);
      LeadsFirst(w2, Fill, [Sync, Fail], end);
      LeadsFirst(w1, Create, [Fill, Sync, Fail], end);
    case NoFault =>
      LeadsFirst(w4, Rename(true), [], end);
      LeadsFirst(w3, Sync, [Rename(true)], end);
      LeadsFirst(w2, Fill, [Sync, Rename(true)], end);
      LeadsFirst(w1, Create, [Fill, Sync, Rename(true)], end);
  }

  /** So every call on the store, clean or failed, is a stretch of a run, and what runs keep it keeps. */
  lemma AnUpdateIsARun(w: World, state: Persisted, fault: Fault)
    requires w.history != [] && w.stage == Idle
    ensures Leads(w, [Update(state)] + FlushSteps(fault), Updated(w, state, fault))
  {
    FlushLeads(w, state, fault);
    LeadsFirst(w, Update(state), FlushSteps(fault), Updated(w, state, fault));
  }

  // ---- Votes, from the arguments of `save_vote` alone -------------------------------------------------------

  /** A run of the disk in which every change of memory is one call on the store. */
  ghost predicate IsCallRun(worlds: seq<World>, actions: seq<Action>, calls: seq<Call>) {
    && IsRun(worlds, actions) && |calls| == |actions|
    && forall k :: 0 <= k < |actions| && actions[k].Update? ==>
         actions[k].state == Called(Memory(worlds[k]), calls[k])
  }

  /** The engine never saves a vote below the one the store holds. */
  ghost predicate SavesRise(worlds: seq<World>, actions: seq<Action>, calls: seq<Call>)
    requires IsCallRun(worlds, actions, calls)
  {
    forall k :: 0 <= k < |actions| && actions[k].Update? && calls[k].SaveVote? ==>
      VoteLe(Memory(worlds[k]).vote, Some(calls[k].vote))
  }

  lemma VoteLeItself(v: Option<Vote>)
    ensures VoteLe(v, v)
  {
  }

  lemma ACallKeepsTheVote(s: Persisted, call: Call)
    requires call.SaveVote? ==> VoteLe(s.vote, Some(call.vote))
    ensures VoteLe(s.vote, Called(s, call).vote)
  {
    VoteLeItself(s.vote);
    EachPartHasItsOwnCalls(s, [call]);
    assert [call][..0] == [];
    assert CalledAll(s, [call]) == Called(CalledAll(s, []), call);
    assert LastVote(s.vote, [call]) == if call.SaveVote? then Some(call.vote) else LastVote(s.vote, []);
  }

  /** If no saved vote is below the one held, then no call of any kind lowers it. */
  lemma VotesRiseIfSavesDo(worlds: seq<World>, actions: seq<Action>, calls: seq<Call>)
    requires IsCallRun(worlds, actions, calls) && SavesRise(worlds, actions, calls)
    ensures VotesRise(worlds, actions)
  {
    forall k | 0 <= k < |actions| && actions[k].Update?
      ensures VoteLe(Memory(worlds[k]).vote, actions[k].state.vote)
    {
      ACallKeepsTheVote(Memory(worlds[k]), calls[k]);
    }
  }

  /** So, whatever is called and wherever it crashes, no later memory holds a vote older than one acknowledged. */
  lemma TheStoreNeverForgetsAnAcknowledgedVote(
      worlds: seq<World>, actions: seq<Action>, calls: seq<Call>, j: nat, k: nat)
    requires IsCallRun(worlds, actions, calls) && SavesRise(worlds, actions, calls) && RenamesLast(actions)
    requires j <= k < |worlds|
    ensures worlds[j].acked < |worlds[j].history| && worlds[k].history != []
    ensures VoteLe(AckedVote(worlds[j]), Memory(worlds[k]).vote)
  {
    VotesRiseIfSavesDo(worlds, actions, calls);
    AnAcknowledgedVoteIsNeverReplacedByAnOlder(worlds, actions, j, k);
  }

  class RaftStore {
    var state: Persisted
    const files: Files

    constructor (state: Persisted, files: Files)
      ensures this.state == state && this.files == files
    {
      this.state, this.files := state, files;
    }

    /** What is there, or empty; never a fresh start over a file that does not decode. */
    static method Open(files: Files, readable: bool) returns (r: Result<RaftStore, OpenFailure>)
      ensures files.disk.main != Absent && !readable ==> r == Err(Unreadable)
      ensures files.disk.main == Torn && readable ==> r == Err(Corrupt)
      ensures r.Ok? <==> files.disk.main == Absent || (readable && files.disk.main != Torn)
      ensures r.Ok? ==> fresh(r.value) && r.value.files == files && Opened(files.disk.main) == Ok(r.value.state)
    {
      if files.disk.main != Absent && !readable {
        return Err(Unreadable);
      }
      match files.disk.main
      case Absent =>
        var store := new RaftStore(EMPTY, files);
        r := Ok(store);
      case Torn => r := Err(Corrupt);
      case Whole(state, _) =>
        var store := new RaftStore(state, files);
        r := Ok(store);
    }

    method Flush(fault: Fault) returns (r: Result<(), IoError>)
      modifies files
      ensures files.disk == Flushed(old(files.disk), state, fault)
      ensures r == if fault == NoFault then Ok(()) else Err(IoError(fault))
    {
      if fault == AtEncode || fault == AtCreate {
        return Err(IoError(fault));
      }
      files.disk := files.disk.(tmp := Torn);
      if fault == AtFill {
        return Err(IoError(fault));
      }
      files.disk := files.disk.(tmp := Whole(state, false));
      if fault == AtSync {
        return Err(IoError(fault));
      }
      files.disk := files.disk.(tmp := Whole(state, true));
      if fault == AtRename {
        return Err(IoError(fault));
      }
      files.disk := Disk(files.disk.tmp, Absent, files.disk.tmp);
      r := Ok(());
    }

    method SaveVote(vote: Vote, fault: Fault) returns (r: Result<(), IoError>)
      modifies this`state, files
      ensures state == Called(old(state), Call.SaveVote(vote))
      ensures state == old(state).(vote := Some(vote)) && files.disk == Flushed(old(files.disk), state, fault)
      ensures r == if fault == NoFault then Ok(()) else Err(IoError(fault))
    {
      state := state.(vote := Some(vote));
      r := Flush(fault);
    }

    method SaveCommitted(committed: Option<LogId>, fault: Fault) returns (r: Result<(), IoError>)
      modifies this`state, files
      ensures state == Called(old(state), Call.SaveCommitted(committed))
      ensures state == old(state).(committed := committed) && files.disk == Flushed(old(files.disk), state, fault)
      ensures r == if fault == NoFault then Ok(()) else Err(IoError(fault))
    {
      state := state.(committed := committed);
      r := Flush(fault);
    }

    /** `signalled` is the append callback: only after the write is on disk. */
    method Append(added: seq<Entry>, fault: Fault) returns (r: Result<(), IoError>, signalled: bool)
      modifies this`state, files
      ensures state == Called(old(state), Log(LogOp.Append(added))) && files.disk == Flushed(old(files.disk), state, fault)
      ensures r == if fault == NoFault then Ok(()) else Err(IoError(fault))
      ensures signalled ==> files.disk.main == Whole(state, true)
      ensures signalled <==> r.Ok?
    {
      signalled := false;
      var entries := state.entries;
      for k := 0 to |added|
        invariant entries == Inserted(state.entries, added[..k])
      {
        assert added[..k + 1][..k] == added[..k];
        entries := entries[added[k].id.index := added[k]];
      }
      assert added[..|added|] == added;
      state := state.(entries := entries);
      r := Flush(fault);
      if r.Ok? {
        signalled := true;
      }
    }

    method TruncateAfter(last: Option<LogId>, fault: Fault) returns (r: Result<(), IoError>)
      modifies this`state, files
      ensures state == Called(old(state), Log(LogOp.TruncateAfter(last)))
      ensures files.disk == Flushed(old(files.disk), state, fault)
      ensures r == if fault == NoFault then Ok(()) else Err(IoError(fault))
    {
      var from := if last.Some? then last.value.index + 1 else 0;
      state := state.(entries := map i | i in state.entries && i < from :: state.entries[i]);
      r := Flush(fault);
    }

    method Purge(upTo: LogId, fault: Fault) returns (r: Result<(), IoError>)
      modifies this`state, files
      ensures state == Called(old(state), Log(LogOp.Purge(upTo)))
      ensures state == old(state).(entries := state.entries, purged := Some(upTo)) && files.disk == Flushed(old(files.disk), state, fault)
      ensures r == if fault == NoFault then Ok(()) else Err(IoError(fault))
    {
      state := state.(entries := map i | i in state.entries && i > upTo.index :: state.entries[i], purged := Some(upTo));
      r := Flush(fault);
    }

    /** The highest entry's id, or the purged one when there is none. */
    method GetLogState() returns (purged: Option<LogId>, last: Option<LogId>)
      ensures purged == state.purged && Reports(state, last)
    {
      purged := state.purged;
      if state.entries == map[] {
        last := state.purged;
      } else {
        LastExists(state.entries);
        var i :| i in state.entries && forall j :: j in state.entries ==> j <= i;
        assert IsLast(state.entries, i);
        last := Some(state.entries[i].id);
      }
    }

    /** The applied state under the lock; the lock is let go before the snapshot is stored. */
    method TakeSnapshot() returns (taken: Snapshot)
      ensures taken == Built(state)
    {
      var machine := state.machine;
      taken := Snapshot(machine.applied, machine.membership, machine);
    }

    /** The snapshot taken earlier is stored, whatever was applied in between; nothing else changes. */
    method StoreSnapshot(taken: Snapshot, fault: Fault) returns (r: Result<Snapshot, IoError>)
      modifies this`state, files
      ensures state == Called(old(state), Call.StoreSnapshot(taken))
      ensures files.disk == Flushed(old(files.disk), state, fault)
      ensures r == if fault == NoFault then Ok(taken) else Err(IoError(fault))
    {
      state := state.(snapshot := Some(taken));
      var flushed := Flush(fault);
      r := if flushed.Ok? then Ok(taken) else Err(flushed.error);
    }

    /** A snapshot that does not decode is refused before anything changes. */
    method InstallSnapshot(snapshot: Snapshot, decodes: bool, fault: Fault) returns (r: Result<(), IoError>)
      modifies this`state, files
      ensures !decodes ==> r == Err(Undecodable) && state == old(state) && files.disk == old(files.disk)
      ensures decodes ==> state == Called(old(state), Call.InstallSnapshot(snapshot)) && files.disk == Flushed(old(files.disk), state, fault)
      ensures decodes ==> r == if fault == NoFault then Ok(()) else Err(IoError(fault))
    {
      if !decodes {
        return Err(Undecodable);
      }
      state := state.(machine := snapshot.data, snapshot := Some(snapshot));
      r := Flush(fault);
    }

    /**
     One entry at a time, each flushed and then answered before the next. Stops at the first item the
     stream fails to give, or at the first failed flush, and then with memory one entry ahead of the disk.
     */
    method Apply(items: seq<Item>, faults: seq<Fault>) returns (r: Result<(), IoError>, applied: nat, answered: seq<LogId>)
      requires |faults| == |items|
      modifies this`state, files
      ensures applied <= |items| && Gives(items[..applied])
      ensures state == old(state).(machine := AppliedAll(old(state).machine, Entries(items[..applied])))
      ensures r.Ok? ==> applied == |items| && forall k :: 0 <= k < applied ==> faults[k] == NoFault
      ensures r == Err(StreamFailed) ==>
                applied < |items| && items[applied].Failed? && forall k :: 0 <= k < applied ==> faults[k] == NoFault
      ensures r.Err? && r != Err(StreamFailed) ==>
                applied > 0 && r == Err(IoError(faults[applied - 1])) && faults[applied - 1] != NoFault &&
                forall k :: 0 <= k < applied - 1 ==> faults[k] == NoFault
      ensures var durable := if r.Ok? || r == Err(StreamFailed) then applied else applied - 1;
              && answered == Answered(items[..durable])
              && if durable == 0 then files.disk.main == old(files.disk.main)
                 else files.disk.main ==
                      Whole(old(state).(machine := AppliedAll(old(state).machine, Entries(items[..durable]))), true)
    {
      applied, answered := 0, [];
      while applied < |items|
        invariant applied <= |items| && Gives(items[..applied])
        invariant state == old(state).(machine := AppliedAll(old(state).machine, Entries(items[..applied])))
        invariant forall k :: 0 <= k < applied ==> faults[k] == NoFault
        invariant files.disk.main == if applied == 0 then old(files.disk.main) else Whole(state, true)
        invariant answered == Answered(items[..applied])
      {
        if items[applied].Failed? {
          return Err(StreamFailed), applied, answered;
        }
        var entry := items[applied].entry;
        var machine := state.machine.(applied := Some(entry.id));
        match entry.payload {
          case Membership(config) => machine := machine.(membership := StoredMembership(Some(entry.id), config));
          case Normal(live) => machine := machine.(live := live);
          case Blank =>
        }
        OneMoreItem(items, applied);
        state := state.(machine := machine);
        applied := applied + 1;
        var flushed := Flush(faults[applied - 1]);
        if flushed.Err? {
          return Err(flushed.error), applied, answered;
        }
        if items[applied - 1].awaited {
          answered := answered + [entry.id];
        }
      }
      r := Ok(());
    }
  }

  /** What the stream of committed entries gives: an entry, perhaps with somebody waiting for it, or an error. */
  datatype Item = Item(entry: Entry, awaited: bool) | Failed

  predicate Gives(items: seq<Item>) {
    forall k :: 0 <= k < |items| ==> items[k].Item?
  }

  function Entries(items: seq<Item>): seq<Entry>
    requires Gives(items)
  {
    seq(|items|, i requires 0 <= i < |items| => items[i].entry)
  }

  /** The ids whose responders are signalled, in order. */
  function Answered(items: seq<Item>): seq<LogId>
    requires Gives(items)
  {
    if items == [] then []
    else
      var last := items[|items| - 1];
      Answered(items[..|items| - 1]) + (if last.awaited then [last.entry.id] else [])
  }

  lemma OneMoreItem(items: seq<Item>, n: nat)
    requires n < |items| && Gives(items[..n]) && items[n].Item?
    ensures Gives(items[..n + 1]) && Entries(items[..n + 1]) == Entries(items[..n]) + [items[n].entry]
    ensures Entries(items[..n + 1])[..n] == Entries(items[..n])
    ensures items[..n + 1][..n] == items[..n]
  {
    assert items[..n + 1] == items[..n] + [items[n]];
  }

  lemma {:induction false} LastExists(entries: map<nat, Entry>)
    requires entries != map[]
    ensures exists i :: IsLast(entries, i)
    decreases |entries|
  {
    var i :| i in entries;
    if !IsLast(entries, i) {
      var j :| j in entries && j > i;
      var rest := Above(entries, i);
      assert i !in rest && j in rest;
      SubsetIsSmaller(rest.Keys, entries.Keys);
      LastExists(rest);
      var last :| IsLast(rest, last);
      assert forall k :: k in entries && k > i ==> k in rest;
      assert IsLast(entries, last);
    }
  }
}
