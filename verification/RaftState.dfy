/**
 What a Raft node keeps, and what each operation does to it (`src/cluster/store.rs`): the vote, a
 window of the log, the applied member set and the last snapshot. The consensus engine that calls
 these operations is not part of this model; what it promises its store is the precondition of the
 log operations, `Admits`.
 */
module RaftState {
  import opened Wrappers

  datatype Vote = Vote(term: nat, node: nat, committed: bool)

  predicate VoteLe(a: Option<Vote>, b: Option<Vote>) {
    a.None? || (b.Some? &&
      (a.value.term < b.value.term || (a.value.term == b.value.term &&
        (a.value.node < b.value.node || (a.value.node == b.value.node && (a.value.committed ==> b.value.committed))))))
  }

  /** A total order, so one of two votes is always the older and no two different ones are equally old. */
  lemma VotesAreInOneOrder(a: Option<Vote>, b: Option<Vote>, c: Option<Vote>)
    ensures VoteLe(a, b) || VoteLe(b, a)
    ensures VoteLe(a, b) && VoteLe(b, a) ==> a == b
    ensures VoteLe(a, b) && VoteLe(b, c) ==> VoteLe(a, c)
    ensures a.Some? && b.Some? && a.value.term < b.value.term ==> !VoteLe(b, a)
  {
    if a.Some? && b.Some? && VoteLe(a, b) && VoteLe(b, a) {
      assert a.value.term == b.value.term && a.value.node == b.value.node && a.value.committed == b.value.committed;
    }
  }

  datatype LogId = LogId(term: nat, node: nat, index: nat)

  /** A member set configuration, as the engine writes it. */
  type Config = seq<set<nat>>

  datatype StoredMembership = StoredMembership(id: Option<LogId>, config: Config)

  datatype EntryPayload = Blank | Membership(config: Config) | Normal(live: set<nat>)

  datatype Entry = Entry(id: LogId, payload: EntryPayload)

  /** The replicated state machine: how far it has got, and the two sets it holds. */
  datatype Machine = Machine(applied: Option<LogId>, membership: StoredMembership, live: set<nat>)

  /** The metadata the engine sees and the data the store wrote beside it. */
  datatype Snapshot = Snapshot(lastLogId: Option<LogId>, lastMembership: StoredMembership, data: Machine)

  datatype Persisted = Persisted(
    vote: Option<Vote>,
    entries: map<nat, Entry>,
    purged: Option<LogId>,
    committed: Option<LogId>,
    machine: Machine,
    snapshot: Option<Snapshot>
  )

  const EMPTY := Persisted(None, map[], None, None, Machine(None, StoredMembership(None, []), {}), None)

  // ---- The log --------------------------------------------------------------------------------------

  function Inserted(entries: map<nat, Entry>, added: seq<Entry>): map<nat, Entry> {
    if added == [] then entries
    else Inserted(entries, added[..|added| - 1])[added[|added| - 1].id.index := added[|added| - 1]]
  }

  function Below(entries: map<nat, Entry>, from: nat): map<nat, Entry> {
    map i | i in entries && i < from :: entries[i]
  }

  function Above(entries: map<nat, Entry>, index: nat): map<nat, Entry> {
    map i | i in entries && i > index :: entries[i]
  }

  datatype LogOp =
    | Append(added: seq<Entry>)
    | TruncateAfter(last: Option<LogId>)
    | Purge(upTo: LogId)

  function Logged(s: Persisted, op: LogOp): Persisted {
    match op
    case Append(added) => s.(entries := Inserted(s.entries, added))
    case TruncateAfter(last) => s.(entries := Below(s.entries, if last.None? then 0 else last.value.index + 1))
    case Purge(upTo) => s.(entries := Above(s.entries, upTo.index), purged := Some(upTo))
  }

  /** The same log without keys: what was last purged, where the rest starts, and the rest in order. */
  datatype Window = Window(purged: Option<LogId>, start: nat, items: seq<Entry>)

  function End(log: Window): nat {
    log.start + |log.items|
  }

  predicate Consecutive(added: seq<Entry>, start: nat) {
    forall k :: 0 <= k < |added| ==> added[k].id.index == start + k
  }

  /** The engine appends where the log ends and never purges backwards. */
  predicate Admits(log: Window, op: LogOp) {
    match op
    case Append(added) => Consecutive(added, End(log))
    case TruncateAfter(_) => true
    case Purge(upTo) => log.start <= upTo.index + 1
  }

  function Clamp(n: int, most: nat): (r: nat)
    ensures r <= most
  {
    if n < 0 then 0 else if n > most then most else n
  }

  function Step(log: Window, op: LogOp): Window {
    match op
    case Append(added) => log.(items := log.items + added)
    case TruncateAfter(last) =>
      var from := if last.None? then 0 else last.value.index + 1;
      log.(items := log.items[..Clamp(from - log.start, |log.items|)])
    case Purge(upTo) =>
      Window(Some(upTo), upTo.index + 1, log.items[Clamp(upTo.index + 1 - log.start, |log.items|)..])
  }

  predicate Slot(entries: map<nat, Entry>, log: Window, i: nat) {
    && (i in entries <==> log.start <= i < End(log))
    && (i in entries && log.start <= i < End(log) ==>
          entries[i] == log.items[i - log.start] && entries[i].id.index == i)
  }

  /** The keyed entries are exactly this contiguous window, and the purged id ends where it starts. */
  ghost predicate Represents(s: Persisted, log: Window) {
    && (forall i :: Slot(s.entries, log, i))
    && s.purged == log.purged
    && (s.purged.Some? ==> s.purged.value.index + 1 == log.start)
  }

  lemma {:induction false} InsertedSlot(s: Persisted, log: Window, added: seq<Entry>, i: nat)
    requires Represents(s, log) && Consecutive(added, End(log))
    ensures Slot(Inserted(s.entries, added), log.(items := log.items + added), i)
  {
    assert Slot(s.entries, log, i);
    if added != [] {
      var front := added[..|added| - 1];
      InsertedSlot(s, log, front, i);
      assert log.items + added == (log.items + front) + [added[|added| - 1]];
    }
  }

  lemma StepSlot(s: Persisted, log: Window, op: LogOp, i: nat)
    requires Represents(s, log) && Admits(log, op)
    ensures Slot(Logged(s, op).entries, Step(log, op), i)
  {
    match op
    case Append(added) => InsertedSlot(s, log, added, i);
    case _ => assert Slot(s.entries, log, i);
  }

  /** Keyed inserts and retains do to the map what appending and slicing do to the window. */
  lemma StepRefines(s: Persisted, log: Window, op: LogOp)
    requires Represents(s, log) && Admits(log, op)
    ensures Represents(Logged(s, op), Step(log, op))
  {
    forall i
      ensures Slot(Logged(s, op).entries, Step(log, op), i)
    {
      StepSlot(s, log, op, i);
    }
  }

  function RunLog(s: Persisted, ops: seq<LogOp>): Persisted {
    if ops == [] then s else Logged(RunLog(s, ops[..|ops| - 1]), ops[|ops| - 1])
  }

  function RunWindow(log: Window, ops: seq<LogOp>): Window {
    if ops == [] then log else Step(RunWindow(log, ops[..|ops| - 1]), ops[|ops| - 1])
  }

  predicate AdmitsAll(log: Window, ops: seq<LogOp>) {
    forall k :: 0 <= k < |ops| ==> Admits(RunWindow(log, ops[..k]), ops[k])
  }

  /** Under consecutive appends, truncations and purges the store is one contiguous window throughout. */
  lemma {:induction false} TheLogStaysOneWindow(s: Persisted, log: Window, ops: seq<LogOp>)
    requires Represents(s, log) && AdmitsAll(log, ops)
    ensures Represents(RunLog(s, ops), RunWindow(log, ops))
  {
    if ops != [] {
      var front := ops[..|ops| - 1];
      forall k | 0 <= k < |front|
        ensures Admits(RunWindow(log, front[..k]), front[k])
      {
        assert front[..k] == ops[..k];
      }
      TheLogStaysOneWindow(s, log, front);
      StepRefines(RunLog(s, front), RunWindow(log, front), ops[|ops| - 1]);
    }
  }

  predicate IsLast(entries: map<nat, Entry>, i: nat) {
    i in entries && forall j :: j in entries ==> j <= i
  }

  /** What `get_log_state` reports as the last log id: the highest entry's, or else the purged one. */
  ghost predicate Reports(s: Persisted, last: Option<LogId>) {
    if s.entries == map[] then last == s.purged
    else exists i :: IsLast(s.entries, i) && last == Some(s.entries[i].id)
  }

  /** That id is where the window ends: the next append goes right after it. */
  lemma TheReportIsTheEnd(s: Persisted, log: Window, last: Option<LogId>)
    requires Represents(s, log) && Reports(s, last)
    ensures last.Some? ==> last.value.index + 1 == End(log)
    ensures last.None? ==> log.items == [] && log.purged.None?
    ensures log.items != [] ==> last == Some(log.items[|log.items| - 1].id)
  {
    assert log.items != [] ==> Slot(s.entries, log, End(log) - 1);
    if s.entries != map[] {
      var i :| IsLast(s.entries, i) && last == Some(s.entries[i].id);
      assert Slot(s.entries, log, i);
    }
  }

  // ---- The state machine ----------------------------------------------------------------------------

  function Applied(m: Machine, entry: Entry): Machine {
    var next := m.(applied := Some(entry.id));
    match entry.payload
    case Blank => next
    case Membership(config) => next.(membership := StoredMembership(Some(entry.id), config))
    case Normal(live) => next.(live := live)
  }

  function AppliedAll(m: Machine, entries: seq<Entry>): Machine {
    if entries == [] then m
    else Applied(AppliedAll(m, entries[..|entries| - 1]), entries[|entries| - 1])
  }

  function Built(s: Persisted): Snapshot {
    Snapshot(s.machine.applied, s.machine.membership, s.machine)
  }

  function Installed(s: Persisted, snapshot: Snapshot): Persisted {
    s.(machine := snapshot.data, snapshot := Some(snapshot))
  }

  lemma {:induction false} AppliedInTwo(m: Machine, a: seq<Entry>, b: seq<Entry>)
    ensures AppliedAll(m, a + b) == AppliedAll(AppliedAll(m, a), b)
  {
    if b == [] {
      assert a + b == a;
    } else {
      assert (a + b)[..|a + b| - 1] == a + b[..|b| - 1];
      AppliedInTwo(m, a, b[..|b| - 1]);
    }
  }

  /**
   A snapshot taken after the first k entries, installed on any other store and followed by the rest,
   gives the applied id, membership and live set that applying all of them gives.
   */
  lemma SnapshotThenTheRestIsTheWhole(s: Persisted, other: Persisted, entries: seq<Entry>, k: nat)
    requires k <= |entries|
    ensures var taken := Built(s.(machine := AppliedAll(s.machine, entries[..k])));
            && AppliedAll(Installed(other, taken).machine, entries[k..]) == AppliedAll(s.machine, entries)
            && (k > 0 ==> taken.lastLogId == Some(entries[k - 1].id))
  {
    assert entries[..k] + entries[k..] == entries;
    AppliedInTwo(s.machine, entries[..k], entries[k..]);
  }

  /** The last entry of its kind decides, whatever was applied around it. */
  lemma {:induction false} TheLatestEntriesDecide(m: Machine, entries: seq<Entry>, k: nat)
    requires k < |entries|
    ensures entries[k].payload.Normal? && (forall j :: k < j < |entries| ==> !entries[j].payload.Normal?) ==>
              AppliedAll(m, entries).live == entries[k].payload.live
    ensures entries[k].payload.Membership? && (forall j :: k < j < |entries| ==> !entries[j].payload.Membership?) ==>
              AppliedAll(m, entries).membership == StoredMembership(Some(entries[k].id), entries[k].payload.config)
    ensures AppliedAll(m, entries).applied == Some(entries[|entries| - 1].id)
  {
    if k < |entries| - 1 {
      TheLatestEntriesDecide(m, entries[..|entries| - 1], k);
    }
  }

  /** And a set no entry names stays what it was. */
  lemma {:induction false} WhatNoEntryNamesStays(m: Machine, entries: seq<Entry>)
    ensures (forall j :: 0 <= j < |entries| ==> !entries[j].payload.Normal?) ==> AppliedAll(m, entries).live == m.live
    ensures (forall j :: 0 <= j < |entries| ==> !entries[j].payload.Membership?) ==>
              AppliedAll(m, entries).membership == m.membership
    ensures entries == [] ==> AppliedAll(m, entries) == m
  {
    if entries != [] {
      WhatNoEntryNamesStays(m, entries[..|entries| - 1]);
    }
  }

  // ---- Building a snapshot is two lock sections ---------------------------------------------------------

  /** How far along a log id is; nothing is before everything. */
  function Mark(id: Option<LogId>): nat {
    if id.None? then 0 else id.value.index + 1
  }

  function KeptAt(s: Persisted): nat {
    if s.snapshot.None? then 0 else Mark(s.snapshot.value.lastLogId)
  }

  function AppliedAt(s: Persisted): nat {
    Mark(s.machine.applied)
  }

  /** What can land between taking a snapshot and storing it. */
  datatype Meanwhile = Applies(entry: Entry) | Installs(snapshot: Snapshot) | Stores(taken: Snapshot)

  function Stored(s: Persisted, taken: Snapshot): Persisted {
    s.(snapshot := Some(taken))
  }

  function Landed(s: Persisted, op: Meanwhile): Persisted {
    match op
    case Applies(entry) => s.(machine := Applied(s.machine, entry))
    case Installs(snapshot) => Installed(s, snapshot)
    case Stores(taken) => Stored(s, taken)
  }

  function LandedAll(s: Persisted, ops: seq<Meanwhile>): Persisted {
    if ops == [] then s else Landed(LandedAll(s, ops[..|ops| - 1]), ops[|ops| - 1])
  }

  /** The snapshot kept last among these, if any was. */
  function LastKept(ops: seq<Meanwhile>): Option<nat> {
    if ops == [] then None
    else
      match ops[|ops| - 1]
      case Applies(_) => LastKept(ops[..|ops| - 1])
      case Installs(snapshot) => Some(Mark(snapshot.lastLogId))
      case Stores(taken) => Some(Mark(taken.lastLogId))
  }

  lemma {:induction false} KeptAfter(s: Persisted, ops: seq<Meanwhile>)
    ensures KeptAt(LandedAll(s, ops)) == if LastKept(ops).Some? then LastKept(ops).value else KeptAt(s)
  {
    if ops != [] {
      KeptAfter(s, ops[..|ops| - 1]);
    }
  }

  /** The engine applies and installs forwards, and a stored snapshot was taken of something applied. */
  predicate Forward(s: Persisted, op: Meanwhile) {
    match op
    case Applies(entry) => AppliedAt(s) <= entry.id.index + 1
    case Installs(snapshot) => snapshot.data.applied == snapshot.lastLogId && AppliedAt(s) <= Mark(snapshot.lastLogId)
    case Stores(taken) => Mark(taken.lastLogId) <= AppliedAt(s)
  }

  predicate ForwardAll(s: Persisted, ops: seq<Meanwhile>) {
    forall k :: 0 <= k < |ops| ==> Forward(LandedAll(s, ops[..k]), ops[k])
  }

  /** The kept snapshot is never ahead of what is applied. */
  lemma {:induction false} KeptIsNeverAhead(s: Persisted, ops: seq<Meanwhile>)
    requires KeptAt(s) <= AppliedAt(s) && ForwardAll(s, ops)
    ensures KeptAt(LandedAll(s, ops)) <= AppliedAt(LandedAll(s, ops))
    ensures AppliedAt(s) <= AppliedAt(LandedAll(s, ops))
  {
    if ops != [] {
      var front := ops[..|ops| - 1];
      forall k | 0 <= k < |front|
        ensures Forward(LandedAll(s, front[..k]), front[k])
      {
        assert front[..k] == ops[..k];
      }
      KeptIsNeverAhead(s, front);
      assert Forward(LandedAll(s, front), ops[|ops| - 1]);
    }
  }

  /**
   Storing a snapshot moves the kept one backwards if and only if, since it was taken, one was installed or
   stored and the last of those is of a later log id than was applied at the taking.
   */
  lemma AStoreMovesBackwardsIffALaterOneWasKept(s: Persisted, ops: seq<Meanwhile>)
    requires KeptAt(s) <= AppliedAt(s)
    ensures var before := LandedAll(s, ops);
            KeptAt(Stored(before, Built(s))) < KeptAt(before) <==>
            LastKept(ops).Some? && AppliedAt(s) < LastKept(ops).value
  {
    KeptAfter(s, ops);
  }

  /** Everything purged from the log is in the kept snapshot. */
  predicate Covered(s: Persisted) {
    s.purged.Some? ==> Mark(s.purged) <= KeptAt(s)
  }

  /** Such a store can leave entries that are neither in the snapshot nor in the log. */
  lemma ALateStoreCanUncoverTheLog()
    returns (s: Persisted, installed: Snapshot, purged: Persisted)
    ensures KeptAt(s) <= AppliedAt(s) && Covered(s) && Forward(s, Installs(installed))
    ensures installed.lastLogId.Some?
    ensures purged == Logged(Landed(s, Installs(installed)), Purge(installed.lastLogId.value)) && Covered(purged)
    ensures !Covered(Stored(purged, Built(s)))
  {
    var five, ten := LogId(1, 1, 5), LogId(1, 1, 10);
    s := EMPTY.(machine := EMPTY.machine.(applied := Some(five)));
    installed := Snapshot(Some(ten), s.machine.membership, s.machine.(applied := Some(ten)));
    purged := Logged(Landed(s, Installs(installed)), Purge(ten));
  }

  // ---- Each call and its own part ---------------------------------------------------------------------------

  /** What the engine calls on the store, one update each. */
  datatype Call =
    | Log(op: LogOp)
    | SaveVote(vote: Vote)
    | SaveCommitted(committed: Option<LogId>)
    | ApplyOne(entry: Entry)
    | StoreSnapshot(taken: Snapshot)
    | InstallSnapshot(snapshot: Snapshot)

  function Called(s: Persisted, call: Call): Persisted {
    match call
    case Log(op) => Logged(s, op)
    case SaveVote(vote) => s.(vote := Some(vote))
    case SaveCommitted(committed) => s.(committed := committed)
    case ApplyOne(entry) => s.(machine := Applied(s.machine, entry))
    case StoreSnapshot(taken) => Stored(s, taken)
    case InstallSnapshot(snapshot) => Installed(s, snapshot)
  }

  function CalledAll(s: Persisted, calls: seq<Call>): Persisted {
    if calls == [] then s else Called(CalledAll(s, calls[..|calls| - 1]), calls[|calls| - 1])
  }

  /** The argument of the last `save_vote` among these, or what was there before. */
  function LastVote(before: Option<Vote>, calls: seq<Call>): Option<Vote> {
    if calls == [] then before
    else if calls[|calls| - 1].SaveVote? then Some(calls[|calls| - 1].vote)
    else LastVote(before, calls[..|calls| - 1])
  }

  function LastCommitted(before: Option<LogId>, calls: seq<Call>): Option<LogId> {
    if calls == [] then before
    else if calls[|calls| - 1].SaveCommitted? then calls[|calls| - 1].committed
    else LastCommitted(before, calls[..|calls| - 1])
  }

  predicate NoneIs(calls: seq<Call>, kind: Call -> bool) {
    forall k :: 0 <= k < |calls| ==> !kind(calls[k])
  }

  /**
   Over any calls: the vote is the last one saved and the committed id the last one saved; the applied state
   changes only by applying and installing, the snapshot only by storing and installing, and the log only by
   its own operations.
   */
  lemma {:induction false} EachPartHasItsOwnCalls(s: Persisted, calls: seq<Call>)
    ensures var after := CalledAll(s, calls);
            && after.vote == LastVote(s.vote, calls)
            && after.committed == LastCommitted(s.committed, calls)
            && (NoneIs(calls, (c: Call) => c.ApplyOne? || c.InstallSnapshot?) ==> after.machine == s.machine)
            && (NoneIs(calls, (c: Call) => c.StoreSnapshot? || c.InstallSnapshot?) ==> after.snapshot == s.snapshot)
            && (NoneIs(calls, (c: Call) => c.Log?) ==> after.entries == s.entries && after.purged == s.purged)
  {
    if calls != [] {
      var front := calls[..|calls| - 1];
      EachPartHasItsOwnCalls(s, front);
      assert forall k :: 0 <= k < |front| ==> front[k] == calls[k];
    }
  }

  function LogOps(calls: seq<Call>): seq<LogOp> {
    if calls == [] then []
    else
      var front := LogOps(calls[..|calls| - 1]);
      if calls[|calls| - 1].Log? then front + [calls[|calls| - 1].op] else front
  }

  lemma RunLogOneMore(s: Persisted, ops: seq<LogOp>, op: LogOp)
    ensures RunLog(s, ops + [op]) == Logged(RunLog(s, ops), op)
  {
    assert (ops + [op])[..|ops|] == ops;
  }

  /** The log a run of calls leaves is the log its log operations alone leave. */
  lemma {:induction false} TheLogIsItsOperations(s: Persisted, calls: seq<Call>)
    ensures var after, log := CalledAll(s, calls), RunLog(s, LogOps(calls));
            after.entries == log.entries && after.purged == log.purged
  {
    if calls != [] {
      var front := calls[..|calls| - 1];
      TheLogIsItsOperations(s, front);
      if calls[|calls| - 1].Log? {
        RunLogOneMore(s, LogOps(front), calls[|calls| - 1].op);
      }
    }
  }
}
