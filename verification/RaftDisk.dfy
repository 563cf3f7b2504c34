/**
 Crash safety of the Raft store (`open`, `flush` and `update` in `src/cluster/store.rs`): write a
 sibling, sync it, rename it over the file. A run interleaves the steps of any number of updates with
 failures and crashes at any point; the memory state after every update is kept as a history beside it.

 The JSON codec is taken to round-trip, so a file is the value it decodes to, or torn.
 */
module RaftDisk {
  import opened Wrappers
  import opened RaftState

  datatype File = Absent | Torn | Whole(state: Persisted, synced: bool)

  /** The file, its sibling, and what the file's name would mean after a crash. */
  datatype Disk = Disk(main: File, tmp: File, kept: File)

  const BLANK := Disk(Absent, Absent, Absent)

  function Created(d: Disk): Disk {
    d.(tmp := Torn)
  }

  function Filled(d: Disk, state: Persisted): Disk {
    d.(tmp := Whole(state, false))
  }

  function Synced(d: Disk): Disk {
    match d.tmp
    case Whole(state, _) => d.(tmp := Whole(state, true))
    case _ => d
  }

  /** Atomic. Whether the new name survives a crash from here on is the file system's choice. */
  function Renamed(d: Disk, durable: bool): Disk {
    Disk(d.tmp, Absent, if durable then d.tmp else d.kept)
  }

  /** Unsynced contents may be anything afterwards. */
  function AfterCrash(f: File): File {
    match f
    case Whole(_, false) => Torn
    case _ => f
  }

  function Crashed(d: Disk): Disk {
    Disk(AfterCrash(d.kept), AfterCrash(d.tmp), AfterCrash(d.kept))
  }

  datatype OpenError = InvalidData

  /** A missing file is an empty store; one that does not decode is reported. */
  function Opened(f: File): Result<Persisted, OpenError> {
    match f
    case Absent => Ok(EMPTY)
    case Torn => Err(InvalidData)
    case Whole(state, _) => Ok(state)
  }

  /** What a crash left unsynced is refused, never taken for a store that has nothing in it. */
  lemma OnlyWhatWasSyncedOpens(f: File)
    ensures Opened(AfterCrash(f)).Ok? <==> f.Absent? || (f.Whole? && f.synced)
    ensures forall state :: Opened(AfterCrash(f)) == Ok(state) ==> f == Whole(state, true) || (f.Absent? && state == EMPTY)
    ensures f.Torn? ==> Opened(f) == Err(InvalidData)
  {
    match f
    case Whole(_, synced) => assert AfterCrash(f) == if synced then f else Torn;
    case _ => assert AfterCrash(f) == f;
  }

  datatype Stage = Idle | Changed | Creating | Filling | Syncing | Down | Refused

  /** `history` is every memory state so far, one per update or start; `acked` the last one acknowledged. */
  datatype World = World(stage: Stage, disk: Disk, history: seq<Persisted>, acked: nat, stored: nat)

  const START := World(Idle, BLANK, [EMPTY], 0, 0)

  function Memory(w: World): Persisted
    requires w.history != []
  {
    w.history[|w.history| - 1]
  }

  datatype Action =
    | Update(state: Persisted)       // memory changes under the lock, then the flush starts
    | Create
    | Fill
    | Sync
    | Rename(durable: bool)          // and the update is acknowledged
    | Fail                           // whatever the flush was doing fails; memory stays ahead
    | Crash
    | Open

  predicate Enabled(w: World, action: Action) {
    match action
    case Update(_) => w.stage == Idle
    case Create => w.stage == Changed
    case Fill => w.stage == Creating
    case Sync => w.stage == Filling
    case Rename(_) => w.stage == Syncing
    case Fail => w.stage in {Changed, Creating, Filling, Syncing}
    case Crash => w.stage != Refused
    case Open => w.stage == Down
  }

  function Do(w: World, action: Action): World
    requires w.history != [] && Enabled(w, action)
  {
    match action
    case Update(state) => w.(stage := Changed, history := w.history + [state])
    case Create => w.(stage := Creating, disk := Created(w.disk))
    case Fill => w.(stage := Filling, disk := Filled(w.disk, Memory(w)))
    case Sync => w.(stage := Syncing, disk := Synced(w.disk))
    case Rename(durable) =>
      var last := |w.history| - 1;
      w.(stage := Idle, disk := Renamed(w.disk, durable), acked := last,
         stored := if durable then last else w.stored)
    case Fail => w.(stage := Idle)
    case Crash => w.(stage := Down, disk := Crashed(w.disk))
    case Open =>
      match Opened(w.disk.main)
      case Err(_) => w.(stage := Refused)
      case Ok(state) => w.(stage := Idle, history := w.history + [state])
  }

  ghost predicate IsRun(worlds: seq<World>, actions: seq<Action>) {
    && |worlds| == |actions| + 1 && worlds[0] == START
    && forall k :: 0 <= k < |actions| ==>
         worlds[k].history != [] && Enabled(worlds[k], actions[k]) && worlds[k + 1] == Do(worlds[k], actions[k])
  }

  /** The hypothesis about the file system: a rename that has returned is there after a crash. */
  ghost predicate RenamesLast(actions: seq<Action>) {
    forall k :: 0 <= k < |actions| && actions[k].Rename? ==> actions[k].durable
  }

  // ---- Never torn -------------------------------------------------------------------------------------

  /** A file under the store's name is whole, synced, and one of the states memory has been in. */
  predicate FromHistory(f: File, history: seq<Persisted>, at: nat) {
    at < |history| && (f == Whole(history[at], true) || (f == Absent && history[at] == EMPTY))
  }

  ghost predicate DiskInv(w: World) {
    && w.history != []
    && FromHistory(w.disk.kept, w.history, w.stored)
    && (w.stage == Filling ==> w.disk.tmp == Whole(Memory(w), false))
    && (w.stage == Syncing ==> w.disk.tmp == Whole(Memory(w), true))
    && (w.stage == Down ==> w.disk.main == w.disk.kept)
    && w.stage != Refused && w.acked < |w.history|
  }

  lemma StepKeepsDisk(w: World, action: Action)
    requires DiskInv(w) && Enabled(w, action)
    ensures DiskInv(Do(w, action))
  {
  }

  lemma {:induction false} RunKeepsDisk(worlds: seq<World>, actions: seq<Action>, k: nat)
    requires IsRun(worlds, actions) && k < |worlds|
    ensures DiskInv(worlds[k])
  {
    if k > 0 {
      RunKeepsDisk(worlds, actions, k - 1);
      StepKeepsDisk(worlds[k - 1], actions[k - 1]);
    }
  }

  /** Whatever a rename costs, a crash never leaves a file that does not open, or a mix of two states. */
  lemma AStoreAlwaysReopensToSomeUpdate(worlds: seq<World>, actions: seq<Action>, k: nat)
    requires IsRun(worlds, actions) && k < |actions| && actions[k] == Open
    ensures worlds[k + 1].stage == Idle && Memory(worlds[k + 1]) in worlds[k].history
  {
    RunKeepsDisk(worlds, actions, k);
  }

  // ---- Never older than the last acknowledgement --------------------------------------------------------

  lemma {:induction false} AckedIsStored(worlds: seq<World>, actions: seq<Action>, k: nat)
    requires IsRun(worlds, actions) && RenamesLast(actions) && k < |worlds|
    ensures worlds[k].acked <= worlds[k].stored < |worlds[k].history|
  {
    RunKeepsDisk(worlds, actions, k);
    if k > 0 {
      AckedIsStored(worlds, actions, k - 1);
      RunKeepsDisk(worlds, actions, k - 1);
    }
  }

  /**
   A crash at any point of any sequence of updates, failed flushes included, reopens to the memory
   state after some update no earlier than the last acknowledged one.
   */
  lemma ReopeningLosesNothingAcknowledged(worlds: seq<World>, actions: seq<Action>, k: nat)
    requires IsRun(worlds, actions) && RenamesLast(actions) && k < |actions| && actions[k] == Open
    ensures worlds[k + 1].stage == Idle
    ensures exists at :: worlds[k].acked <= at < |worlds[k].history| && Memory(worlds[k + 1]) == worlds[k].history[at]
  {
    RunKeepsDisk(worlds, actions, k);
    AckedIsStored(worlds, actions, k);
    assert Memory(worlds[k + 1]) == worlds[k].history[worlds[k].stored];
  }

  // ---- Votes ----------------------------------------------------------------------------------------------

  /** The engine only ever saves a vote at least as high as the one it read. */
  ghost predicate VotesRise(worlds: seq<World>, actions: seq<Action>) {
    forall k :: 0 <= k < |actions| && k < |worlds| && actions[k].Update? && worlds[k].history != [] ==>
      VoteLe(Memory(worlds[k]).vote, actions[k].state.vote)
  }

  /** Every memory state since the last acknowledged one has a vote at least that high. */
  ghost predicate VotesKept(w: World) {
    w.acked < |w.history| &&
    forall i :: w.acked <= i < |w.history| ==> VoteLe(w.history[w.acked].vote, w.history[i].vote)
  }

  lemma VoteLeTransitive(a: Option<Vote>, b: Option<Vote>, c: Option<Vote>)
    requires VoteLe(a, b) && VoteLe(b, c)
    ensures VoteLe(a, c)
  {
  }

  lemma StepKeepsVotes(w: World, action: Action)
    requires DiskInv(w) && VotesKept(w) && Enabled(w, action) && w.acked <= w.stored
    requires action.Update? ==> VoteLe(Memory(w).vote, action.state.vote)
    ensures VotesKept(Do(w, action))
    ensures VoteLe(w.history[w.acked].vote, Do(w, action).history[Do(w, action).acked].vote)
  {
    if action.Update? {
      VoteLeTransitive(w.history[w.acked].vote, Memory(w).vote, action.state.vote);
    }
  }

  lemma {:induction false} RunKeepsVotes(worlds: seq<World>, actions: seq<Action>, k: nat)
    requires IsRun(worlds, actions) && RenamesLast(actions) && VotesRise(worlds, actions) && k < |worlds|
    ensures VotesKept(worlds[k])
  {
    if k > 0 {
      RunKeepsVotes(worlds, actions, k - 1);
      RunKeepsDisk(worlds, actions, k - 1);
      AckedIsStored(worlds, actions, k - 1);
      StepKeepsVotes(worlds[k - 1], actions[k - 1]);
    }
  }

  function AckedVote(w: World): Option<Vote>
    requires w.acked < |w.history|
  {
    w.history[w.acked].vote
  }

  lemma OneStepVotes(worlds: seq<World>, actions: seq<Action>, k: nat)
    requires IsRun(worlds, actions) && RenamesLast(actions) && VotesRise(worlds, actions) && k < |actions|
    ensures worlds[k].acked < |worlds[k].history| && worlds[k + 1].acked < |worlds[k + 1].history|
    ensures VoteLe(AckedVote(worlds[k]), AckedVote(worlds[k + 1]))
  {
    RunKeepsVotes(worlds, actions, k);
    RunKeepsDisk(worlds, actions, k);
    AckedIsStored(worlds, actions, k);
    StepKeepsVotes(worlds[k], actions[k]);
  }

  lemma {:induction false} AckedVotesRise(worlds: seq<World>, actions: seq<Action>, j: nat, k: nat)
    requires IsRun(worlds, actions) && RenamesLast(actions) && VotesRise(worlds, actions) && j <= k < |worlds|
    ensures worlds[j].acked < |worlds[j].history| && worlds[k].acked < |worlds[k].history|
    ensures VoteLe(AckedVote(worlds[j]), AckedVote(worlds[k]))
  {
    if j == k {
      RunKeepsDisk(worlds, actions, k);
    } else {
      AckedVotesRise(worlds, actions, j, k - 1);
      OneStepVotes(worlds, actions, k - 1);
      VoteLeTransitive(AckedVote(worlds[j]), AckedVote(worlds[k - 1]), AckedVote(worlds[k]));
    }
  }

  /** Over a whole run with crashes, memory never holds a vote older than one acknowledged before. */
  lemma AnAcknowledgedVoteIsNeverReplacedByAnOlder(worlds: seq<World>, actions: seq<Action>, j: nat, k: nat)
    requires IsRun(worlds, actions) && RenamesLast(actions) && VotesRise(worlds, actions) && j <= k < |worlds|
    ensures worlds[j].acked < |worlds[j].history| && worlds[k].history != []
    ensures VoteLe(AckedVote(worlds[j]), Memory(worlds[k]).vote)
  {
    AckedVotesRise(worlds, actions, j, k);
    RunKeepsVotes(worlds, actions, k);
    VoteLeTransitive(AckedVote(worlds[j]), AckedVote(worlds[k]), Memory(worlds[k]).vote);
  }

  // ---- Why the hypothesis ------------------------------------------------------------------------------------

  /** Whether the last acknowledging rename so far was durable; nothing before the first. */
  function LastRename(actions: seq<Action>, k: nat): Option<bool>
    requires k <= |actions|
  {
    if k == 0 then None
    else if actions[k - 1].Rename? then Some(actions[k - 1].durable)
    else LastRename(actions, k - 1)
  }

  predicate InFlush(stage: Stage) {
    stage in {Changed, Creating, Filling, Syncing}
  }

  lemma StepStores(w: World, action: Action)
    requires DiskInv(w) && Enabled(w, action) && (InFlush(w.stage) ==> w.stored < |w.history| - 1)
    ensures var w' := Do(w, action);
            && (InFlush(w'.stage) ==> w'.stored < |w'.history| - 1)
            && (action.Rename? ==> (w'.acked <= w'.stored <==> action.durable))
            && (!action.Rename? ==> w'.acked == w.acked && w'.stored == w.stored)
  {
  }

  /**
   What a crash would give back is no older than what was acknowledged if and only if the last rename
   to acknowledge anything was durable.
   */
  lemma {:induction false} AckedIsStoredIffTheRenameLasted(worlds: seq<World>, actions: seq<Action>, k: nat)
    requires IsRun(worlds, actions) && k < |worlds|
    ensures InFlush(worlds[k].stage) ==> worlds[k].stored < |worlds[k].history| - 1
    ensures worlds[k].acked <= worlds[k].stored <==> LastRename(actions, k) != Some(false)
  {
    if k > 0 {
      AckedIsStoredIffTheRenameLasted(worlds, actions, k - 1);
      RunKeepsDisk(worlds, actions, k - 1);
      StepStores(worlds[k - 1], actions[k - 1]);
    }
  }

  const VOTED := EMPTY.(vote := Some(Vote(7, 1, true)))

  lemma Extended(worlds: seq<World>, actions: seq<Action>, action: Action)
    returns (worlds': seq<World>, actions': seq<Action>)
    requires IsRun(worlds, actions) && VotesRise(worlds, actions)
    requires worlds[|actions|].history != [] && Enabled(worlds[|actions|], action)
    requires action.Update? ==> VoteLe(Memory(worlds[|actions|]).vote, action.state.vote)
    ensures IsRun(worlds', actions') && VotesRise(worlds', actions')
    ensures |actions'| == |actions| + 1 && worlds'[|actions'|] == Do(worlds[|actions|], action)
    ensures worlds <= worlds'
  {
    worlds', actions' := worlds + [Do(worlds[|actions|], action)], actions + [action];
  }

  /**
   The directory is not synced after the rename. On a file system that can forget a returned rename,
   an acknowledged vote is gone after a crash.
   */
  lemma AForgottenRenameForgetsTheVote() returns (worlds: seq<World>, actions: seq<Action>)
    ensures IsRun(worlds, actions) && VotesRise(worlds, actions) && |worlds| == 8
    ensures worlds[5].stage == Idle && |worlds[5].history| == 2 && worlds[5].acked == 1 && worlds[5].history[1] == VOTED
    ensures worlds[7].stage == Idle && worlds[7].history != [] && Memory(worlds[7]) == EMPTY
  {
    worlds, actions := [START], [];
    worlds, actions := Extended(worlds, actions, Update(VOTED));
    worlds, actions := Extended(worlds, actions, Create);
    worlds, actions := Extended(worlds, actions, Fill);
    worlds, actions := Extended(worlds, actions, Sync);
    worlds, actions := Extended(worlds, actions, Rename(false));
    assert worlds[5] == World(Idle, Disk(Whole(VOTED, true), Absent, Absent), [EMPTY, VOTED], 1, 0);
    worlds, actions := Extended(worlds, actions, Crash);
    assert worlds[6] == World(Down, BLANK, [EMPTY, VOTED], 1, 0);
    worlds, actions := Extended(worlds, actions, Open);
  }
}
