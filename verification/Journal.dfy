/**
 The append-only event log with snapshots (`src/journal.rs`): what one log holds, the
 conditional check in front of every write, and the in-memory journal that keeps one log per
 persistence id.

 Every change a journal call can make to a log is a function from `Entry` to `Entry`. The
 class proves its loops against those functions, and the run model in `EventLog` takes its
 steps with the same functions.
 */
module Journal {
  import opened Wrappers

  newtype byte = x: int | 0 <= x < 256

  type Blob = seq<byte>

  datatype PersistenceId = PersistenceId(kind: string, id: string)

  datatype JournalError =
    | Conflict(expected: nat, actual: nat)
    | Backend
    | Serialization

  datatype Numbered = Numbered(seqNr: nat, blob: Blob)

  datatype Snapshot = Snapshot(blob: Blob, seqNr: nat)

  /** One log: the stored events, where the numbering has got to, and the latest snapshot. */
  datatype Entry = Entry(events: seq<Numbered>, lastSeq: nat, snapshot: Option<Snapshot>)

  const EMPTY := Entry([], 0, None)

  /** The fence: a write passes only if the log still ends where the writer believes. */
  function Admit(entry: Entry, expected: nat): (r: Result<(), JournalError>)
    ensures r.Ok? <==> entry.lastSeq == expected
    ensures r.Err? ==> r.error == Conflict(expected, entry.lastSeq)
  {
    if entry.lastSeq == expected then Ok(()) else Err(Conflict(expected, entry.lastSeq))
  }

  /** `blobs` carrying the sequence numbers after `last`. */
  function NumberFrom(last: nat, blobs: seq<Blob>): (r: seq<Numbered>)
    ensures |r| == |blobs|
    ensures forall i :: 0 <= i < |r| ==> r[i] == Numbered(last + 1 + i, blobs[i])
  {
    seq(|blobs|, i requires 0 <= i < |blobs| => Numbered(last + 1 + i, blobs[i]))
  }

  function Appended(entry: Entry, blobs: seq<Blob>): Entry {
    entry.(events := entry.events + NumberFrom(entry.lastSeq, blobs), lastSeq := entry.lastSeq + |blobs|)
  }

  /** The events numbered strictly above `seqNr`, in order. */
  function After(events: seq<Numbered>, seqNr: nat): seq<Numbered> {
    if events == [] then []
    else if events[0].seqNr > seqNr then [events[0]] + After(events[1..], seqNr)
    else After(events[1..], seqNr)
  }

  function Snapshotted(entry: Entry, blob: Blob, seqNr: nat): Entry {
    entry.(snapshot := Some(Snapshot(blob, seqNr)))
  }

  function Compacted(entry: Entry, seqNr: nat): Entry {
    entry.(events := After(entry.events, seqNr))
  }

  /** What `copy_snapshot` files under its destination. */
  function Forked(snapshot: Snapshot): Entry {
    Entry([], snapshot.seqNr, Some(snapshot))
  }

  lemma {:induction false} AfterConcat(xs: seq<Numbered>, ys: seq<Numbered>, seqNr: nat)
    ensures After(xs + ys, seqNr) == After(xs, seqNr) + After(ys, seqNr)
  {
    if xs == [] {
      assert xs + ys == ys;
    } else {
      assert (xs + ys)[1..] == xs[1..] + ys;
      AfterConcat(xs[1..], ys, seqNr);
    }
  }

  /** On consecutively numbered events the filter is a plain cut. */
  lemma {:induction false} AfterIsDrop(events: seq<Numbered>, first: nat, seqNr: nat)
    requires forall i :: 0 <= i < |events| ==> events[i].seqNr == first + i
    ensures After(events, seqNr) ==
            if seqNr < first then events
            else if seqNr + 1 - first <= |events| then events[seqNr + 1 - first..]
            else []
  {
    if events != [] {
      assert forall i :: 0 <= i < |events[1..]| ==> events[1..][i] == events[i + 1];
      AfterIsDrop(events[1..], first + 1, seqNr);
    }
  }

  /** The log a map of logs holds for `pid`; a missing one is empty. */
  function EntryOf(inner: map<PersistenceId, Entry>, pid: PersistenceId): Entry {
    if pid in inner then inner[pid] else EMPTY
  }

  class InMemoryJournal {
    var inner: map<PersistenceId, Entry>

    constructor ()
      ensures inner == map[]
    {
      inner := map[];
    }

    method Persist(pid: PersistenceId, blobs: seq<Blob>, expected: nat)
      returns (r: Result<(), JournalError>)
      modifies this
      ensures r == Admit(EntryOf(old(inner), pid), expected)
      ensures inner == old(inner)[pid := if r.Ok? then Appended(EntryOf(old(inner), pid), blobs)
                                         else EntryOf(old(inner), pid)]
    {
      var entry := EntryOf(inner, pid);
      inner := inner[pid := entry];
      r := Admit(entry, expected);
      if r.Err? {
        return;
      }
      var events, lastSeq := entry.events, entry.lastSeq;
      for i := 0 to |blobs|
        invariant lastSeq == entry.lastSeq + i
        invariant events == entry.events + NumberFrom(entry.lastSeq, blobs)[..i]
      {
        lastSeq := lastSeq + 1;
        events := events + [Numbered(lastSeq, blobs[i])];
      }
      assert NumberFrom(entry.lastSeq, blobs)[..|blobs|] == NumberFrom(entry.lastSeq, blobs);
      inner := inner[pid := entry.(events := events, lastSeq := lastSeq)];
    }

    method Replay(pid: PersistenceId, afterSeq: nat) returns (items: seq<Numbered>)
      ensures items == After(EntryOf(inner, pid).events, afterSeq)
    {
      items := Retained(EntryOf(inner, pid).events, afterSeq);
    }

    method SaveSnapshot(pid: PersistenceId, blob: Blob, seqNr: nat)
      returns (r: Result<(), JournalError>)
      modifies this
      ensures r == Admit(EntryOf(old(inner), pid), seqNr)
      ensures inner == old(inner)[pid := if r.Ok? then Snapshotted(EntryOf(old(inner), pid), blob, seqNr)
                                         else EntryOf(old(inner), pid)]
    {
      var entry := EntryOf(inner, pid);
      r := Admit(entry, seqNr);
      inner := inner[pid := if r.Ok? then Snapshotted(entry, blob, seqNr) else entry];
    }

    method LatestSnapshot(pid: PersistenceId) returns (r: Option<Snapshot>)
      ensures r == EntryOf(inner, pid).snapshot
    {
      r := if pid in inner then inner[pid].snapshot else None;
    }

    method DeleteEventsBefore(pid: PersistenceId, seqNr: nat)
      modifies this
      ensures inner.Keys == old(inner).Keys
      ensures EntryOf(inner, pid) == Compacted(EntryOf(old(inner), pid), seqNr)
      ensures forall other :: other in inner && other != pid ==> inner[other] == old(inner)[other]
    {
      if pid in inner {
        var kept := Retained(inner[pid].events, seqNr);
        inner := inner[pid := inner[pid].(events := kept)];
      }
    }

    method CopySnapshot(from: PersistenceId, to: PersistenceId)
      returns (r: Result<(), JournalError>)
      modifies this
      ensures r.Ok? <==> EntryOf(old(inner), from).snapshot.Some?
      ensures r.Ok? ==> inner == old(inner)[to := Forked(EntryOf(old(inner), from).snapshot.value)]
      ensures r.Err? ==> r.error == Backend && inner == old(inner)
    {
      var source := if from in inner then inner[from].snapshot else None;
      match source
      case None =>
        r := Err(Backend);
      case Some(snapshot) =>
        inner := inner[to := Entry([], snapshot.seqNr, Some(snapshot))];
        r := Ok(());
    }

    method LastSeq(pid: PersistenceId) returns (n: nat)
      ensures n == EntryOf(inner, pid).lastSeq
    {
      n := if pid in inner then inner[pid].lastSeq else 0;
    }

    method Clear(pid: PersistenceId)
      modifies this
      ensures inner == old(inner) - {pid}
    {
      inner := inner - {pid};
    }
  }

  /** The filter loop behind both `replay` and compaction's `retain`. */
  method Retained(events: seq<Numbered>, seqNr: nat) returns (kept: seq<Numbered>)
    ensures kept == After(events, seqNr)
  {
    kept := [];
    for i := 0 to |events|
      invariant kept == After(events[..i], seqNr)
    {
      assert events[..i + 1] == events[..i] + [events[i]];
      AfterConcat(events[..i], [events[i]], seqNr);
      if events[i].seqNr > seqNr {
        kept := kept + [events[i]];
      }
    }
    assert events[..|events|] == events;
  }
}
