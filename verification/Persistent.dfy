/**
 The adapter that turns an event-sourced actor into a plain one (`src/persistent.rs`): recovery
 on start, and per command one write followed by publish, snapshot, ack and stop in that order.

 `Handled` is what one command does to the log and the instance. The class proves its loops
 against it, `HandleIsARun` places it inside the interleaved runs of `EventLog`, and
 `HandleRefinesPlainLog` compares it with a log that has no snapshots and never compacts.
 */
module Persistent {
  import opened Wrappers
  import opened Journal
  import opened EventSourcing
  import opened EventLog

  datatype Flow = Continue | Stop

  /** Which of the three journal calls of a command the backend fails. */
  datatype Outage = Outage(persist: bool, save: bool, compact: bool)

  datatype Outcome<+S, +E> = Outcome(
    entry: Entry, state: S, seqNr: nat, published: seq<E>, result: Result<(), JournalError>, flow: Flow)

  function WriteResult<S, E>(b: Behaviour<S, E>, entry: Entry, seqNr: nat, events: seq<E>, down: bool)
    : Result<(), JournalError>
  {
    if EncodeAll(b, events).None? then Err(Serialization)
    else if down then Err(Backend)
    else Admit(entry, seqNr)
  }

  /** `snapshot_state`: compaction only after the journal took the snapshot. */
  function SnapshotAndCompact<S, E>(b: Behaviour<S, E>, entry: Entry, state: S, seqNr: nat, outage: Outage): Entry {
    match b.encodeState(state)
    case None => entry
    case Some(blob) =>
      if outage.save || Admit(entry, seqNr).Err? then entry
      else if outage.compact then Snapshotted(entry, blob, seqNr)
      else Compacted(Snapshotted(entry, blob, seqNr), seqNr)
  }

  function Handled<S, E>(
      b: Behaviour<S, E>, entry: Entry, state: S, seqNr: nat, effect: Effect<E>, outage: Outage): Outcome<S, E>
  {
    var result := WriteResult(b, entry, seqNr, effect.events, outage.persist);
    var flow := if effect.stop || (result.Err? && result.error.Conflict?) then Stop else Continue;
    if result.Err? then Outcome(entry, state, seqNr, [], result, flow)
    else
      var written := Appended(entry, EncodeAll(b, effect.events).value);
      var folded := Folded(b, state, effect.events);
      var seqNr' := seqNr + |effect.events|;
      var entry' := if effect.snapshot && !effect.stop then SnapshotAndCompact(b, written, folded, seqNr', outage)
                    else written;
      Outcome(entry', folded, seqNr', effect.events, result, flow)
  }

  function Recovered<S, E>(b: Behaviour<S, E>, entry: Entry): Result<(S, nat), JournalError> {
    match SnapshotState(b, entry.snapshot)
    case Err(e) => Err(e)
    case Ok((state, seqNr)) => FoldStream(b, state, seqNr, After(entry.events, seqNr))
  }

  lemma {:induction false} EncodeAllSnoc<S, E>(b: Behaviour<S, E>, xs: seq<E>, x: E)
    ensures EncodeAll(b, xs + [x]) ==
            if EncodeAll(b, xs).Some? && b.encodeEvent(x).Some?
            then Some(EncodeAll(b, xs).value + [b.encodeEvent(x).value])
            else None
  {
    if xs == [] {
      assert xs + [x] == [x] && [x][1..] == [];
      if b.encodeEvent(x).Some? {
        var last := b.encodeEvent(x).value;
        assert [last] + [] == [] + [last];
      }
    } else {
      assert (xs + [x])[1..] == xs[1..] + [x];
      EncodeAllSnoc(b, xs[1..], x);
      if EncodeAll(b, xs).Some? && b.encodeEvent(x).Some? {
        var head, rest, last := b.encodeEvent(xs[0]).value, EncodeAll(b, xs[1..]).value, b.encodeEvent(x).value;
        assert [head] + (rest + [last]) == [head] + rest + [last];
      }
    }
  }

  lemma {:induction false} EncodeAllFailsAt<S, E>(b: Behaviour<S, E>, events: seq<E>, i: nat)
    requires i < |events| && b.encodeEvent(events[i]).None?
    ensures EncodeAll(b, events).None?
  {
    if i > 0 {
      EncodeAllFailsAt(b, events[1..], i - 1);
    }
  }

  class Persistent<S, E> {
    const behaviour: Behaviour<S, E>
    const pid: PersistenceId
    const journal: InMemoryJournal
    var state: S
    var seqNr: nat

    constructor (behaviour: Behaviour<S, E>, pid: PersistenceId, journal: InMemoryJournal)
      ensures this.behaviour == behaviour && this.pid == pid && this.journal == journal
      ensures state == behaviour.initial && seqNr == 0
    {
      this.behaviour := behaviour;
      this.pid := pid;
      this.journal := journal;
      state := behaviour.initial;
      seqNr := 0;
    }

    /** Start from what the log holds, or refuse to start and leave the instance as it was. */
    method OnStart() returns (r: Result<(), JournalError>)
      modifies this
      ensures match Recovered(behaviour, EntryOf(journal.inner, pid))
              case Ok((s, n)) => r == Ok(()) && state == s && seqNr == n
              case Err(e) => r == Err(e) && state == old(state) && seqNr == old(seqNr)
    {
      var recovered := Recover();
      match recovered
      case Ok((s, n)) =>
        state, seqNr := s, n;
        r := Ok(());
      case Err(e) =>
        r := Err(e);
    }

    method Recover() returns (r: Result<(S, nat), JournalError>)
      ensures r == Recovered(behaviour, EntryOf(journal.inner, pid))
    {
      var snapshot := journal.LatestSnapshot(pid);
      var s, n: nat := behaviour.initial, 0;
      match snapshot {
        case Some(Snapshot(blob, at)) =>
          match behaviour.decodeState(blob) {
            case None => return Err(Serialization);
            case Some(decoded) => s, n := decoded, at;
          }
        case None =>
      }
      var items := journal.Replay(pid, n);
      ghost var whole := FoldStream(behaviour, s, n, items);
      for i := 0 to |items|
        invariant FoldStream(behaviour, s, n, items[i..]) == whole
      {
        assert items[i..][1..] == items[i + 1..];
        match behaviour.decodeEvent(items[i].blob) {
          case None => return Err(Serialization);
          case Some(event) =>
            s := behaviour.apply(s, event);
            n := items[i].seqNr;
        }
      }
      r := Ok((s, n));
    }

    /** Persist a batch, then fold it; a failed write folds and counts nothing. */
    method PersistEvents(events: seq<E>, down: bool) returns (r: Result<(), JournalError>)
      modifies this, journal
      ensures var entry := EntryOf(old(journal.inner), pid);
              && r == WriteResult(behaviour, entry, old(seqNr), events, down)
              && EntryOf(journal.inner, pid) ==
                   (if r.Ok? then Appended(entry, EncodeAll(behaviour, events).value) else entry)
              && state == (if r.Ok? then Folded(behaviour, old(state), events) else old(state))
              && seqNr == (if r.Ok? then old(seqNr) + |events| else old(seqNr))
      ensures forall other :: other != pid ==> EntryOf(journal.inner, other) == EntryOf(old(journal.inner), other)
    {
      var encoded: seq<Blob> := [];
      for i := 0 to |events|
        invariant EncodeAll(behaviour, events[..i]) == Some(encoded)
        invariant journal.inner == old(journal.inner) && state == old(state) && seqNr == old(seqNr)
      {
        assert events[..i + 1] == events[..i] + [events[i]];
        EncodeAllSnoc(behaviour, events[..i], events[i]);
        match behaviour.encodeEvent(events[i]) {
          case None =>
            EncodeAllFailsAt(behaviour, events, i);
            return Err(Serialization);
          case Some(blob) =>
            encoded := encoded + [blob];
        }
      }
      assert events[..|events|] == events;
      if down {
        return Err(Backend);
      }
      r := journal.Persist(pid, encoded, seqNr);
      if r.Err? {
        return;
      }
      for i := 0 to |events|
        invariant Folded(behaviour, state, events[i..]) == Folded(behaviour, old(state), events)
        invariant seqNr == old(seqNr) + i
        invariant journal.inner == old(journal.inner)[pid := Appended(EntryOf(old(journal.inner), pid), encoded)]
      {
        assert events[i..][1..] == events[i + 1..];
        state := behaviour.apply(state, events[i]);
        seqNr := seqNr + 1;
      }
    }

    method SnapshotState(outage: Outage)
      modifies journal
      ensures EntryOf(journal.inner, pid)
           == SnapshotAndCompact(behaviour, EntryOf(old(journal.inner), pid), state, seqNr, outage)
      ensures forall other :: other != pid ==> EntryOf(journal.inner, other) == EntryOf(old(journal.inner), other)
    {
      match behaviour.encodeState(state) {
        case None =>
        case Some(blob) =>
          if outage.save {
            return;
          }
          var saved := journal.SaveSnapshot(pid, blob, seqNr);
          if saved.Err? {
            return;
          }
          if !outage.compact {
            journal.DeleteEventsBefore(pid, seqNr);
          }
      }
    }

    /** One command, from the decision `handle_command` returned to the flow it ends with. */
    method Handle(effect: Effect<E>, outage: Outage)
      returns (published: seq<E>, ack: Option<Result<(), JournalError>>, flow: Flow)
      modifies this, journal
      ensures var outcome := Handled(behaviour, EntryOf(old(journal.inner), pid), old(state), old(seqNr), effect, outage);
              && EntryOf(journal.inner, pid) == outcome.entry
              && state == outcome.state && seqNr == outcome.seqNr
              && published == outcome.published && flow == outcome.flow
              && ack == if effect.ack then Some(outcome.result) else None
      ensures forall other :: other != pid ==> EntryOf(journal.inner, other) == EntryOf(old(journal.inner), other)
    {
      var result := PersistEvents(effect.events, outage.persist);
      published := if result.Ok? then effect.events else [];
      if effect.snapshot && result.Ok? && !effect.stop {
        SnapshotState(outage);
      }
      var conflicted := result.Err? && result.error.Conflict?;
      ack := if effect.ack then Some(result) else None;
      flow := if effect.stop || conflicted then Stop else Continue;
    }
  }
}
