/**
 What one command does, for any writer: level with the log, behind it, or ahead of it, whatever it
 decided and whichever calls fail. Everything is said of what the caller and the log can see, without
 naming how it is computed (`Persistent::handle`, `persist_events` and `recover`, src/persistent.rs).
 */
module Commands {
  import opened Wrappers
  import opened Journal
  import opened EventSourcing
  import opened EventLog
  import opened Persistent

  predicate AllEncode<S, E>(b: Behaviour<S, E>, events: seq<E>) {
    forall i :: 0 <= i < |events| ==> b.encodeEvent(events[i]).Some?
  }

  /** A batch encodes exactly when each of its events does, and then event by event. */
  lemma {:induction false} EncodedOneByOne<S, E>(b: Behaviour<S, E>, events: seq<E>)
    ensures EncodeAll(b, events).Some? <==> AllEncode(b, events)
    ensures EncodeAll(b, events).Some? ==>
              && |EncodeAll(b, events).value| == |events|
              && forall i :: 0 <= i < |events| ==> Some(EncodeAll(b, events).value[i]) == b.encodeEvent(events[i])
  {
    if events != [] {
      EncodedOneByOne(b, events[1..]);
      if AllEncode(b, events) {
        assert AllEncode(b, events[1..]);
      }
      if AllEncode(b, events[1..]) && b.encodeEvent(events[0]).Some? {
        assert forall i :: 0 < i < |events| ==> events[i] == events[1..][i - 1];
      }
    }
  }

  /** The journal takes the write: everything encodes, it can be reached, and the writer is level with it. */
  predicate IsAccepted<S, E>(b: Behaviour<S, E>, entry: Entry, seqNr: nat, effect: Effect<E>, outage: Outage) {
    AllEncode(b, effect.events) && !outage.persist && entry.lastSeq == seqNr
  }

  /** These are the events a write added: numbered on from the end, and decoding to what was written. */
  ghost predicate IsTail<S, E>(b: Behaviour<S, E>, entry: Entry, tail: seq<Numbered>, events: seq<E>) {
    && |tail| == |events|
    && forall i :: 0 <= i < |tail| ==>
         tail[i].seqNr == entry.lastSeq + 1 + i && b.decodeEvent(tail[i].blob) == Some(events[i])
  }

  /** Refused or failed: the log, the state and the number are untouched, and nothing is published. */
  lemma ARefusedCommandDoesNothing<S, E>(
      b: Behaviour<S, E>, entry: Entry, state: S, seqNr: nat, effect: Effect<E>, outage: Outage)
    requires !IsAccepted(b, entry, seqNr, effect, outage)
    ensures var o := Handled(b, entry, state, seqNr, effect, outage);
            && o.entry == entry && o.state == state && o.seqNr == seqNr && o.published == []
            && o.result == Err(if !AllEncode(b, effect.events) then Serialization
                               else if outage.persist then Backend
                               else Conflict(seqNr, entry.lastSeq))
            && (o.flow.Stop? <==> effect.stop || o.result.error.Conflict?)
  {
    EncodedOneByOne(b, effect.events);
  }

  /** Whether this command leaves a new snapshot behind. */
  predicate TakesSnapshot<S, E>(b: Behaviour<S, E>, state: S, effect: Effect<E>, outage: Outage) {
    effect.snapshot && !effect.stop && b.encodeState(state).Some? && !outage.save
  }

  /**
   Accepted: exactly the decided events are appended, folded and published. A snapshot of the new state at
   the new number is left if and only if one was asked for, the actor goes on, it encodes and it can be saved;
   and only then are events deleted, exactly those up to that number, if that call works too.
   */
  lemma AnAcceptedCommandIsWrittenFoldedAndPublished<S(!new), E(!new)>(
      b: Behaviour<S, E>, entry: Entry, state: S, seqNr: nat, effect: Effect<E>, outage: Outage)
    returns (tail: seq<Numbered>)
    requires RoundTrips(b) && IsAccepted(b, entry, seqNr, effect, outage)
    ensures IsTail(b, entry, tail, effect.events)
    ensures var o := Handled(b, entry, state, seqNr, effect, outage);
            && o.result == Ok(()) && o.published == effect.events && (o.flow.Stop? <==> effect.stop)
            && o.entry.lastSeq == entry.lastSeq + |effect.events| == o.seqNr
            && o.state == Folded(b, state, effect.events)
            && o.entry.snapshot == (if TakesSnapshot(b, o.state, effect, outage)
                                    then Some(Snapshot(b.encodeState(o.state).value, o.seqNr)) else entry.snapshot)
            && o.entry.events == (if TakesSnapshot(b, o.state, effect, outage) && !outage.compact
                                  then After(entry.events + tail, o.seqNr) else entry.events + tail)
  {
    EncodedOneByOne(b, effect.events);
    tail := NumberFrom(entry.lastSeq, EncodeAll(b, effect.events).value);
  }

  /** For any writer: either nothing was published, or the log grew by exactly what was. */
  lemma OnlyWhatWasWrittenIsPublished<S(!new), E(!new)>(
      b: Behaviour<S, E>, entry: Entry, state: S, seqNr: nat, effect: Effect<E>, outage: Outage)
    requires RoundTrips(b)
    ensures var o := Handled(b, entry, state, seqNr, effect, outage);
            && o.entry.lastSeq == entry.lastSeq + |o.published|
            && (o.published == effect.events || o.published == [])
            && (o.published == [] || exists tail :: IsTail(b, entry, tail, o.published))
            && (o.result.Ok? <==> IsAccepted(b, entry, seqNr, effect, outage))
  {
    if IsAccepted(b, entry, seqNr, effect, outage) {
      var tail := AnAcceptedCommandIsWrittenFoldedAndPublished(b, entry, state, seqNr, effect, outage);
    } else {
      ARefusedCommandDoesNothing(b, entry, state, seqNr, effect, outage);
    }
  }

  // ---- When recovery fails --------------------------------------------------------------------------------

  predicate AllDecode<S, E>(b: Behaviour<S, E>, items: seq<Numbered>) {
    forall i :: 0 <= i < |items| ==> b.decodeEvent(items[i].blob).Some?
  }

  lemma {:induction false} StreamFoldsIffAllDecode<S, E>(b: Behaviour<S, E>, state: S, seqNr: nat, items: seq<Numbered>)
    ensures FoldStream(b, state, seqNr, items).Ok? <==> AllDecode(b, items)
    ensures FoldStream(b, state, seqNr, items).Err? ==> FoldStream(b, state, seqNr, items) == Err(Serialization)
    decreases |items|
  {
    if items != [] {
      assert AllDecode(b, items) <==> b.decodeEvent(items[0].blob).Some? && AllDecode(b, items[1..]) by {
        assert forall i :: 0 < i < |items| ==> items[i] == items[1..][i - 1];
        assert forall i :: 0 <= i < |items[1..]| ==> items[1..][i] == items[i + 1];
      }
      if b.decodeEvent(items[0].blob).Some? {
        StreamFoldsIffAllDecode(b, b.apply(state, b.decodeEvent(items[0].blob).value), items[0].seqNr, items[1..]);
      }
    }
  }

  /** An actor recovers if and only if its snapshot, if any, and every event after it decode. */
  lemma RecoveryFailsIffSomethingDoesNotDecode<S, E>(b: Behaviour<S, E>, entry: Entry)
    ensures var n := if entry.snapshot.Some? then entry.snapshot.value.seqNr else 0;
            Recovered(b, entry).Ok? <==>
            (entry.snapshot.Some? ==> b.decodeState(entry.snapshot.value.blob).Some?) &&
            AllDecode(b, After(entry.events, n))
    ensures Recovered(b, entry).Err? ==> Recovered(b, entry) == Err(Serialization)
  {
    if SnapshotState(b, entry.snapshot).Ok? {
      var (state, seqNr) := SnapshotState(b, entry.snapshot).value;
      StreamFoldsIffAllDecode(b, state, seqNr, After(entry.events, seqNr));
    }
  }

  lemma {:induction false} AfterHolds(events: seq<Numbered>, n: nat, item: Numbered)
    ensures item in After(events, n) <==> item in events && item.seqNr > n
  {
    if events != [] {
      AfterHolds(events[1..], n, item);
      assert events == [events[0]] + events[1..];
    }
  }

  // ---- A write that fails, and one that only looks as if it had ---------------------------------------------

  /** The batch encodes, reaches the journal, and the log ends where its writer believes. */
  predicate Lands<S, E>(b: Behaviour<S, E>, w: World<S, E>, id: nat, weather: Weather)
    requires id in w.instances && w.instances[id].phase.Writing?
  {
    && AllEncode(b, w.instances[id].phase.effect.events)
    && !weather.Down? && w.instances[id].seqNr == w.entry.lastSeq
  }

  /**
   A write is in the log exactly when it lands, and its writer is told so exactly when the reply also
   arrives: a writer told of a failure may have written, and one told of success always has.
   */
  lemma AWriteIsKeptIffItLands<S, E>(b: Behaviour<S, E>, w: World<S, E>, id: nat, weather: Weather)
    requires id in w.instances && w.instances[id].phase.Writing?
    ensures var w' := Do(b, w, Persist(id, weather));
            && w'.history == w.history + (if Lands(b, w, id, weather) then w.instances[id].phase.effect.events else [])
            && (!Lands(b, w, id, weather) ==> w'.entry == w.entry)
            && id in w'.instances && w'.instances[id].HasJob()
            && (w'.instances[id].phase.job.result.Ok? <==> Lands(b, w, id, weather) && weather.Up?)
            && (!weather.Up? || !Lands(b, w, id, weather) ==>
                  w'.published == w.published && w'.instances[id].state == w.instances[id].state)
  {
    var events := w.instances[id].phase.effect.events;
    EncodedOneByOne(b, events);
    assert w.history + [] == w.history;
  }
}
