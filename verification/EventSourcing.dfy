/**
 What the runtime knows about an event-sourced actor (`src/actor.rs`): an initial state, a pure
 fold of one event, and a codec. `StateAt` is the reference meaning of a history: the state
 after its first `n` events, with no snapshot, no compaction and no log anywhere in sight.
 */
module EventSourcing {
  import opened Wrappers
  import opened Journal

  datatype Behaviour<!S, !E> = Behaviour(
    initial: S,
    apply: (S, E) -> S,
    encodeEvent: E -> Option<Blob>,
    decodeEvent: Blob -> Option<E>,
    encodeState: S -> Option<Blob>,
    decodeState: Blob -> Option<S>
  )

  /** The one assumption about the codec: what it manages to encode, it decodes back. */
  ghost predicate RoundTrips<S(!new), E(!new)>(b: Behaviour<S, E>) {
    && (forall e: E :: b.encodeEvent(e).Some? ==> b.decodeEvent(b.encodeEvent(e).value) == Some(e))
    && (forall s: S :: b.encodeState(s).Some? ==> b.decodeState(b.encodeState(s).value) == Some(s))
  }

  datatype Effect<+E> = Effect(events: seq<E>, snapshot: bool, ack: bool, stop: bool)

  function StateAt<S, E>(b: Behaviour<S, E>, history: seq<E>, n: nat): S
    requires n <= |history|
  {
    if n == 0 then b.initial else b.apply(StateAt(b, history, n - 1), history[n - 1])
  }

  /** The fold loop of `persist_events`: `events` applied to `state` in order. */
  function Folded<S, E>(b: Behaviour<S, E>, state: S, events: seq<E>): S {
    if events == [] then state else Folded(b, b.apply(state, events[0]), events[1..])
  }

  function EncodeAll<S, E>(b: Behaviour<S, E>, events: seq<E>): Option<seq<Blob>> {
    if events == [] then Some([])
    else
      match b.encodeEvent(events[0])
      case None => None
      case Some(blob) =>
        match EncodeAll(b, events[1..])
        case None => None
        case Some(rest) => Some([blob] + rest)
  }

  /** The replay loop of `recover`: take the journal's numbers, never a count. */
  function FoldStream<S, E>(b: Behaviour<S, E>, state: S, seqNr: nat, items: seq<Numbered>)
    : Result<(S, nat), JournalError>
    decreases |items|
  {
    if items == [] then Ok((state, seqNr))
    else
      match b.decodeEvent(items[0].blob)
      case None => Err(Serialization)
      case Some(e) => FoldStream(b, b.apply(state, e), items[0].seqNr, items[1..])
  }

  /** Where recovery starts from: the snapshot if there is one, the initial state otherwise. */
  function SnapshotState<S, E>(b: Behaviour<S, E>, snapshot: Option<Snapshot>)
    : Result<(S, nat), JournalError>
  {
    match snapshot
    case None => Ok((b.initial, 0))
    case Some(Snapshot(blob, seqNr)) =>
      match b.decodeState(blob)
      case None => Err(Serialization)
      case Some(state) => Ok((state, seqNr))
  }

  lemma {:induction false} StateAtPrefix<S, E>(b: Behaviour<S, E>, history: seq<E>, more: seq<E>, n: nat)
    requires n <= |history|
    ensures StateAt(b, history + more, n) == StateAt(b, history, n)
  {
    if n > 0 {
      StateAtPrefix(b, history, more, n - 1);
    }
  }

  lemma StateAtExtends<S, E>(b: Behaviour<S, E>, history: seq<E>, more: seq<E>)
    ensures forall n :: 0 <= n <= |history| ==> StateAt(b, history + more, n) == StateAt(b, history, n)
  {
    forall n | 0 <= n <= |history| {
      StateAtPrefix(b, history, more, n);
    }
  }

  /** Folding a batch onto the state of a whole history is the state of the longer history. */
  lemma {:induction false} FoldedIsStateAt<S, E>(b: Behaviour<S, E>, history: seq<E>, events: seq<E>)
    ensures Folded(b, StateAt(b, history, |history|), events)
         == StateAt(b, history + events, |history| + |events|)
    decreases |events|
  {
    if events == [] {
      assert history + events == history;
    } else {
      var longer := history + [events[0]];
      StateAtPrefix(b, history, [events[0]], |history|);
      FoldedIsStateAt(b, longer, events[1..]);
      assert longer + events[1..] == history + events;
    }
  }

  lemma {:induction false} FoldedConcat<S, E>(b: Behaviour<S, E>, state: S, xs: seq<E>, ys: seq<E>)
    ensures Folded(b, state, xs + ys) == Folded(b, Folded(b, state, xs), ys)
    decreases |xs|
  {
    if xs == [] {
      assert xs + ys == ys;
    } else {
      assert (xs + ys)[1..] == xs[1..] + ys;
      FoldedConcat(b, b.apply(state, xs[0]), xs[1..], ys);
    }
  }

  lemma {:induction false} EncodedDecodes<S(!new), E(!new)>(b: Behaviour<S, E>, events: seq<E>)
    requires RoundTrips(b) && EncodeAll(b, events).Some?
    ensures |EncodeAll(b, events).value| == |events|
    ensures forall i :: 0 <= i < |events| ==> b.decodeEvent(EncodeAll(b, events).value[i]) == Some(events[i])
  {
    if events != [] {
      EncodedDecodes(b, events[1..]);
    }
  }

  /** Replaying the consecutive tail of a history from the state it starts at reaches its end. */
  lemma {:induction false} FoldStreamIsStateAt<S, E>(
      b: Behaviour<S, E>, history: seq<E>, n: nat, items: seq<Numbered>)
    requires n + |items| == |history|
    requires forall i :: 0 <= i < |items| ==>
               items[i].seqNr == n + 1 + i && b.decodeEvent(items[i].blob) == Some(history[n + i])
    ensures FoldStream(b, StateAt(b, history, n), n, items)
         == Ok((StateAt(b, history, |history|), |history|))
    decreases |items|
  {
    if items != [] {
      assert forall i :: 0 <= i < |items[1..]| ==> items[1..][i] == items[i + 1];
      FoldStreamIsStateAt(b, history, n + 1, items[1..]);
    }
  }
}
