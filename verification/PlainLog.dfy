/**
 Snapshots and compaction are invisible. The reference here is a log that has neither: a plain
 history, appended to and folded from the start. One writer over the compacting log does, command
 by command, exactly what it would do over the plain one, whatever it snapshots and whichever
 snapshot or compaction calls fail; and so does a log forked from a snapshot.
 */
module PlainLog {
  import opened Wrappers
  import opened Journal
  import opened EventSourcing
  import opened EventLog
  import opened Persistent

  /** One command against a plain history: no snapshots, no compaction, no stored numbers. */
  datatype Plain<+S, +E> = Plain(history: seq<E>, state: S, published: seq<E>, result: Result<(), JournalError>, flow: Flow)

  function PlainHandled<S, E>(b: Behaviour<S, E>, history: seq<E>, state: S, effect: Effect<E>, down: bool): Plain<S, E> {
    var flow := if effect.stop then Stop else Continue;
    if EncodeAll(b, effect.events).None? then Plain(history, state, [], Err(Serialization), flow)
    else if down then Plain(history, state, [], Err(Backend), flow)
    else
      var longer := history + effect.events;
      Plain(longer, StateAt(b, longer, |longer|), effect.events, Ok(()), flow)
  }

  /** The log holds `history`: its tail as stored events, its head behind a true snapshot. */
  ghost predicate Holds<S, E>(b: Behaviour<S, E>, entry: Entry, history: seq<E>) {
    && HoldsTail(b, entry, history)
    && SnapshotCovers(entry)
    && (entry.snapshot.Some? ==>
          && entry.snapshot.value.seqNr <= |history|
          && b.decodeState(entry.snapshot.value.blob) == Some(StateAt(b, history, entry.snapshot.value.seqNr)))
  }

  /** Recovering an undisturbed log gives the whole history, however much of it was compacted. */
  lemma RecoveredIsTheWholeHistory<S, E>(b: Behaviour<S, E>, entry: Entry, history: seq<E>)
    requires Holds(b, entry, history)
    ensures Recovered(b, entry) == Ok((StateAt(b, history, |history|), |history|))
  {
    var n := if entry.snapshot.Some? then entry.snapshot.value.seqNr else 0;
    TailAfter(b, entry, history, n);
    FoldStreamIsStateAt(b, history, n, After(entry.events, n));
  }

  lemma TailAfter<S, E>(b: Behaviour<S, E>, entry: Entry, history: seq<E>, n: nat)
    requires HoldsTail(b, entry, history) && Floor(entry) <= n <= |history|
    ensures var items := After(entry.events, n);
            && n + |items| == |history|
            && forall i :: 0 <= i < |items| ==>
                 items[i].seqNr == n + 1 + i && b.decodeEvent(items[i].blob) == Some(history[n + i])
  {
    AfterIsTheCut(b, entry, history, n);
    var items := After(entry.events, n);
    forall i | 0 <= i < |items|
      ensures items[i].seqNr == n + 1 + i && b.decodeEvent(items[i].blob) == Some(history[n + i])
    {
      StoredAt(b, entry, history, n - Floor(entry) + i);
    }
  }

  lemma AfterIsTheCut<S, E>(b: Behaviour<S, E>, entry: Entry, history: seq<E>, n: nat)
    requires HoldsTail(b, entry, history) && Floor(entry) <= n <= |history|
    ensures After(entry.events, n) == entry.events[n - Floor(entry)..]
  {
    AfterIsDrop(entry.events, Floor(entry) + 1, n);
  }

  lemma StoredAt<S, E>(b: Behaviour<S, E>, entry: Entry, history: seq<E>, k: nat)
    requires HoldsTail(b, entry, history) && k < |entry.events|
    ensures entry.events[k].seqNr == Floor(entry) + 1 + k
    ensures Floor(entry) + k < |history| && b.decodeEvent(entry.events[k].blob) == Some(history[Floor(entry) + k])
  {
  }

  lemma AppendedHolds<S(!new), E(!new)>(b: Behaviour<S, E>, entry: Entry, history: seq<E>, events: seq<E>)
    requires RoundTrips(b) && Holds(b, entry, history) && EncodeAll(b, events).Some?
    ensures Holds(b, Appended(entry, EncodeAll(b, events).value), history + events)
  {
    AppendedKeepsTail(b, entry, history, events);
    StateAtExtends(b, history, events);
  }

  lemma SnapshotAndCompactHolds<S(!new), E(!new)>(b: Behaviour<S, E>, entry: Entry, history: seq<E>, outage: Outage)
    requires RoundTrips(b) && Holds(b, entry, history)
    ensures Holds(b, SnapshotAndCompact(b, entry, StateAt(b, history, |history|), |history|, outage), history)
  {
    var state := StateAt(b, history, |history|);
    if b.encodeState(state).Some? {
      CompactedKeepsTail(b, Snapshotted(entry, b.encodeState(state).value, |history|), history, |history|);
    }
  }

  /**
   The refinement. For a writer that is level with the log, one command over the compacting log
   has the same state, number, publication, result and flow as over the plain history, and the
   log then holds the plain history's successor.
   */
  lemma HandleRefinesPlainLog<S(!new), E(!new)>(
      b: Behaviour<S, E>, entry: Entry, history: seq<E>, effect: Effect<E>, outage: Outage)
    requires RoundTrips(b) && Holds(b, entry, history)
    ensures var state := StateAt(b, history, |history|);
            var outcome := Handled(b, entry, state, |history|, effect, outage);
            var plain := PlainHandled(b, history, state, effect, outage.persist);
            && Holds(b, outcome.entry, plain.history)
            && outcome.state == plain.state == StateAt(b, plain.history, |plain.history|)
            && outcome.seqNr == |plain.history|
            && outcome.published == plain.published
            && outcome.result == plain.result
            && outcome.flow == plain.flow
  {
    if EncodeAll(b, effect.events).Some? && !outage.persist {
      var longer := history + effect.events;
      var written := Appended(entry, EncodeAll(b, effect.events).value);
      AppendedHolds(b, entry, history, effect.events);
      FoldedIsStateAt(b, history, effect.events);
      SnapshotAndCompactHolds(b, written, longer, outage);
    }
  }

  // ---- Whole lifetimes of one writer ----------------------------------------------------

  /** A command as it meets one lifetime: whether it snapshots, and which calls fail. */
  datatype Turn<+C> = Turn(command: C, snapshot: bool, outage: Outage)

  datatype Lifetime<+S, +E> = Lifetime(
    entry: Entry, state: S, seqNr: nat, published: seq<seq<E>>, results: seq<Result<(), JournalError>>)

  /** Serve turns until the flow says stop; `decide` is the actor's own command handler. */
  function Live<S, E, C>(
      b: Behaviour<S, E>, decide: (S, C) -> Effect<E>, entry: Entry, state: S, seqNr: nat, turns: seq<Turn<C>>)
    : Lifetime<S, E>
    decreases |turns|
  {
    if turns == [] then Lifetime(entry, state, seqNr, [], [])
    else
      var effect := decide(state, turns[0].command).(snapshot := turns[0].snapshot);
      var outcome := Handled(b, entry, state, seqNr, effect, turns[0].outage);
      if outcome.flow.Stop? then
        Lifetime(outcome.entry, outcome.state, outcome.seqNr, [outcome.published], [outcome.result])
      else
        var rest := Live(b, decide, outcome.entry, outcome.state, outcome.seqNr, turns[1..]);
        rest.(published := [outcome.published] + rest.published, results := [outcome.result] + rest.results)
  }

  /** The same commands and the same failed writes; snapshot flags and snapshot failures are free. */
  predicate SameCommands<C(==)>(xs: seq<Turn<C>>, ys: seq<Turn<C>>) {
    && |xs| == |ys|
    && forall k :: 0 <= k < |xs| ==>
         xs[k].command == ys[k].command && xs[k].outage.persist == ys[k].outage.persist
  }

  /**
   Two lifetimes of the same commands over two logs that hold the same history, however each
   of them snapshots and compacts: same states, numbers, publications and results, a recovery of
   either log gives the same state, and in the end both logs again hold one history.
   */
  lemma {:induction false} SnapshotsAreInvisible<S(!new), E(!new), C>(
      b: Behaviour<S, E>, decide: (S, C) -> Effect<E>, history: seq<E>,
      entry1: Entry, turns1: seq<Turn<C>>, entry2: Entry, turns2: seq<Turn<C>>)
    returns (end: seq<E>)
    requires RoundTrips(b) && Holds(b, entry1, history) && Holds(b, entry2, history)
    requires SameCommands(turns1, turns2)
    ensures var state := StateAt(b, history, |history|);
            var one := Live(b, decide, entry1, state, |history|, turns1);
            var two := Live(b, decide, entry2, state, |history|, turns2);
            && one.state == two.state && one.seqNr == two.seqNr
            && one.published == two.published && one.results == two.results
            && Recovered(b, one.entry) == Recovered(b, two.entry) == Ok((one.state, one.seqNr))
            && Holds(b, one.entry, end) && Holds(b, two.entry, end)
    ensures history <= end
    decreases |turns1|
  {
    var state := StateAt(b, history, |history|);
    end := history;
    if turns1 == [] {
      RecoveredIsTheWholeHistory(b, entry1, history);
      RecoveredIsTheWholeHistory(b, entry2, history);
    } else {
      var effect := decide(state, turns1[0].command);
      var effect1, effect2 := effect.(snapshot := turns1[0].snapshot), effect.(snapshot := turns2[0].snapshot);
      HandleRefinesPlainLog(b, entry1, history, effect1, turns1[0].outage);
      HandleRefinesPlainLog(b, entry2, history, effect2, turns2[0].outage);
      var plain := PlainHandled(b, history, state, effect, turns1[0].outage.persist);
      var next1 := Handled(b, entry1, state, |history|, effect1, turns1[0].outage).entry;
      var next2 := Handled(b, entry2, state, |history|, effect2, turns2[0].outage).entry;
      assert plain == PlainHandled(b, history, state, effect1, turns1[0].outage.persist)
                   == PlainHandled(b, history, state, effect2, turns2[0].outage.persist);
      RecoveredIsTheWholeHistory(b, next1, plain.history);
      RecoveredIsTheWholeHistory(b, next2, plain.history);
      end := SnapshotsAreInvisible(b, decide, plain.history, next1, turns1[1..], next2, turns2[1..]);
      if plain.flow.Stop? {
        end := plain.history;
      }
    }
  }

  /** One lifetime after another, each starting from what it recovers, until one cannot start. */
  function Lives<S, E, C>(b: Behaviour<S, E>, decide: (S, C) -> Effect<E>, entry: Entry, lives: seq<seq<Turn<C>>>)
    : seq<Lifetime<S, E>>
    decreases |lives|
  {
    if lives == [] then []
    else
      match Recovered(b, entry)
      case Err(_) => []
      case Ok((state, seqNr)) =>
        var first := Live(b, decide, entry, state, seqNr, lives[0]);
        [first] + Lives(b, decide, first.entry, lives[1..])
  }

  predicate SameLifetime<S(==), E(==)>(one: Lifetime<S, E>, two: Lifetime<S, E>) {
    one.state == two.state && one.seqNr == two.seqNr && one.published == two.published && one.results == two.results
  }

  lemma OneLifeAfterAnother<S, E, C>(
      b: Behaviour<S, E>, decide: (S, C) -> Effect<E>, history: seq<E>, entry: Entry, lives: seq<seq<Turn<C>>>)
    requires Holds(b, entry, history) && lives != []
    ensures var first := Live(b, decide, entry, StateAt(b, history, |history|), |history|, lives[0]);
            Lives(b, decide, entry, lives) == [first] + Lives(b, decide, first.entry, lives[1..])
  {
    RecoveredIsTheWholeHistory(b, entry, history);
  }

  lemma SameAgain<S, E>(one: Lifetime<S, E>, two: Lifetime<S, E>, ones: seq<Lifetime<S, E>>, twos: seq<Lifetime<S, E>>)
    requires SameLifetime(one, two) && |ones| == |twos|
    requires forall k :: 0 <= k < |ones| ==> SameLifetime(ones[k], twos[k])
    ensures forall k :: 0 <= k <= |ones| ==> SameLifetime(([one] + ones)[k], ([two] + twos)[k])
  {
  }

  /** And so across any number of restarts: every life starts, and goes the same way over both logs. */
  lemma {:induction false} SnapshotsStayInvisibleAcrossRestarts<S(!new), E(!new), C>(
      b: Behaviour<S, E>, decide: (S, C) -> Effect<E>, history: seq<E>,
      entry1: Entry, lives1: seq<seq<Turn<C>>>, entry2: Entry, lives2: seq<seq<Turn<C>>>)
    requires RoundTrips(b) && Holds(b, entry1, history) && Holds(b, entry2, history)
    requires |lives1| == |lives2| && forall k :: 0 <= k < |lives1| ==> SameCommands(lives1[k], lives2[k])
    ensures var ones, twos := Lives(b, decide, entry1, lives1), Lives(b, decide, entry2, lives2);
            && |ones| == |twos| == |lives1|
            && forall k :: 0 <= k < |ones| ==> SameLifetime(ones[k], twos[k])
    decreases |lives1|
  {
    if lives1 != [] {
      var state := StateAt(b, history, |history|);
      var one := Live(b, decide, entry1, state, |history|, lives1[0]);
      var two := Live(b, decide, entry2, state, |history|, lives2[0]);
      OneLifeAfterAnother(b, decide, history, entry1, lives1);
      OneLifeAfterAnother(b, decide, history, entry2, lives2);
      var end := SnapshotsAreInvisible(b, decide, history, entry1, lives1[0], entry2, lives2[0]);
      SnapshotsStayInvisibleAcrossRestarts(b, decide, end, one.entry, lives1[1..], two.entry, lives2[1..]);
      SameAgain(one, two, Lives(b, decide, one.entry, lives1[1..]), Lives(b, decide, two.entry, lives2[1..]));
    }
  }

  /**
   A fork by `copy_snapshot` to an unused id holds the source's history up to the snapshot, so it
   recovers the source's state at that point; from there `HandleRefinesPlainLog` and
   `SnapshotsAreInvisible` are about its own history alone.
   */
  lemma ForkHoldsTheSnapshotPrefix<S, E>(b: Behaviour<S, E>, source: Entry, history: seq<E>)
    requires Holds(b, source, history) && source.snapshot.Some?
    ensures var k := source.snapshot.value.seqNr;
            && k <= |history|
            && Holds(b, Forked(source.snapshot.value), history[..k])
            && Recovered(b, Forked(source.snapshot.value)) == Ok((StateAt(b, history, k), k))
  {
    var k := source.snapshot.value.seqNr;
    StateAtPrefix(b, history[..k], history[k..], k);
    assert history[..k] + history[k..] == history;
    RecoveredIsTheWholeHistory(b, Forked(source.snapshot.value), history[..k]);
  }

  // Source and fork in one journal.

  /** One writer's place: its log, and what it holds of it. */
  datatype Seat<+S> = Seat(entry: Entry, state: S, seqNr: nat)

  function NextSeat<S, E, C>(b: Behaviour<S, E>, decide: (S, C) -> Effect<E>, seat: Seat<S>, turn: Turn<C>): Seat<S> {
    var effect := decide(seat.state, turn.command).(snapshot := turn.snapshot);
    var outcome := Handled(b, seat.entry, seat.state, seat.seqNr, effect, turn.outage);
    Seat(outcome.entry, outcome.state, outcome.seqNr)
  }

  function Served<S, E, C>(b: Behaviour<S, E>, decide: (S, C) -> Effect<E>, seat: Seat<S>, turns: seq<Turn<C>>): Seat<S> {
    if turns == [] then seat
    else NextSeat(b, decide, Served(b, decide, seat, turns[..|turns| - 1]), turns[|turns| - 1])
  }

  /** A journal with a writer at each of two ids. */
  datatype Pair<+S> = Pair(inner: map<PersistenceId, Entry>, one: (S, nat), two: (S, nat))

  /** The writer at `id1`, or the one at `id2`, handles a command against the shared journal. */
  function Taken<S, E, C>(b: Behaviour<S, E>, decide: (S, C) -> Effect<E>, id1: PersistenceId, id2: PersistenceId,
                          pair: Pair<S>, first: bool, turn: Turn<C>): Pair<S>
  {
    var (state, seqNr) := if first then pair.one else pair.two;
    var id := if first then id1 else id2;
    var effect := decide(state, turn.command).(snapshot := turn.snapshot);
    var outcome := Handled(b, EntryOf(pair.inner, id), state, seqNr, effect, turn.outage);
    var inner := pair.inner[id := outcome.entry];
    if first then Pair(inner, (outcome.state, outcome.seqNr), pair.two)
    else Pair(inner, pair.one, (outcome.state, outcome.seqNr))
  }

  function TakenAll<S, E, C>(b: Behaviour<S, E>, decide: (S, C) -> Effect<E>, id1: PersistenceId, id2: PersistenceId,
                             pair: Pair<S>, steps: seq<(bool, Turn<C>)>): Pair<S>
  {
    if steps == [] then pair
    else
      var before := TakenAll(b, decide, id1, id2, pair, steps[..|steps| - 1]);
      Taken(b, decide, id1, id2, before, steps[|steps| - 1].0, steps[|steps| - 1].1)
  }

  /** The turns of one of the two writers, in order. */
  function TurnsOf<C>(steps: seq<(bool, Turn<C>)>, first: bool): seq<Turn<C>> {
    if steps == [] then []
    else
      var before := TurnsOf(steps[..|steps| - 1], first);
      if steps[|steps| - 1].0 == first then before + [steps[|steps| - 1].1] else before
  }

  /** Where one of the two writers is: its log, its state and its number. */
  function SeatOf<S>(pair: Pair<S>, id1: PersistenceId, id2: PersistenceId, first: bool): Seat<S> {
    if first then Seat(EntryOf(pair.inner, id1), pair.one.0, pair.one.1)
    else Seat(EntryOf(pair.inner, id2), pair.two.0, pair.two.1)
  }

  lemma TakenMovesOneSeat<S, E, C>(
      b: Behaviour<S, E>, decide: (S, C) -> Effect<E>, id1: PersistenceId, id2: PersistenceId,
      pair: Pair<S>, first: bool, turn: Turn<C>)
    requires id1 != id2
    ensures var after := Taken(b, decide, id1, id2, pair, first, turn);
            && SeatOf(after, id1, id2, first) == NextSeat(b, decide, SeatOf(pair, id1, id2, first), turn)
            && SeatOf(after, id1, id2, !first) == SeatOf(pair, id1, id2, !first)
            && forall id :: id != id1 && id != id2 ==> EntryOf(after.inner, id) == EntryOf(pair.inner, id)
  {
  }

  lemma ServedOneMore<S, E, C>(
      b: Behaviour<S, E>, decide: (S, C) -> Effect<E>, seat: Seat<S>, turns: seq<Turn<C>>, turn: Turn<C>)
    ensures Served(b, decide, seat, turns + [turn]) == NextSeat(b, decide, Served(b, decide, seat, turns), turn)
  {
    assert (turns + [turn])[..|turns|] == turns;
  }

  /**
   Two writers in one journal, in any interleaving, each go exactly the way they would alone, and no
   third log is touched.
   */
  lemma {:induction false} TwoLogsGoTheirOwnWays<S, E, C>(
      b: Behaviour<S, E>, decide: (S, C) -> Effect<E>, id1: PersistenceId, id2: PersistenceId,
      pair: Pair<S>, steps: seq<(bool, Turn<C>)>)
    requires id1 != id2
    ensures var end := TakenAll(b, decide, id1, id2, pair, steps);
            && SeatOf(end, id1, id2, true) == Served(b, decide, SeatOf(pair, id1, id2, true), TurnsOf(steps, true))
            && SeatOf(end, id1, id2, false) == Served(b, decide, SeatOf(pair, id1, id2, false), TurnsOf(steps, false))
            && forall id :: id != id1 && id != id2 ==> EntryOf(end.inner, id) == EntryOf(pair.inner, id)
  {
    if steps != [] {
      var front := steps[..|steps| - 1];
      var (first, turn) := steps[|steps| - 1];
      TwoLogsGoTheirOwnWays(b, decide, id1, id2, pair, front);
      TakenMovesOneSeat(b, decide, id1, id2, TakenAll(b, decide, id1, id2, pair, front), first, turn);
      ServedOneMore(b, decide, SeatOf(pair, id1, id2, first), TurnsOf(front, first), turn);
    }
  }

  /** A writer that starts with its log's whole history keeps it: its state is the fold of one plain history. */
  lemma {:induction false} ServedHolds<S(!new), E(!new), C>(
      b: Behaviour<S, E>, decide: (S, C) -> Effect<E>, entry: Entry, history: seq<E>, turns: seq<Turn<C>>)
    returns (end: seq<E>)
    requires RoundTrips(b) && Holds(b, entry, history)
    ensures var seat := Served(b, decide, Seat(entry, StateAt(b, history, |history|), |history|), turns);
            Holds(b, seat.entry, end) && seat.state == StateAt(b, end, |end|) && seat.seqNr == |end|
    ensures history <= end
  {
    end := history;
    if turns != [] {
      var before := ServedHolds(b, decide, entry, history, turns[..|turns| - 1]);
      var turn := turns[|turns| - 1];
      var effect := decide(StateAt(b, before, |before|), turn.command).(snapshot := turn.snapshot);
      var seat := Served(b, decide, Seat(entry, StateAt(b, history, |history|), |history|), turns[..|turns| - 1]);
      HandleRefinesPlainLog(b, seat.entry, before, effect, turn.outage);
      end := PlainHandled(b, before, seat.state, effect, turn.outage.persist).history;
    }
  }

  /**
   The fork evolves independently: from the moment of the copy, whatever source and fork do in one
   journal, the source holds an extension of its own history and the fork an extension of the source's
   history up to the snapshot, each as if the other were not there.
   */
  lemma AForkEvolvesIndependently<S(!new), E(!new), C>(
      b: Behaviour<S, E>, decide: (S, C) -> Effect<E>, from: PersistenceId, to: PersistenceId,
      inner: map<PersistenceId, Entry>, history: seq<E>, steps: seq<(bool, Turn<C>)>)
    returns (source: seq<E>, fork: seq<E>)
    requires RoundTrips(b) && from != to && Holds(b, EntryOf(inner, from), history)
    requires EntryOf(inner, from).snapshot.Some?
    ensures var snapshot := EntryOf(inner, from).snapshot.value;
            var k := snapshot.seqNr;
            && k <= |history| && history <= source && history[..k] <= fork
            && var start := Pair(inner[to := Forked(snapshot)], (StateAt(b, history, |history|), |history|),
                                 (StateAt(b, history, k), k));
               var end := TakenAll(b, decide, from, to, start, steps);
               && Holds(b, EntryOf(end.inner, from), source) && end.one == (StateAt(b, source, |source|), |source|)
               && Holds(b, EntryOf(end.inner, to), fork) && end.two == (StateAt(b, fork, |fork|), |fork|)
  {
    var entry := EntryOf(inner, from);
    var k := entry.snapshot.value.seqNr;
    var start := Pair(inner[to := Forked(entry.snapshot.value)], (StateAt(b, history, |history|), |history|),
                      (StateAt(b, history, k), k));
    ForkHoldsTheSnapshotPrefix(b, entry, history);
    StateAtPrefix(b, history[..k], history[k..], k);
    assert history[..k] + history[k..] == history;
    TwoLogsGoTheirOwnWays(b, decide, from, to, start, steps);
    source := ServedHolds(b, decide, entry, history, TurnsOf(steps, true));
    fork := ServedHolds(b, decide, Forked(entry.snapshot.value), history[..k], TurnsOf(steps, false));
  }

  // ---- The class inside the interleaved runs --------------------------------------------

  function WeatherOf(down: bool): Weather {
    if down then Down else Up
  }

  function HandleActions<E>(id: nat, effect: Effect<E>, outage: Outage): seq<Action<E>> {
    [Decide(id, effect), Persist(id, WeatherOf(outage.persist)), SaveSnapshot(id, WeatherOf(outage.save)),
     Compact(id, WeatherOf(outage.compact)), Finish(id)]
  }

  /** What the run records of an accepted batch: one publication, unless it is empty, and the claim. */
  ghost predicate Announces<S, E>(w: World<S, E>, w': World<S, E>, claim: Claim<E>, state: S) {
    w'.published == if claim.events == [] then w.published else w.published + [Publication(claim, state)]
  }

  /** The world after the write of a command, before its snapshot. */
  lemma WriteIsARun<S(!new), E(!new)>(
      b: Behaviour<S, E>, w: World<S, E>, id: nat, effect: Effect<E>, outage: Outage)
    requires id in w.instances && w.instances[id].phase.Idle?
    ensures var inst := w.instances[id];
            var r := WriteResult(b, w.entry, inst.seqNr, effect.events, outage.persist);
            var w' := Do(b, Do(b, w, Decide(id, effect)), Persist(id, WeatherOf(outage.persist)));
            && id in w'.instances && w'.instances[id].HasJob() && w'.instances[id].phase.job.effect == effect
            && (w'.instances[id].phase.Snapshotting? <==> r.Ok? && effect.snapshot && !effect.stop)
            && !w'.instances[id].phase.Compacting? && w'.acked == w.acked
            && (r.Ok? ==>
                  && w'.instances[id].phase.job.result == Ok(Claim(id, w.batches, inst.seqNr, effect.events))
                  && w'.entry == Appended(w.entry, EncodeAll(b, effect.events).value)
                  && w'.instances[id].state == Folded(b, inst.state, effect.events)
                  && w'.instances[id].seqNr == inst.seqNr + |effect.events|
                  && Announces(w, w', Claim(id, w.batches, inst.seqNr, effect.events), w'.instances[id].state))
            && (r.Err? ==>
                  && w'.instances[id].phase.job.result == Err(r.error)
                  && w'.entry == w.entry && w'.published == w.published
                  && w'.instances[id].state == inst.state && w'.instances[id].seqNr == inst.seqNr)
  {
  }

  lemma SnapshotIsARun<S, E>(b: Behaviour<S, E>, w: World<S, E>, id: nat, outage: Outage)
    requires id in w.instances && w.instances[id].HasJob() && !w.instances[id].phase.Compacting?
    ensures var inst := w.instances[id];
            var w' := Do(b, Do(b, w, SaveSnapshot(id, WeatherOf(outage.save))), Compact(id, WeatherOf(outage.compact)));
            && id in w'.instances && w'.acked == w.acked && w'.published == w.published
            && w'.instances[id] == inst.(phase := Replying(inst.phase.job))
            && w'.entry == if inst.phase.Snapshotting? then SnapshotAndCompact(b, w.entry, inst.state, inst.seqNr, outage)
                           else w.entry
  {
  }

  /** The ack is the last thing but stopping: it reports the claim of an accepted write, and only that. */
  lemma FinishIsARun<S, E>(b: Behaviour<S, E>, w: World<S, E>, id: nat)
    requires id in w.instances && w.instances[id].phase.Replying?
    ensures var job := w.instances[id].phase.job;
            var w' := Do(b, w, Finish(id));
            && w'.entry == w.entry && w'.published == w.published
            && w'.acked == (if job.effect.ack && job.result.Ok? then w.acked + [job.result.value] else w.acked)
            && (id in w'.instances <==> !job.effect.stop && !(job.result.Err? && job.result.error.Conflict?))
            && (id in w'.instances ==> w'.instances[id] == w.instances[id].(phase := Idle))
  {
  }

  /**
   A command is one stretch of the interleaved runs, and everything `Handle` gives back is what that
   stretch did: the log, the state, what was published, what was acknowledged, and whether it goes on.
   */
  lemma HandleIsARun<S(!new), E(!new)>(
      b: Behaviour<S, E>, w: World<S, E>, id: nat, effect: Effect<E>, outage: Outage)
    requires id in w.instances && w.instances[id].phase.Idle?
    ensures var inst := w.instances[id];
            var outcome := Handled(b, w.entry, inst.state, inst.seqNr, effect, outage);
            var claim := Claim(id, w.batches, inst.seqNr, outcome.published);
            var w' := Run(b, w, HandleActions(id, effect, outage));
            && w'.entry == outcome.entry
            && (outcome.flow.Stop? <==> id !in w'.instances)
            && (outcome.flow.Continue? ==> w'.instances[id] == Instance(outcome.state, outcome.seqNr, Idle))
            && Announces(w, w', claim, outcome.state)
            && w'.acked == if effect.ack && outcome.result.Ok? then w.acked + [claim] else w.acked
  {
    var a := HandleActions(id, effect, outage);
    var w2 := Do(b, Do(b, w, a[0]), a[1]);
    var w4 := Do(b, Do(b, w2, a[2]), a[3]);
    FiveSteps(b, w, a);
    WriteIsARun(b, w, id, effect, outage);
    SnapshotIsARun(b, w2, id, outage);
    FinishIsARun(b, w4, id);
  }

  lemma FiveSteps<S, E>(b: Behaviour<S, E>, w: World<S, E>, a: seq<Action<E>>)
    requires |a| == 5
    ensures Run(b, w, a) == Do(b, Do(b, Do(b, Do(b, Do(b, w, a[0]), a[1]), a[2]), a[3]), a[4])
  {
    var w1 := Do(b, w, a[0]);
    var w2 := Do(b, w1, a[1]);
    var w3 := Do(b, w2, a[2]);
    var w4 := Do(b, w3, a[3]);
    TraceIsRun(b, [w, w1, w2, w3, w4, Do(b, w4, a[4])], a);
  }
}
