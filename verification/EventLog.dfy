/**
 Any number of instances of one actor sharing one log, with nothing coordinating them but the
 journal's own conditions (`src/persistent.rs`, `src/journal.rs`).

 One journal call is one step. Between any two steps of an instance every other instance may
 take steps of its own, and an instance may crash, lose its handler or have a call fail. The
 world also carries what no host can see: the full history of accepted events, which batch each
 event arrived in, and what was acknowledged and published.
 */
module EventLog {
  import opened Wrappers
  import opened Journal
  import opened EventSourcing

  /** A batch the journal accepted, as the instance that wrote it reports it. */
  datatype Claim<+E> = Claim(id: nat, batch: nat, start: nat, events: seq<E>) {
    function End(): nat { start + |events| }
  }

  datatype Publication<+S, +E> = Publication(claim: Claim<E>, state: S)

  /** What is left of one command once its write has an outcome. */
  datatype Job<+E> = Job(effect: Effect<E>, result: Result<Claim<E>, JournalError>)

  datatype Phase<+S, +E> =
    | Reading                                // about to call latest_snapshot
    | Replaying(base: S, baseSeq: nat)       // snapshot read, about to call replay
    | Idle
    | Writing(effect: Effect<E>)             // decided, about to call persist
    | Snapshotting(job: Job<E>)              // written, about to call save_snapshot
    | Compacting(job: Job<E>)                // snapshot saved, about to call delete_events_before
    | Replying(job: Job<E>)                  // about to ack, and then stop or carry on

  datatype Instance<+S, +E> = Instance(state: S, seqNr: nat, phase: Phase<S, E>) {
    predicate Ready() { !phase.Reading? && !phase.Replaying? }

    predicate HasJob() { phase.Snapshotting? || phase.Compacting? || phase.Replying? }

    predicate HasClaim() { HasJob() && phase.job.result.Ok? }
  }

  datatype World<+S, +E> = World(
    entry: Entry,
    history: seq<E>,
    authors: seq<nat>,          // the batch each event of the history arrived in
    batches: nat,
    spawned: nat,
    instances: map<nat, Instance<S, E>>,
    acked: seq<Claim<E>>,
    published: seq<Publication<S, E>>
  )

  /** How one journal call goes: it works, it fails untouched, or it lands and its reply is lost. */
  datatype Weather = Up | Down | Lost

  datatype Action<+E> =
    | Spawn
    | ReadSnapshot(id: nat, weather: Weather)
    | Replay(id: nat, weather: Weather)
    | Decide(id: nat, effect: Effect<E>)
    | Persist(id: nat, weather: Weather)
    | SaveSnapshot(id: nat, weather: Weather)
    | Compact(id: nat, weather: Weather)
    | Finish(id: nat)
    | Crash(id: nat)

  function Initial<S, E>(): World<S, E> {
    World(EMPTY, [], [], 0, 0, map[], [], [])
  }

  function Put<S, E>(w: World<S, E>, id: nat, inst: Instance<S, E>): World<S, E> {
    w.(instances := w.instances[id := inst])
  }

  function Gone<S, E>(w: World<S, E>, id: nat): World<S, E> {
    w.(instances := w.instances - {id})
  }

  /** The append landed: log, history and batch numbering move together. */
  function Landed<S, E>(w: World<S, E>, blobs: seq<Blob>, events: seq<E>): World<S, E> {
    w.(entry := Appended(w.entry, blobs),
       history := w.history + events,
       authors := w.authors + seq(|events|, _ => w.batches),
       batches := w.batches + 1)
  }

  function DoReadSnapshot<S, E>(b: Behaviour<S, E>, w: World<S, E>, id: nat, weather: Weather): World<S, E>
    requires id in w.instances
  {
    if !w.instances[id].phase.Reading? then w
    else if !weather.Up? then Gone(w, id)
    else
      match SnapshotState(b, w.entry.snapshot)
      case Err(_) => Gone(w, id)
      case Ok((state, seqNr)) => Put(w, id, w.instances[id].(phase := Replaying(state, seqNr)))
  }

  function DoReplay<S, E>(b: Behaviour<S, E>, w: World<S, E>, id: nat, weather: Weather): World<S, E>
    requires id in w.instances
  {
    var inst := w.instances[id];
    if !inst.phase.Replaying? then w
    else if !weather.Up? then Gone(w, id)
    else
      match FoldStream(b, inst.phase.base, inst.phase.baseSeq, After(w.entry.events, inst.phase.baseSeq))
      case Err(_) => Gone(w, id)
      case Ok((state, seqNr)) => Put(w, id, Instance(state, seqNr, Idle))
  }

  function DoPersist<S, E>(b: Behaviour<S, E>, w: World<S, E>, id: nat, weather: Weather): World<S, E>
    requires id in w.instances
  {
    var inst := w.instances[id];
    if !inst.phase.Writing? then w
    else
      var effect := inst.phase.effect;
      match EncodeAll(b, effect.events)
      case None => Put(w, id, inst.(phase := Replying(Job(effect, Err(Serialization)))))
      case Some(blobs) =>
        var admitted := Admit(w.entry, inst.seqNr);
        if weather.Down? || (weather.Lost? && admitted.Err?) then
          Put(w, id, inst.(phase := Replying(Job(effect, Err(Backend)))))
        else if weather.Lost? then
          Put(Landed(w, blobs, effect.events), id, inst.(phase := Replying(Job(effect, Err(Backend)))))
        else if admitted.Err? then
          Put(w, id, inst.(phase := Replying(Job(effect, Err(admitted.error)))))
        else
          Written(b, Landed(w, blobs, effect.events), id, inst, effect, Claim(id, w.batches, inst.seqNr, effect.events))
  }

  /** After an accepted write: fold, publish a non-empty batch, then snapshot unless stopping. */
  function Written<S, E>(
      b: Behaviour<S, E>, w: World<S, E>, id: nat, inst: Instance<S, E>, effect: Effect<E>, claim: Claim<E>)
    : World<S, E>
  {
    var state := Folded(b, inst.state, effect.events);
    var job := Job(effect, Ok(claim));
    var phase := if effect.snapshot && !effect.stop then Snapshotting(job) else Replying(job);
    var published := if effect.events == [] then w.published else w.published + [Publication(claim, state)];
    Put(w.(published := published), id, Instance(state, inst.seqNr + |effect.events|, phase))
  }

  function DoSaveSnapshot<S, E>(b: Behaviour<S, E>, w: World<S, E>, id: nat, weather: Weather): World<S, E>
    requires id in w.instances
  {
    var inst := w.instances[id];
    if !inst.phase.Snapshotting? then w
    else
      var done := inst.(phase := Replying(inst.phase.job));
      match b.encodeState(inst.state)
      case None => Put(w, id, done)
      case Some(blob) =>
        if weather.Down? || Admit(w.entry, inst.seqNr).Err? then Put(w, id, done)
        else
          var saved := w.(entry := Snapshotted(w.entry, blob, inst.seqNr));
          if weather.Lost? then Put(saved, id, done)
          else Put(saved, id, inst.(phase := Compacting(inst.phase.job)))
  }

  function DoCompact<S, E>(w: World<S, E>, id: nat, weather: Weather): World<S, E>
    requires id in w.instances
  {
    var inst := w.instances[id];
    if !inst.phase.Compacting? then w
    else
      var done := inst.(phase := Replying(inst.phase.job));
      if weather.Down? then Put(w, id, done)
      else Put(w.(entry := Compacted(w.entry, inst.seqNr)), id, done)
  }

  function DoFinish<S, E>(w: World<S, E>, id: nat): World<S, E>
    requires id in w.instances
  {
    var inst := w.instances[id];
    if !inst.phase.Replying? then w
    else
      var job := inst.phase.job;
      var told := if job.effect.ack && job.result.Ok? then w.(acked := w.acked + [job.result.value]) else w;
      if job.effect.stop || (job.result.Err? && job.result.error.Conflict?) then Gone(told, id)
      else Put(told, id, inst.(phase := Idle))
  }

  function Do<S, E>(b: Behaviour<S, E>, w: World<S, E>, action: Action<E>): World<S, E> {
    if action.Spawn? then
      Put(w, w.spawned, Instance(b.initial, 0, Reading)).(spawned := w.spawned + 1)
    else if action.id !in w.instances then w
    else
      match action
      case ReadSnapshot(id, weather) => DoReadSnapshot(b, w, id, weather)
      case Replay(id, weather) => DoReplay(b, w, id, weather)
      case Decide(id, effect) =>
        if w.instances[id].phase.Idle? then Put(w, id, w.instances[id].(phase := Writing(effect))) else w
      case Persist(id, weather) => DoPersist(b, w, id, weather)
      case SaveSnapshot(id, weather) => DoSaveSnapshot(b, w, id, weather)
      case Compact(id, weather) => DoCompact(w, id, weather)
      case Finish(id) => DoFinish(w, id)
      case Crash(id) => Gone(w, id)
  }

  function Run<S, E>(b: Behaviour<S, E>, w: World<S, E>, actions: seq<Action<E>>): World<S, E>
    decreases |actions|
  {
    if actions == [] then w else Run(b, Do(b, w, actions[0]), actions[1..])
  }

  lemma {:induction false} RunConcat<S, E>(b: Behaviour<S, E>, w: World<S, E>, xs: seq<Action<E>>, ys: seq<Action<E>>)
    ensures Run(b, w, xs + ys) == Run(b, Run(b, w, xs), ys)
    decreases |xs|
  {
    if xs == [] {
      assert xs + ys == ys;
    } else {
      assert (xs + ys)[1..] == xs[1..] + ys;
      RunConcat(b, Do(b, w, xs[0]), xs[1..], ys);
    }
  }

  /** A list of worlds, each one step after the last, is a run. */
  lemma {:induction false} TraceIsRun<S, E>(b: Behaviour<S, E>, trace: seq<World<S, E>>, actions: seq<Action<E>>)
    requires |trace| == |actions| + 1
    requires forall k :: 0 <= k < |actions| ==> trace[k + 1] == Do(b, trace[k], actions[k])
    ensures Run(b, trace[0], actions) == trace[|actions|]
    decreases |actions|
  {
    if actions != [] {
      forall k | 0 <= k < |actions[1..]|
        ensures trace[1..][k + 1] == Do(b, trace[1..][k], actions[1..][k])
      {
        assert actions[1..][k] == actions[k + 1];
      }
      TraceIsRun(b, trace[1..], actions[1..]);
    }
  }

  /** How many events compaction has removed from the front of the log. */
  function Floor(entry: Entry): int {
    entry.lastSeq - |entry.events|
  }

  /** A replay that starts below what another writer has since compacted, and still finds events. */
  predicate Gapped<S, E>(w: World<S, E>, action: Action<E>) {
    && action.Replay? && action.id in w.instances && w.instances[action.id].phase.Replaying?
    && Floor(w.entry) > w.instances[action.id].phase.baseSeq
    && w.entry.events != []
  }

  /** No recovery of the run was overtaken between its two reads by a compaction and an append. */
  predicate NoGap<S, E>(b: Behaviour<S, E>, w: World<S, E>, actions: seq<Action<E>>)
    decreases |actions|
  {
    actions == [] || (!Gapped(w, actions[0]) && NoGap(b, Do(b, w, actions[0]), actions[1..]))
  }

  // ---- What every run keeps, whatever happens -------------------------------------------

  /** The stored events are the tail of the history, numbered as they always were. */
  ghost predicate HoldsTail<S, E>(b: Behaviour<S, E>, entry: Entry, history: seq<E>) {
    && entry.lastSeq == |history|
    && |entry.events| <= |history|
    && forall i :: 0 <= i < |entry.events| ==>
         && entry.events[i].seqNr == Floor(entry) + 1 + i
         && b.decodeEvent(entry.events[i].blob) == Some(history[Floor(entry) + i])
  }

  /** Compaction never passes the stored snapshot, and the snapshot never passes the log. */
  predicate SnapshotCovers(entry: Entry) {
    && (entry.snapshot.None? ==> Floor(entry) == 0)
    && (entry.snapshot.Some? ==> Floor(entry) <= entry.snapshot.value.seqNr <= entry.lastSeq)
  }

  ghost predicate InstanceInLog<S, E>(entry: Entry, inst: Instance<S, E>) {
    && inst.seqNr <= entry.lastSeq
    && (inst.phase.Replaying? ==>
          inst.phase.baseSeq <= if entry.snapshot.Some? then entry.snapshot.value.seqNr else 0)
    && (inst.phase.Compacting? ==> entry.snapshot.Some? && inst.seqNr <= entry.snapshot.value.seqNr)
  }

  ghost predicate LogInv<S, E>(b: Behaviour<S, E>, w: World<S, E>) {
    && HoldsTail(b, w.entry, w.history)
    && SnapshotCovers(w.entry)
    && forall id :: id in w.instances ==> id < w.spawned && InstanceInLog(w.entry, w.instances[id])
  }

  // ---- What it keeps while no recovery reads across a gap -------------------------------

  ghost predicate SnapshotTrue<S, E>(b: Behaviour<S, E>, w: World<S, E>) {
    w.entry.snapshot.Some? ==>
      && w.entry.snapshot.value.seqNr <= |w.history|
      && b.decodeState(w.entry.snapshot.value.blob) == Some(StateAt(b, w.history, w.entry.snapshot.value.seqNr))
  }

  ghost predicate InstanceTrue<S, E>(b: Behaviour<S, E>, history: seq<E>, inst: Instance<S, E>) {
    && inst.seqNr <= |history|
    && (inst.Ready() ==> inst.state == StateAt(b, history, inst.seqNr))
    && (inst.phase.Replaying? ==>
          && inst.phase.baseSeq <= |history|
          && inst.phase.base == StateAt(b, history, inst.phase.baseSeq))
  }

  ghost predicate PublishedTrue<S, E>(b: Behaviour<S, E>, w: World<S, E>) {
    forall p :: p in w.published ==>
      p.claim.End() <= |w.history| && p.state == StateAt(b, w.history, p.claim.End())
  }

  ghost predicate StatesTrue<S, E>(b: Behaviour<S, E>, w: World<S, E>) {
    && SnapshotTrue(b, w)
    && PublishedTrue(b, w)
    && forall id :: id in w.instances ==> InstanceTrue(b, w.history, w.instances[id])
  }

  lemma AppendedKeepsTail<S(!new), E(!new)>(b: Behaviour<S, E>, entry: Entry, history: seq<E>, events: seq<E>)
    requires RoundTrips(b) && EncodeAll(b, events).Some? && HoldsTail(b, entry, history)
    ensures HoldsTail(b, Appended(entry, EncodeAll(b, events).value), history + events)
    ensures Floor(Appended(entry, EncodeAll(b, events).value)) == Floor(entry)
  {
    EncodedDecodes(b, events);
  }

  lemma CompactedKeepsTail<S, E>(b: Behaviour<S, E>, entry: Entry, history: seq<E>, seqNr: nat)
    requires HoldsTail(b, entry, history) && seqNr <= entry.lastSeq
    ensures HoldsTail(b, Compacted(entry, seqNr), history)
    ensures Floor(Compacted(entry, seqNr)) == if seqNr < Floor(entry) then Floor(entry) else seqNr
  {
    AfterIsDrop(entry.events, Floor(entry) + 1, seqNr);
  }

  lemma PersistKeepsLog<S(!new), E(!new)>(b: Behaviour<S, E>, w: World<S, E>, id: nat, weather: Weather)
    requires RoundTrips(b) && LogInv(b, w) && id in w.instances
    ensures LogInv(b, DoPersist(b, w, id, weather))
  {
    var inst := w.instances[id];
    if inst.phase.Writing? && EncodeAll(b, inst.phase.effect.events).Some? {
      var events := inst.phase.effect.events;
      AppendedKeepsTail(b, w.entry, w.history, events);
      var w' := DoPersist(b, w, id, weather);
      forall other | other in w'.instances
        ensures other < w'.spawned && InstanceInLog(w'.entry, w'.instances[other])
      {
        assert InstanceInLog(w.entry, w.instances[other]);
      }
    }
  }

  lemma CompactKeepsLog<S, E>(b: Behaviour<S, E>, w: World<S, E>, id: nat, weather: Weather)
    requires LogInv(b, w) && id in w.instances
    ensures LogInv(b, DoCompact(w, id, weather))
  {
    CompactedKeepsTail(b, w.entry, w.history, w.instances[id].seqNr);
  }

  lemma ReplayKeepsLog<S, E>(b: Behaviour<S, E>, w: World<S, E>, id: nat, weather: Weather)
    requires LogInv(b, w) && id in w.instances
    ensures LogInv(b, DoReplay(b, w, id, weather))
  {
    if w.instances[id].phase.Replaying? {
      ReplayStaysInLog(b, w, id);
    }
  }

  lemma ReadSnapshotKeepsLog<S, E>(b: Behaviour<S, E>, w: World<S, E>, id: nat, weather: Weather)
    requires LogInv(b, w) && id in w.instances
    ensures LogInv(b, DoReadSnapshot(b, w, id, weather))
  {
  }

  lemma SaveSnapshotKeepsLog<S, E>(b: Behaviour<S, E>, w: World<S, E>, id: nat, weather: Weather)
    requires LogInv(b, w) && id in w.instances
    ensures LogInv(b, DoSaveSnapshot(b, w, id, weather))
  {
  }

  lemma FinishKeepsLog<S, E>(b: Behaviour<S, E>, w: World<S, E>, id: nat)
    requires LogInv(b, w) && id in w.instances
    ensures LogInv(b, DoFinish(w, id))
  {
  }

  /** Every step keeps the log's own invariant, gaps in recoveries included. */
  lemma StepKeepsLog<S(!new), E(!new)>(b: Behaviour<S, E>, w: World<S, E>, action: Action<E>)
    requires RoundTrips(b) && LogInv(b, w)
    ensures LogInv(b, Do(b, w, action))
  {
    if !action.Spawn? && action.id in w.instances {
      match action
      case ReadSnapshot(id, weather) => ReadSnapshotKeepsLog(b, w, id, weather);
      case Replay(id, weather) => ReplayKeepsLog(b, w, id, weather);
      case Persist(id, weather) => PersistKeepsLog(b, w, id, weather);
      case SaveSnapshot(id, weather) => SaveSnapshotKeepsLog(b, w, id, weather);
      case Compact(id, weather) => CompactKeepsLog(b, w, id, weather);
      case Finish(id) => FinishKeepsLog(b, w, id);
      case _ =>
    }
  }

  lemma {:induction false} FoldStreamNumber<S, E>(b: Behaviour<S, E>, state: S, seqNr: nat, items: seq<Numbered>)
    ensures var r := FoldStream(b, state, seqNr, items);
            r.Ok? ==> r.value.1 == if items == [] then seqNr else items[|items| - 1].seqNr
    decreases |items|
  {
    if items != [] && b.decodeEvent(items[0].blob).Some? {
      FoldStreamNumber(b, b.apply(state, b.decodeEvent(items[0].blob).value), items[0].seqNr, items[1..]);
    }
  }

  lemma ReplayStaysInLog<S, E>(b: Behaviour<S, E>, w: World<S, E>, id: nat)
    requires LogInv(b, w) && id in w.instances && w.instances[id].phase.Replaying?
    ensures var inst := w.instances[id];
            var r := FoldStream(b, inst.phase.base, inst.phase.baseSeq, After(w.entry.events, inst.phase.baseSeq));
            r.Ok? ==> r.value.1 <= w.entry.lastSeq
  {
    var inst := w.instances[id];
    var items := After(w.entry.events, inst.phase.baseSeq);
    AfterIsDrop(w.entry.events, Floor(w.entry) + 1, inst.phase.baseSeq);
    FoldStreamNumber(b, inst.phase.base, inst.phase.baseSeq, items);
  }

  /** In every run the log is one history: numbered, contiguous, never compacted past its snapshot. */
  lemma {:induction false} RunKeepsLog<S(!new), E(!new)>(b: Behaviour<S, E>, w: World<S, E>, actions: seq<Action<E>>)
    requires RoundTrips(b) && LogInv(b, w)
    ensures LogInv(b, Run(b, w, actions))
    decreases |actions|
  {
    if actions != [] {
      StepKeepsLog(b, w, actions[0]);
      RunKeepsLog(b, Do(b, w, actions[0]), actions[1..]);
    }
  }
}
