/**
 What recovery reconstructs (`recover`, src/persistent.rs:130-155).

 Recovery reads twice: the snapshot, then the events after it. Between the two reads another
 writer may snapshot, compact and append. The state recovered is a true prefix of the history
 exactly when the second read does not start below the compaction floor of a log that has
 events left; `GapRun` shows a run where it does, and that the fence does not notice.
 */
module Recovery {
  import opened Wrappers
  import opened Journal
  import opened EventSourcing
  import opened EventLog

  /** The outcome of an instance's second read against the log as it stands. */
  function Replayed<S, E>(b: Behaviour<S, E>, w: World<S, E>, id: nat): Result<(S, nat), JournalError>
    requires id in w.instances && w.instances[id].phase.Replaying?
  {
    var phase := w.instances[id].phase;
    FoldStream(b, phase.base, phase.baseSeq, After(w.entry.events, phase.baseSeq))
  }

  /**
   Recovery without a gap is exact: it reports a number, and its state is the fold of the
   history up to that number. It reaches the end of the history unless a compaction overtook
   it, and then it stays at its snapshot, behind a log that will refuse it.
   */
  lemma RecoveryIsExact<S, E>(b: Behaviour<S, E>, w: World<S, E>, id: nat)
    requires LogInv(b, w) && StatesTrue(b, w)
    requires id in w.instances && w.instances[id].phase.Replaying?
    requires !Gapped(w, Replay(id, Up))
    ensures var baseSeq := w.instances[id].phase.baseSeq;
            var n := if Floor(w.entry) <= baseSeq then |w.history| else baseSeq;
            && n <= |w.history|
            && Replayed(b, w, id) == Ok((StateAt(b, w.history, n), n))
            && (n < |w.history| ==> Admit(w.entry, n) == Err(Conflict(n, |w.history|)))
  {
    var phase := w.instances[id].phase;
    var items := After(w.entry.events, phase.baseSeq);
    AfterIsDrop(w.entry.events, Floor(w.entry) + 1, phase.baseSeq);
    if Floor(w.entry) <= phase.baseSeq {
      FoldStreamIsStateAt(b, w.history, phase.baseSeq, items);
    }
  }

  lemma LandedKeepsTruth<S, E>(b: Behaviour<S, E>, w: World<S, E>, blobs: seq<Blob>, events: seq<E>)
    requires StatesTrue(b, w)
    ensures StatesTrue(b, Landed(w, blobs, events))
  {
    var w' := Landed(w, blobs, events);
    StateAtExtends(b, w.history, events);
    forall id | id in w'.instances
      ensures InstanceTrue(b, w'.history, w'.instances[id])
    {
      assert InstanceTrue(b, w.history, w.instances[id]);
    }
  }

  lemma PutKeepsTruth<S, E>(
      b: Behaviour<S, E>, w: World<S, E>, id: nat, inst: Instance<S, E>, published: seq<Publication<S, E>>)
    requires StatesTrue(b, w) && InstanceTrue(b, w.history, inst) && PublishedTrue(b, w.(published := published))
    ensures StatesTrue(b, Put(w.(published := published), id, inst))
  {
  }

  lemma WrittenKeepsTruth<S, E>(
      b: Behaviour<S, E>, w: World<S, E>, id: nat, blobs: seq<Blob>, effect: Effect<E>, claim: Claim<E>)
    requires StatesTrue(b, w) && id in w.instances && w.instances[id].phase.Writing?
    requires w.instances[id].seqNr == |w.history| == claim.start && claim.events == effect.events
    ensures StatesTrue(b, Written(b, Landed(w, blobs, effect.events), id, w.instances[id], effect, claim))
  {
    assert InstanceTrue(b, w.history, w.instances[id]);
    LandedKeepsTruth(b, w, blobs, effect.events);
    FoldedIsStateAt(b, w.history, effect.events);
    var landed := Landed(w, blobs, effect.events);
    var written := Written(b, landed, id, w.instances[id], effect, claim);
    PutKeepsTruth(b, landed, id, written.instances[id], written.published);
  }

  lemma PersistKeepsTruth<S, E>(b: Behaviour<S, E>, w: World<S, E>, id: nat, weather: Weather)
    requires LogInv(b, w) && StatesTrue(b, w) && id in w.instances
    ensures StatesTrue(b, DoPersist(b, w, id, weather))
  {
    var inst := w.instances[id];
    assert InstanceTrue(b, w.history, inst);
    if inst.phase.Writing? && EncodeAll(b, inst.phase.effect.events).Some? {
      var effect := inst.phase.effect;
      var blobs := EncodeAll(b, effect.events).value;
      if weather.Lost? {
        LandedKeepsTruth(b, w, blobs, effect.events);
      } else if Admit(w.entry, inst.seqNr).Ok? {
        WrittenKeepsTruth(b, w, id, blobs, effect, Claim(id, w.batches, inst.seqNr, effect.events));
      }
    }
  }

  lemma ReplayKeepsTruth<S, E>(b: Behaviour<S, E>, w: World<S, E>, id: nat, weather: Weather)
    requires LogInv(b, w) && StatesTrue(b, w) && id in w.instances
    requires !Gapped(w, Replay(id, weather))
    ensures StatesTrue(b, DoReplay(b, w, id, weather))
  {
    if w.instances[id].phase.Replaying? {
      RecoveryIsExact(b, w, id);
    }
  }

  lemma SaveSnapshotKeepsTruth<S(!new), E(!new)>(b: Behaviour<S, E>, w: World<S, E>, id: nat, weather: Weather)
    requires RoundTrips(b) && LogInv(b, w) && StatesTrue(b, w) && id in w.instances
    ensures StatesTrue(b, DoSaveSnapshot(b, w, id, weather))
  {
    assert InstanceTrue(b, w.history, w.instances[id]);
  }

  lemma StepKeepsTruth<S(!new), E(!new)>(b: Behaviour<S, E>, w: World<S, E>, action: Action<E>)
    requires RoundTrips(b) && LogInv(b, w) && StatesTrue(b, w) && !Gapped(w, action)
    ensures StatesTrue(b, Do(b, w, action))
  {
    if !action.Spawn? && action.id in w.instances {
      assert InstanceTrue(b, w.history, w.instances[action.id]);
      match action
      case Replay(id, weather) => ReplayKeepsTruth(b, w, id, weather);
      case Persist(id, weather) => PersistKeepsTruth(b, w, id, weather);
      case SaveSnapshot(id, weather) => SaveSnapshotKeepsTruth(b, w, id, weather);
      case _ =>
    }
  }

  /**
   The theorem of the log. Over every interleaving of any number of instances, with failed
   writes, lost replies, late compactions and crashes, as long as no recovery reads across a
   gap: the stored snapshot is the fold of the history up to its number, and so is the state of
   every instance up to its own.
   */
  lemma {:induction false} RunKeepsTruth<S(!new), E(!new)>(b: Behaviour<S, E>, w: World<S, E>, actions: seq<Action<E>>)
    requires RoundTrips(b) && LogInv(b, w) && StatesTrue(b, w) && NoGap(b, w, actions)
    ensures LogInv(b, Run(b, w, actions)) && StatesTrue(b, Run(b, w, actions))
    decreases |actions|
  {
    if actions != [] {
      StepKeepsLog(b, w, actions[0]);
      StepKeepsTruth(b, w, actions[0]);
      RunKeepsTruth(b, Do(b, w, actions[0]), actions[1..]);
    }
  }

  lemma EveryRunIsOneHistory<S(!new), E(!new)>(b: Behaviour<S, E>, actions: seq<Action<E>>)
    requires RoundTrips(b)
    ensures var w := Run(b, Initial(), actions);
            LogInv(b, w) && (NoGap(b, Initial(), actions) ==> StatesTrue(b, w))
  {
    RunKeepsLog(b, Initial(), actions);
    if NoGap(b, Initial(), actions) {
      RunKeepsTruth(b, Initial(), actions);
    }
  }

  // ---- The gap is exactly the failing case ----------------------------------------------

  /** An actor whose state is its history: it forgets nothing a recovery could get wrong. */
  ghost predicate IsRecorder<E(!new)>(b: Behaviour<seq<E>, E>) {
    && b.initial == []
    && forall s: seq<E>, e: E :: b.apply(s, e) == s + [e]
  }

  lemma {:induction false} RecorderStateAt<E(!new)>(b: Behaviour<seq<E>, E>, history: seq<E>, n: nat)
    requires IsRecorder(b) && n <= |history|
    ensures StateAt(b, history, n) == history[..n]
  {
    if n > 0 {
      RecorderStateAt(b, history, n - 1);
      assert history[..n] == history[..n - 1] + [history[n - 1]];
    }
  }

  lemma {:induction false} RecorderReplay<E(!new)>(
      b: Behaviour<seq<E>, E>, state: seq<E>, seqNr: nat, items: seq<Numbered>, tail: seq<E>)
    requires IsRecorder(b) && |items| == |tail|
    requires forall i :: 0 <= i < |items| ==> b.decodeEvent(items[i].blob) == Some(tail[i])
    ensures FoldStream(b, state, seqNr, items)
         == Ok((state + tail, if items == [] then seqNr else items[|items| - 1].seqNr))
    decreases |items|
  {
    if items == [] {
      assert state + tail == state;
    } else {
      RecorderReplay(b, state + [tail[0]], items[0].seqNr, items[1..], tail[1..]);
      assert state + [tail[0]] + tail[1..] == state + tail;
    }
  }

  /**
   Exactly when recovery is right. For the recording actor the recovered state is the history
   up to the recovered number if and only if the second read does not cross a gap.
   */
  lemma RecoveryIsRightIffNoGap<E(!new)>(b: Behaviour<seq<E>, E>, w: World<seq<E>, E>, id: nat)
    requires IsRecorder(b) && LogInv(b, w) && StatesTrue(b, w)
    requires id in w.instances && w.instances[id].phase.Replaying?
    ensures Replayed(b, w, id).Ok? && Replayed(b, w, id).value.1 <= |w.history|
    ensures Replayed(b, w, id).value.0 == w.history[..Replayed(b, w, id).value.1]
       <==> !(Floor(w.entry) > w.instances[id].phase.baseSeq && w.entry.events != [])
  {
    var phase := w.instances[id].phase;
    assert InstanceTrue(b, w.history, w.instances[id]);
    RecorderStateAt(b, w.history, phase.baseSeq);
    AfterIsDrop(w.entry.events, Floor(w.entry) + 1, phase.baseSeq);
    if Gapped(w, Replay(id, Up)) {
      RecorderReplay(b, phase.base, phase.baseSeq, w.entry.events, w.history[Floor(w.entry)..]);
    } else {
      RecoveryIsExact(b, w, id);
      RecorderStateAt(b, w.history, Replayed(b, w, id).value.1);
    }
  }
}
