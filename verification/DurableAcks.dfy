/**
 What an acknowledgement means (src/persistent.rs:62-125, src/persistent.rs:162-191): the batch
 is in the history, whole and contiguous, at a place no other batch occupies, after everything
 the same instance acknowledged before, and it was published first. Every later recovery that
 no compaction has overtaken has folded it.
 */
module DurableAcks {
  import opened Wrappers
  import opened Journal
  import opened EventSourcing
  import opened EventLog
  import opened Recovery

  /** The batch sits in the history at its start, and its number marks exactly its own events. */
  ghost predicate ClaimHolds<S, E>(w: World<S, E>, c: Claim<E>) {
    && c.End() <= |w.history| == |w.authors|
    && w.history[c.start..c.End()] == c.events
    && c.batch < w.batches
    && forall i :: 0 <= i < |w.authors| ==> (w.authors[i] == c.batch <==> c.start <= i < c.End())
  }

  /** Up to where an instance has already acknowledged at most. */
  function AckedUpTo<S, E>(inst: Instance<S, E>): nat {
    if inst.HasClaim() then inst.phase.job.result.value.start else inst.seqNr
  }

  ghost predicate AckedHold<S, E>(w: World<S, E>) {
    && (forall k :: 0 <= k < |w.acked| ==> ClaimHolds(w, w.acked[k]) && w.acked[k].id < w.spawned)
    && (forall j, k :: 0 <= j < k < |w.acked| ==>
          && w.acked[j].batch != w.acked[k].batch
          && (w.acked[j].id == w.acked[k].id ==> w.acked[j].End() <= w.acked[k].start))
  }

  ghost predicate PendingHold<S, E>(w: World<S, E>, id: nat)
    requires id in w.instances
  {
    var inst := w.instances[id];
    && id < w.spawned
    && (inst.HasClaim() ==>
          var c := inst.phase.job.result.value;
          && c.id == id && ClaimHolds(w, c) && c.End() == inst.seqNr
          && (c.events != [] ==> exists p :: p in w.published && p.claim == c)
          && forall k :: 0 <= k < |w.acked| ==> w.acked[k].batch != c.batch)
    && (forall k :: 0 <= k < |w.acked| && w.acked[k].id == id ==>
          inst.Ready() && w.acked[k].End() <= AckedUpTo(inst))
  }

  ghost predicate ClaimsDiffer<S, E>(w: World<S, E>) {
    forall i, j :: i in w.instances && j in w.instances && i != j &&
                   w.instances[i].HasClaim() && w.instances[j].HasClaim() ==>
      w.instances[i].phase.job.result.value.batch != w.instances[j].phase.job.result.value.batch
  }

  ghost predicate PublishedHold<S, E>(w: World<S, E>) {
    && (forall p :: p in w.published ==> ClaimHolds(w, p.claim))
    && (forall k :: 0 <= k < |w.acked| && w.acked[k].events != [] ==>
          exists p :: p in w.published && p.claim == w.acked[k])
  }

  ghost predicate AckInv<S, E>(w: World<S, E>) {
    && |w.authors| == |w.history| == w.entry.lastSeq
    && (forall i :: 0 <= i < |w.authors| ==> w.authors[i] < w.batches)
    && AckedHold(w)
    && (forall id :: id in w.instances ==> PendingHold(w, id))
    && ClaimsDiffer(w)
    && PublishedHold(w)
  }

  lemma ClaimSurvivesLanding<S, E>(w: World<S, E>, blobs: seq<Blob>, events: seq<E>, c: Claim<E>)
    requires ClaimHolds(w, c)
    ensures ClaimHolds(Landed(w, blobs, events), c)
  {
    var w' := Landed(w, blobs, events);
    assert w'.history[c.start..c.End()] == w.history[c.start..c.End()];
  }

  lemma LandedClaimHolds<S, E>(w: World<S, E>, blobs: seq<Blob>, events: seq<E>, id: nat)
    requires |w.authors| == |w.history|
    requires forall i :: 0 <= i < |w.authors| ==> w.authors[i] < w.batches
    ensures ClaimHolds(Landed(w, blobs, events), Claim(id, w.batches, |w.history|, events))
  {
    var w' := Landed(w, blobs, events);
    assert w'.history[|w.history|..|w.history| + |events|] == events;
  }

  /** Everything claimed so far still holds once another batch has landed. */
  lemma LandedKeepsAcks<S, E>(w: World<S, E>, blobs: seq<Blob>, events: seq<E>)
    requires AckInv(w) && |blobs| == |events|
    ensures AckInv(Landed(w, blobs, events))
  {
    var w' := Landed(w, blobs, events);
    forall c | ClaimHolds(w, c)
      ensures ClaimHolds(w', c)
    {
      ClaimSurvivesLanding(w, blobs, events, c);
    }
    forall id | id in w'.instances
      ensures PendingHold(w', id)
    {
      assert PendingHold(w, id);
    }
  }

  /** Putting an instance without a claim in place keeps the invariant if its acks stay behind it. */
  lemma PutKeepsAcks<S, E>(w: World<S, E>, id: nat, inst: Instance<S, E>)
    requires AckInv(w) && id < w.spawned
    requires !inst.HasClaim()
    requires forall k :: 0 <= k < |w.acked| && w.acked[k].id == id ==>
               inst.Ready() && w.acked[k].End() <= inst.seqNr
    ensures AckInv(Put(w, id, inst))
  {
    var w' := Put(w, id, inst);
    forall other | other in w'.instances
      ensures PendingHold(w', other)
    {
      if other != id {
        assert PendingHold(w, other);
      }
    }
  }

  lemma GoneKeepsAcks<S, E>(w: World<S, E>, id: nat)
    requires AckInv(w)
    ensures AckInv(Gone(w, id))
  {
    var w' := Gone(w, id);
    forall other | other in w'.instances
      ensures PendingHold(w', other)
    {
      assert PendingHold(w, other);
    }
  }

  lemma PublishKeepsAcks<S, E>(w: World<S, E>, p: Publication<S, E>)
    requires AckInv(w) && ClaimHolds(w, p.claim)
    ensures AckInv(w.(published := w.published + [p]))
  {
    var w' := w.(published := w.published + [p]);
    assert forall q :: q in w.published ==> q in w'.published;
    forall id | id in w'.instances
      ensures PendingHold(w', id)
    {
      assert PendingHold(w, id);
    }
  }

  /** A fresh, published claim may become the pending one of the instance that wrote it. */
  lemma PutClaimKeepsAcks<S, E>(w: World<S, E>, id: nat, inst: Instance<S, E>)
    requires AckInv(w) && id in w.instances && w.instances[id].phase.Writing? && inst.HasClaim()
    requires var c := inst.phase.job.result.value;
             && c.id == id && c.start == w.instances[id].seqNr && c.End() == inst.seqNr && ClaimHolds(w, c)
             && (c.events != [] ==> exists p :: p in w.published && p.claim == c)
             && (forall k :: 0 <= k < |w.acked| ==> w.acked[k].batch != c.batch)
             && (forall i :: i in w.instances && w.instances[i].HasClaim() ==>
                   w.instances[i].phase.job.result.value.batch != c.batch)
    ensures AckInv(Put(w, id, inst))
  {
    var w' := Put(w, id, inst);
    assert PendingHold(w, id);
    forall other | other in w'.instances
      ensures PendingHold(w', other)
    {
      if other != id {
        assert PendingHold(w, other);
      }
    }
  }

  lemma WrittenKeepsAcks<S, E>(
      b: Behaviour<S, E>, w: World<S, E>, id: nat, inst: Instance<S, E>, effect: Effect<E>, claim: Claim<E>)
    requires AckInv(w) && id in w.instances && w.instances[id] == inst && inst.phase.Writing?
    requires claim == Claim(id, claim.batch, inst.seqNr, effect.events) && ClaimHolds(w, claim)
    requires forall k :: 0 <= k < |w.acked| ==> w.acked[k].batch != claim.batch
    requires forall i :: i in w.instances && w.instances[i].HasClaim() ==>
               w.instances[i].phase.job.result.value.batch != claim.batch
    ensures AckInv(Written(b, w, id, inst, effect, claim))
  {
    var p := Publication(claim, Folded(b, inst.state, effect.events));
    var w1 := if effect.events == [] then w else w.(published := w.published + [p]);
    if effect.events != [] {
      PublishKeepsAcks(w, p);
      assert p in w1.published;
    }
    var w' := Written(b, w, id, inst, effect, claim);
    assert w' == Put(w1, id, w'.instances[id]);
    PutClaimKeepsAcks(w1, id, w'.instances[id]);
  }

  lemma RefusedKeepsAcks<S, E>(w: World<S, E>, id: nat, error: JournalError)
    requires AckInv(w) && id in w.instances && w.instances[id].phase.Writing?
    ensures var inst := w.instances[id];
            AckInv(Put(w, id, inst.(phase := Replying(Job(inst.phase.effect, Err(error))))))
  {
    var inst := w.instances[id];
    assert PendingHold(w, id);
    PutKeepsAcks(w, id, inst.(phase := Replying(Job(inst.phase.effect, Err(error)))));
  }

  lemma AcceptedKeepsAcks<S, E>(b: Behaviour<S, E>, w: World<S, E>, id: nat, blobs: seq<Blob>)
    requires AckInv(w) && id in w.instances && w.instances[id].phase.Writing?
    requires w.instances[id].seqNr == w.entry.lastSeq && |blobs| == |w.instances[id].phase.effect.events|
    ensures var inst := w.instances[id];
            var effect := inst.phase.effect;
            AckInv(Written(b, Landed(w, blobs, effect.events), id, inst, effect,
                           Claim(id, w.batches, inst.seqNr, effect.events)))
  {
    var inst := w.instances[id];
    var events := inst.phase.effect.events;
    LandedKeepsAcks(w, blobs, events);
    LandedClaimHolds(w, blobs, events, id);
    forall i | i in w.instances && w.instances[i].HasClaim()
      ensures w.instances[i].phase.job.result.value.batch < w.batches
    {
      assert PendingHold(w, i);
    }
    WrittenKeepsAcks(b, Landed(w, blobs, events), id, inst, inst.phase.effect,
                     Claim(id, w.batches, inst.seqNr, events));
  }

  lemma PersistKeepsAcks<S(!new), E(!new)>(b: Behaviour<S, E>, w: World<S, E>, id: nat, weather: Weather)
    requires RoundTrips(b) && AckInv(w) && id in w.instances
    ensures AckInv(DoPersist(b, w, id, weather))
  {
    var inst := w.instances[id];
    if inst.phase.Writing? {
      match EncodeAll(b, inst.phase.effect.events)
      case None => RefusedKeepsAcks(w, id, Serialization);
      case Some(blobs) =>
        EncodedDecodes(b, inst.phase.effect.events);
        var admitted := Admit(w.entry, inst.seqNr);
        if weather.Down? || (weather.Lost? && admitted.Err?) {
          RefusedKeepsAcks(w, id, Backend);
        } else if weather.Lost? {
          LandedKeepsAcks(w, blobs, inst.phase.effect.events);
          RefusedKeepsAcks(Landed(w, blobs, inst.phase.effect.events), id, Backend);
        } else if admitted.Err? {
          RefusedKeepsAcks(w, id, admitted.error);
        } else {
          AcceptedKeepsAcks(b, w, id, blobs);
        }
    }
  }

  /** Moving on within one command keeps its claim pending. */
  lemma AdvanceKeepsAcks<S, E>(w: World<S, E>, id: nat, phase: Phase<S, E>, entry: Entry)
    requires AckInv(w) && id in w.instances && w.instances[id].HasJob()
    requires phase.Replying? || phase.Compacting?
    requires phase.job == w.instances[id].phase.job
    requires entry.lastSeq == w.entry.lastSeq
    ensures AckInv(Put(w.(entry := entry), id, w.instances[id].(phase := phase)))
  {
    var w' := Put(w.(entry := entry), id, w.instances[id].(phase := phase));
    forall other | other in w'.instances
      ensures PendingHold(w', other)
    {
      assert PendingHold(w, other);
    }
  }

  lemma SaveOrCompactKeepsAcks<S, E>(b: Behaviour<S, E>, w: World<S, E>, id: nat, weather: Weather)
    requires AckInv(w) && id in w.instances
    ensures AckInv(DoSaveSnapshot(b, w, id, weather)) && AckInv(DoCompact(w, id, weather))
  {
    var inst := w.instances[id];
    if inst.HasJob() {
      var done := Replying(inst.phase.job);
      AdvanceKeepsAcks(w, id, done, w.entry);
      AdvanceKeepsAcks(w, id, done, Compacted(w.entry, inst.seqNr));
      if b.encodeState(inst.state).Some? {
        var saved := Snapshotted(w.entry, b.encodeState(inst.state).value, inst.seqNr);
        AdvanceKeepsAcks(w, id, done, saved);
        AdvanceKeepsAcks(w, id, Compacting(inst.phase.job), saved);
      }
    }
  }

  lemma FinishKeepsAcks<S, E>(w: World<S, E>, id: nat)
    requires AckInv(w) && id in w.instances && w.instances[id].phase.Replying?
    ensures AckInv(DoFinish(w, id))
  {
    var inst := w.instances[id];
    var job := inst.phase.job;
    assert PendingHold(w, id);
    if job.effect.ack && job.result.Ok? {
      var told := Put(w.(acked := w.acked + [job.result.value]), id, inst.(phase := Idle));
      AcknowledgedKeepsAcks(w, id);
      GoneKeepsAcks(told, id);
      assert Gone(told, id) == Gone(w.(acked := told.acked), id);
    } else {
      PutKeepsAcks(w, id, inst.(phase := Idle));
      GoneKeepsAcks(w, id);
    }
  }

  lemma AcknowledgedKeepsAcks<S, E>(w: World<S, E>, id: nat)
    requires AckInv(w) && id in w.instances && w.instances[id].phase.Replying? && w.instances[id].HasClaim()
    ensures var inst := w.instances[id];
            AckInv(Put(w.(acked := w.acked + [inst.phase.job.result.value]), id, inst.(phase := Idle)))
  {
    var inst := w.instances[id];
    var c := inst.phase.job.result.value;
    var w' := Put(w.(acked := w.acked + [c]), id, inst.(phase := Idle));
    forall other | other in w'.instances
      ensures PendingHold(w', other)
    {
      AcknowledgedKeepsPending(w, id, other);
    }
    AcknowledgedKeepsAcked(w, id);
    assert PublishedHold(w') by {
      assert PendingHold(w, id);
    }
  }

  lemma AcknowledgedKeepsPending<S, E>(w: World<S, E>, id: nat, other: nat)
    requires AckInv(w) && id in w.instances && w.instances[id].phase.Replying? && w.instances[id].HasClaim()
    requires other in w.instances
    ensures var inst := w.instances[id];
            PendingHold(Put(w.(acked := w.acked + [inst.phase.job.result.value]), id, inst.(phase := Idle)), other)
  {
    assert PendingHold(w, id) && PendingHold(w, other);
  }

  lemma AcknowledgedKeepsAcked<S, E>(w: World<S, E>, id: nat)
    requires AckInv(w) && id in w.instances && w.instances[id].phase.Replying? && w.instances[id].HasClaim()
    ensures var inst := w.instances[id];
            AckedHold(Put(w.(acked := w.acked + [inst.phase.job.result.value]), id, inst.(phase := Idle)))
  {
    assert PendingHold(w, id);
  }

  lemma ReplayKeepsAcks<S, E>(b: Behaviour<S, E>, w: World<S, E>, id: nat, weather: Weather)
    requires AckInv(w) && id in w.instances
    ensures AckInv(DoReadSnapshot(b, w, id, weather)) && AckInv(DoReplay(b, w, id, weather))
  {
    var inst := w.instances[id];
    assert PendingHold(w, id);
    GoneKeepsAcks(w, id);
    if inst.phase.Reading? {
      var r := SnapshotState(b, w.entry.snapshot);
      if r.Ok? {
        PutKeepsAcks(w, id, inst.(phase := Replaying(r.value.0, r.value.1)));
      }
    } else if inst.phase.Replaying? {
      var r := Replayed(b, w, id);
      if r.Ok? {
        PutKeepsAcks(w, id, Instance(r.value.0, r.value.1, Idle));
      }
    }
  }

  lemma SpawnKeepsAcks<S, E>(b: Behaviour<S, E>, w: World<S, E>)
    requires AckInv(w)
    ensures AckInv(Do(b, w, Spawn))
  {
    var w' := w.(spawned := w.spawned + 1);
    forall id | id in w'.instances
      ensures PendingHold(w', id)
    {
      assert PendingHold(w, id);
    }
    PutKeepsAcks(w', w.spawned, Instance(b.initial, 0, Reading));
  }

  lemma StepKeepsAcks<S(!new), E(!new)>(b: Behaviour<S, E>, w: World<S, E>, action: Action<E>)
    requires RoundTrips(b) && AckInv(w)
    ensures AckInv(Do(b, w, action))
  {
    if action.Spawn? {
      SpawnKeepsAcks(b, w);
    } else if action.id in w.instances {
      var inst := w.instances[action.id];
      match action
      case ReadSnapshot(id, weather) => ReplayKeepsAcks(b, w, id, weather);
      case Replay(id, weather) => ReplayKeepsAcks(b, w, id, weather);
      case Decide(id, effect) =>
        if inst.phase.Idle? {
          assert PendingHold(w, id);
          PutKeepsAcks(w, id, inst.(phase := Writing(effect)));
        }
      case Persist(id, weather) => PersistKeepsAcks(b, w, id, weather);
      case SaveSnapshot(id, weather) => SaveOrCompactKeepsAcks(b, w, id, weather);
      case Compact(id, weather) => SaveOrCompactKeepsAcks(b, w, id, weather);
      case Finish(id) =>
        if inst.phase.Replying? {
          FinishKeepsAcks(w, id);
        }
      case Crash(id) => GoneKeepsAcks(w, id);
    }
  }

  lemma StepOnlyAdds<S, E>(b: Behaviour<S, E>, w: World<S, E>, action: Action<E>)
    ensures w.history <= Do(b, w, action).history && w.acked <= Do(b, w, action).acked
  {
  }

  /**
   Over every run, gaps included: each acknowledged batch occurs in the history exactly once,
   whole, in its instance's ack order, published first; and nothing acknowledged is ever lost
   from the history afterwards.
   */
  lemma {:induction false} RunKeepsAcks<S(!new), E(!new)>(b: Behaviour<S, E>, w: World<S, E>, actions: seq<Action<E>>)
    requires RoundTrips(b) && AckInv(w)
    ensures AckInv(Run(b, w, actions))
    ensures w.history <= Run(b, w, actions).history && w.acked <= Run(b, w, actions).acked
    decreases |actions|
  {
    if actions != [] {
      StepKeepsAcks(b, w, actions[0]);
      StepOnlyAdds(b, w, actions[0]);
      RunKeepsAcks(b, Do(b, w, actions[0]), actions[1..]);
    }
  }

  lemma AcksHoldFromTheStart<S(!new), E(!new)>(b: Behaviour<S, E>, actions: seq<Action<E>>)
    requires RoundTrips(b)
    ensures AckInv(Run(b, Initial(), actions))
  {
    RunKeepsAcks(b, Initial(), actions);
  }

  /** By the time a write is acknowledged its whole batch is part of the instance's state. */
  lemma FoldedBeforeAck<S, E>(b: Behaviour<S, E>, w: World<S, E>, id: nat)
    requires StatesTrue(b, w) && AckInv(w)
    requires id in w.instances && w.instances[id].phase.Replying? && w.instances[id].HasClaim()
    ensures var c := w.instances[id].phase.job.result.value;
            c.End() <= |w.history| && w.instances[id].state == StateAt(b, w.history, c.End())
  {
    assert PendingHold(w, id) && InstanceTrue(b, w.history, w.instances[id]);
  }

  lemma FoldedInThree<S, E>(b: Behaviour<S, E>, xs: seq<E>, ys: seq<E>, zs: seq<E>)
    ensures var h := xs + ys + zs;
            StateAt(b, h, |h|) == Folded(b, Folded(b, Folded(b, b.initial, xs), ys), zs)
  {
    var h := xs + ys + zs;
    FoldedIsStateAt(b, [], h);
    assert [] + h == h;
    FoldedConcat(b, b.initial, xs + ys, zs);
    FoldedConcat(b, b.initial, xs, ys);
  }

  lemma ClaimSplits<S, E>(w: World<S, E>, c: Claim<E>)
    requires ClaimHolds(w, c)
    ensures w.history == w.history[..c.start] + c.events + w.history[c.End()..]
  {
  }

  /**
   A recovery that was not overtaken has folded every batch acknowledged so far: its state is
   the fold of the history that holds the batch between what came before and what came after.
   */
  lemma RecoveryReflectsAcks<S, E>(b: Behaviour<S, E>, w: World<S, E>, id: nat, c: Claim<E>)
    requires LogInv(b, w) && StatesTrue(b, w) && AckInv(w) && c in w.acked
    requires id in w.instances && w.instances[id].phase.Replaying?
    requires Floor(w.entry) <= w.instances[id].phase.baseSeq
    ensures c.End() <= |w.history|
    ensures var before := w.history[..c.start];
            var after := w.history[c.End()..];
            Replayed(b, w, id)
            == Ok((Folded(b, Folded(b, Folded(b, b.initial, before), c.events), after), |w.history|))
  {
    ClaimSplits(w, c);
    RecoveryIsExact(b, w, id);
    FoldedInThree(b, w.history[..c.start], c.events, w.history[c.End()..]);
  }
}
