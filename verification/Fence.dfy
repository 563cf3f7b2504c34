/**
 The write fence over whole runs: an instance that is behind the log stays behind, never moves
 the log again, and is stopped by the first command it completes (src/persistent.rs:62-125,
 src/journal.rs:117-156). Nothing here needs a true state: it holds through recovery gaps too.
 */
module Fence {
  import opened Wrappers
  import opened Journal
  import opened EventSourcing
  import opened EventLog

  predicate Behind<S, E>(w: World<S, E>, id: nat) {
    id in w.instances && w.instances[id].Ready() && w.instances[id].seqNr < w.entry.lastSeq
  }

  predicate ActsFor<E>(action: Action<E>, id: nat) {
    !action.Spawn? && action.id == id
  }

  /** History, numbering and snapshot are the same, and no event the snapshot lacks was deleted. */
  ghost predicate LogUnmoved<S, E>(w: World<S, E>, w': World<S, E>) {
    && w'.history == w.history && w'.authors == w.authors && w'.batches == w.batches
    && w'.entry.lastSeq == w.entry.lastSeq
    && w'.entry.snapshot == w.entry.snapshot
    && (w'.entry.events == w.entry.events ||
        (&& w.entry.snapshot.Some?
         && |w'.entry.events| <= |w.entry.events|
         && w'.entry.events == w.entry.events[|w.entry.events| - |w'.entry.events|..]
         && forall i :: 0 <= i < |w.entry.events| - |w'.entry.events| ==>
              w.entry.events[i].seqNr <= w.entry.snapshot.value.seqNr))
  }

  /** A late compaction only deletes what the accepted snapshot before it already covers. */
  lemma LateCompactionIsCovered<S, E>(b: Behaviour<S, E>, w: World<S, E>, id: nat, weather: Weather)
    requires LogInv(b, w) && id in w.instances
    ensures LogUnmoved(w, DoCompact(w, id, weather))
  {
    AfterIsDrop(w.entry.events, Floor(w.entry) + 1, w.instances[id].seqNr);
  }

  lemma RefusedWhileBehind<S, E>(b: Behaviour<S, E>, w: World<S, E>, id: nat, weather: Weather)
    requires Behind(w, id)
    ensures LogUnmoved(w, DoPersist(b, w, id, weather)) && DoPersist(b, w, id, weather).published == w.published
  {
  }

  /** No step of an instance that is behind moves the log or tells anyone a write succeeded. */
  lemma BehindNeverMovesTheLog<S, E>(b: Behaviour<S, E>, w: World<S, E>, id: nat, action: Action<E>)
    requires LogInv(b, w) && Behind(w, id) && ActsFor(action, id)
    ensures LogUnmoved(w, Do(b, w, action))
    ensures Do(b, w, action).published == w.published
  {
    if action.Compact? {
      LateCompactionIsCovered(b, w, id, action.weather);
    } else if action.Persist? {
      RefusedWhileBehind(b, w, id, action.weather);
    }
  }

  lemma OthersLeaveInstance<S, E>(b: Behaviour<S, E>, w: World<S, E>, id: nat, action: Action<E>)
    requires id in w.instances && id < w.spawned && !ActsFor(action, id)
    ensures var w' := Do(b, w, action); id in w'.instances && w'.instances[id] == w.instances[id]
    ensures w.spawned <= Do(b, w, action).spawned
  {
  }

  lemma NumberingOnlyGrows<S, E>(b: Behaviour<S, E>, w: World<S, E>, action: Action<E>)
    ensures w.entry.lastSeq <= Do(b, w, action).entry.lastSeq
  {
  }

  lemma OwnStepStaysBehind<S, E>(b: Behaviour<S, E>, w: World<S, E>, id: nat, action: Action<E>)
    requires Behind(w, id) && ActsFor(action, id)
    ensures var w' := Do(b, w, action); id in w'.instances ==> Behind(w', id)
  {
  }

  lemma BehindStaysBehind<S, E>(b: Behaviour<S, E>, w: World<S, E>, id: nat, action: Action<E>)
    requires LogInv(b, w) && Behind(w, id)
    ensures var w' := Do(b, w, action); id in w'.instances ==> Behind(w', id)
  {
    if ActsFor(action, id) {
      OwnStepStaysBehind(b, w, id, action);
    } else {
      OthersLeaveInstance(b, w, id, action);
      NumberingOnlyGrows(b, w, action);
    }
  }

  /** Along the run, every step taken by `id` leaves the log unmoved. */
  ghost predicate NeverMovesTheLog<S, E>(b: Behaviour<S, E>, w: World<S, E>, id: nat, actions: seq<Action<E>>)
    decreases |actions|
  {
    actions != [] ==>
      && (ActsFor(actions[0], id) ==> LogUnmoved(w, Do(b, w, actions[0])))
      && NeverMovesTheLog(b, Do(b, w, actions[0]), id, actions[1..])
  }

  lemma {:induction false} GoneStaysGone<S, E>(b: Behaviour<S, E>, w: World<S, E>, id: nat, actions: seq<Action<E>>)
    requires id !in w.instances && id < w.spawned
    ensures id !in Run(b, w, actions).instances
    ensures NeverMovesTheLog(b, w, id, actions)
    decreases |actions|
  {
    if actions != [] {
      GoneStep(b, w, id, actions[0]);
      GoneStaysGone(b, Do(b, w, actions[0]), id, actions[1..]);
    }
  }

  lemma GoneStep<S, E>(b: Behaviour<S, E>, w: World<S, E>, id: nat, action: Action<E>)
    requires id !in w.instances && id < w.spawned
    ensures id !in Do(b, w, action).instances && id < Do(b, w, action).spawned
    ensures ActsFor(action, id) ==> Do(b, w, action) == w
  {
  }

  /** Once behind, for the rest of any run: behind until it ends, and never a mover of the log. */
  lemma {:induction false} BehindForTheRestOfTheRun<S(!new), E(!new)>(
      b: Behaviour<S, E>, w: World<S, E>, id: nat, actions: seq<Action<E>>)
    requires RoundTrips(b) && LogInv(b, w) && Behind(w, id)
    ensures NeverMovesTheLog(b, w, id, actions)
    ensures var w' := Run(b, w, actions); id in w'.instances ==> Behind(w', id)
    decreases |actions|
  {
    if actions != [] {
      var w' := Do(b, w, actions[0]);
      StepKeepsLog(b, w, actions[0]);
      BehindStaysBehind(b, w, id, actions[0]);
      if ActsFor(actions[0], id) {
        BehindNeverMovesTheLog(b, w, id, actions[0]);
      }
      if id in w'.instances {
        BehindForTheRestOfTheRun(b, w', id, actions[1..]);
      } else {
        SpawnedOnlyGrows(b, w, actions[0]);
        GoneStaysGone(b, w', id, actions[1..]);
      }
    }
  }

  lemma SpawnedOnlyGrows<S, E>(b: Behaviour<S, E>, w: World<S, E>, action: Action<E>)
    ensures w.spawned <= Do(b, w, action).spawned
  {
  }

  lemma {:induction false} OthersLeaveInstanceInRun<S, E>(
      b: Behaviour<S, E>, w: World<S, E>, id: nat, actions: seq<Action<E>>)
    requires id in w.instances && id < w.spawned
    requires forall k :: 0 <= k < |actions| ==> !ActsFor(actions[k], id)
    ensures var w' := Run(b, w, actions); id in w'.instances && w'.instances[id] == w.instances[id]
    decreases |actions|
  {
    if actions != [] {
      OthersLeaveInstance(b, w, id, actions[0]);
      OthersLeaveInstanceInRun(b, Do(b, w, actions[0]), id, actions[1..]);
    }
  }

  /**
   The first command an instance completes while behind stops it: the persist call meets the
   fence even for an empty batch, and whatever others do before it replies, it ends there with
   nothing published and nothing acknowledged as written.
   */
  lemma FirstCompletedCommandStops<S, E>(b: Behaviour<S, E>, w: World<S, E>, id: nat, others: seq<Action<E>>)
    requires LogInv(b, w) && Behind(w, id) && w.instances[id].phase.Writing?
    requires EncodeAll(b, w.instances[id].phase.effect.events).Some?
    requires forall k :: 0 <= k < |others| ==> !ActsFor(others[k], id)
    ensures var refused := Do(b, w, Persist(id, Up));
            && refused.entry == w.entry && refused.history == w.history && refused.published == w.published
            && var before := Run(b, refused, others);
            var after := Do(b, before, Finish(id));
            && id in before.instances && id !in after.instances
            && after.acked == before.acked && after.entry == before.entry
  {
    var refused := Do(b, w, Persist(id, Up));
    OthersLeaveInstanceInRun(b, refused, id, others);
  }

  /** A write the journal refuses leaves the log, the history, the state and the number as they were. */
  lemma RefusedWriteChangesNothing<S, E>(b: Behaviour<S, E>, w: World<S, E>, id: nat, weather: Weather)
    requires id in w.instances && w.instances[id].phase.Writing?
    requires weather.Down? || Admit(w.entry, w.instances[id].seqNr).Err?
          || EncodeAll(b, w.instances[id].phase.effect.events).None?
    ensures var w' := DoPersist(b, w, id, weather);
            && w' == w.(instances := w'.instances) && id in w'.instances
            && w'.instances == w.instances[id := w'.instances[id]]
            && w'.instances[id].state == w.instances[id].state
            && w'.instances[id].seqNr == w.instances[id].seqNr
            && w'.instances[id].phase.Replying? && w'.instances[id].phase.job.result.Err?
  {
  }
}
