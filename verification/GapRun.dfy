/**
 A run that recovers across a gap. Two hosts start the same actor. The second has read the
 (absent) snapshot when the first writes 7, snapshots, compacts and writes 8; the second then
 replays from the start and finds only 8. It holds the log's current number, so the fence
 admits its next write, and its next snapshot makes the wrong state durable: the event 7 is
 gone from every later recovery although its write was acknowledged.
 */
module GapRun {
  import opened Wrappers
  import opened Journal
  import opened EventSourcing
  import opened EventLog
  import opened Recovery

  const RECORDER: Behaviour<seq<byte>, byte> := Behaviour(
    [],
    (s: seq<byte>, e: byte) => s + [e],
    (e: byte) => Some([e]),
    (blob: Blob) => if |blob| == 1 then Some(blob[0]) else None,
    (s: seq<byte>) => Some(s),
    (blob: Blob) => Some(blob))

  const WRITE_7: Effect<byte> := Effect([7], true, true, false)
  const WRITE_8: Effect<byte> := Effect([8], false, true, false)
  const WRITE_9: Effect<byte> := Effect([9], true, true, false)

  /** The first host recovers an empty log; the second has read its snapshot and not its events. */
  const STARTS: seq<Action<byte>> := [Spawn, ReadSnapshot(0, Up), Replay(0, Up), Spawn, ReadSnapshot(1, Up)]

  const FIRST_WRITES_7: seq<Action<byte>> := [Decide(0, WRITE_7), Persist(0, Up)]

  const FIRST_COMPACTS: seq<Action<byte>> := [SaveSnapshot(0, Up), Compact(0, Up), Finish(0)]

  const FIRST_WRITES_8: seq<Action<byte>> := [Decide(0, WRITE_8), Persist(0, Up), Finish(0)]

  const SECOND_REPLAYS: seq<Action<byte>> := [Replay(1, Up)]

  const SECOND_WRITES_9: seq<Action<byte>> :=
    [Decide(1, WRITE_9), Persist(1, Up), SaveSnapshot(1, Up), Compact(1, Up), Finish(1)]

  const GAP := STARTS + FIRST_WRITES_7 + FIRST_COMPACTS + FIRST_WRITES_8 + SECOND_REPLAYS

  lemma EncodesOne(e: byte)
    ensures EncodeAll(RECORDER, [e]) == Some([[e]])
  {
    assert [e][1..] == [];
    var blob: Blob := [e];
    assert [blob] + [] == [blob];
  }

  function Ready(state: seq<byte>, seqNr: nat): Instance<seq<byte>, byte> {
    Instance(state, seqNr, Idle)
  }

  const SEVEN: Claim<byte> := Claim(0, 0, 0, [7])
  const EIGHT: Claim<byte> := Claim(0, 1, 1, [8])
  const NINE: Claim<byte> := Claim(1, 2, 2, [9])

  const STARTED: World<seq<byte>, byte> :=
    World(EMPTY, [], [], 0, 2,
          map[0 := Ready([], 0), 1 := Instance([], 0, Replaying([], 0))], [], [])

  const WRITTEN_7: World<seq<byte>, byte> :=
    World(Entry([Numbered(1, [7])], 1, None), [7], [0], 1, 2,
          map[0 := Instance([7], 1, Snapshotting(Job(WRITE_7, Ok(SEVEN)))), 1 := Instance([], 0, Replaying([], 0))],
          [], [Publication(SEVEN, [7])])

  const AFTER_7: World<seq<byte>, byte> :=
    World(Entry([], 1, Some(Snapshot([7], 1))), [7], [0], 1, 2,
          map[0 := Ready([7], 1), 1 := Instance([], 0, Replaying([], 0))],
          [SEVEN], [Publication(SEVEN, [7])])

  const AFTER_8: World<seq<byte>, byte> :=
    World(Entry([Numbered(2, [8])], 2, Some(Snapshot([7], 1))), [7, 8], [0, 1], 2, 2,
          map[0 := Ready([7, 8], 2), 1 := Instance([], 0, Replaying([], 0))],
          [SEVEN, EIGHT], [Publication(SEVEN, [7]), Publication(EIGHT, [7, 8])])

  const GAPPED: World<seq<byte>, byte> := AFTER_8.(instances := AFTER_8.instances[1 := Ready([8], 2)])

  lemma StartsRun()
    ensures Run(RECORDER, Initial(), STARTS) == STARTED
  {
    var b, w0 := RECORDER, Initial<seq<byte>, byte>();
    var w1 := Do(b, w0, Spawn);
    var w2 := Do(b, w1, ReadSnapshot(0, Up));
    var w3 := Do(b, w2, Replay(0, Up));
    var w4 := Do(b, w3, Spawn);
    var w5 := Do(b, w4, ReadSnapshot(1, Up));
    assert w5.instances == STARTED.instances;
    TraceIsRun(b, [w0, w1, w2, w3, w4, w5], STARTS);
  }

  lemma FirstWrites7Run()
    ensures Run(RECORDER, STARTED, FIRST_WRITES_7) == WRITTEN_7
  {
    var b, w0 := RECORDER, STARTED;
    var w1 := Do(b, w0, Decide(0, WRITE_7));
    EncodesOne(7);
    assert Folded(b, [], [7]) == [7];
    var w2 := Do(b, w1, Persist(0, Up));
    assert w2.published == WRITTEN_7.published;
    assert w2.instances == WRITTEN_7.instances;
    assert w2.entry == WRITTEN_7.entry && w2.authors == [0] && w2.history == [7];
    TraceIsRun(b, [w0, w1, w2], FIRST_WRITES_7);
  }

  lemma FirstCompactsRun()
    ensures Run(RECORDER, WRITTEN_7, FIRST_COMPACTS) == AFTER_7
  {
    var b := RECORDER;
    FirstSavesAndCompacts();
    var w := Do(b, COMPACTED_7, Finish(0));
    assert w.instances == AFTER_7.instances;
    TraceIsRun(b, [WRITTEN_7, SAVED_7, COMPACTED_7, w], FIRST_COMPACTS);
  }

  const SAVED_7: World<seq<byte>, byte> := WRITTEN_7.(
    entry := Entry([Numbered(1, [7])], 1, Some(Snapshot([7], 1))),
    instances := WRITTEN_7.instances[0 := Instance([7], 1, Compacting(Job(WRITE_7, Ok(SEVEN))))])

  const COMPACTED_7: World<seq<byte>, byte> := WRITTEN_7.(
    entry := Entry([], 1, Some(Snapshot([7], 1))),
    instances := WRITTEN_7.instances[0 := Instance([7], 1, Replying(Job(WRITE_7, Ok(SEVEN))))])

  lemma FirstSavesAndCompacts()
    ensures Do(RECORDER, WRITTEN_7, SaveSnapshot(0, Up)) == SAVED_7
    ensures Do(RECORDER, SAVED_7, Compact(0, Up)) == COMPACTED_7
  {
    assert After([Numbered(1, [7])], 1) == [];
    assert SAVED_7.instances[0 := COMPACTED_7.instances[0]] == COMPACTED_7.instances;
  }

  lemma FirstWrites8Run()
    ensures Run(RECORDER, AFTER_7, FIRST_WRITES_8) == AFTER_8
  {
    var b, w0 := RECORDER, AFTER_7;
    var w1 := Do(b, w0, Decide(0, WRITE_8));
    EncodesOne(8);
    assert Folded(b, [7], [8]) == [7, 8];
    var w2 := Do(b, w1, Persist(0, Up));
    var w3 := Do(b, w2, Finish(0));
    assert w3.instances == AFTER_8.instances;
    assert w3.authors == [0, 1];
    TraceIsRun(b, [w0, w1, w2, w3], FIRST_WRITES_8);
  }

  lemma SecondReplaysRun()
    ensures Run(RECORDER, AFTER_8, SECOND_REPLAYS) == GAPPED
  {
    var b := RECORDER;
    assert After([Numbered(2, [8])], 0) == [Numbered(2, [8])];
    RecorderReplay(b, [], 0, [Numbered(2, [8])], [8]);
    var state: seq<byte> := [8];
    assert [] + state == state;
    TraceIsRun(b, [AFTER_8, Do(b, AFTER_8, Replay(1, Up))], SECOND_REPLAYS);
  }

  lemma SecondWrites9Run()
    ensures var w := Run(RECORDER, GAPPED, SECOND_WRITES_9);
            && w.history == [7, 8, 9]
            && w.acked == [SEVEN, EIGHT, NINE]
            && w.entry == Entry([], 3, Some(Snapshot([8, 9], 3)))
  {
    var b := RECORDER;
    SecondPersists();
    SecondSavesAndCompacts();
    var w := Do(b, COMPACTED_9, Finish(1));
    TraceIsRun(b, [GAPPED, Do(b, GAPPED, Decide(1, WRITE_9)), WRITTEN_9, SAVED_9, COMPACTED_9, w], SECOND_WRITES_9);
  }

  const SAVED_9: World<seq<byte>, byte> := WRITTEN_9.(
    entry := WRITTEN_9.entry.(snapshot := Some(Snapshot([8, 9], 3))),
    instances := WRITTEN_9.instances[1 := Instance([8, 9], 3, Compacting(Job(WRITE_9, Ok(NINE))))])

  const COMPACTED_9: World<seq<byte>, byte> := WRITTEN_9.(
    entry := Entry([], 3, Some(Snapshot([8, 9], 3))),
    instances := WRITTEN_9.instances[1 := Instance([8, 9], 3, Replying(Job(WRITE_9, Ok(NINE))))])

  lemma SecondSavesAndCompacts()
    ensures Do(RECORDER, WRITTEN_9, SaveSnapshot(1, Up)) == SAVED_9
    ensures Do(RECORDER, SAVED_9, Compact(1, Up)) == COMPACTED_9
  {
    AfterIsDrop(SAVED_9.entry.events, 2, 3);
    assert SAVED_9.instances[1 := COMPACTED_9.instances[1]] == COMPACTED_9.instances;
  }

  const WRITTEN_9: World<seq<byte>, byte> := GAPPED.(
    entry := Entry([Numbered(2, [8]), Numbered(3, [9])], 3, Some(Snapshot([7], 1))),
    history := [7, 8, 9], authors := [0, 1, 2], batches := 3,
    instances := GAPPED.instances[1 := Instance([8, 9], 3, Snapshotting(Job(WRITE_9, Ok(NINE))))],
    published := GAPPED.published + [Publication(NINE, [8, 9])])

  lemma SecondPersists()
    ensures Do(RECORDER, Do(RECORDER, GAPPED, Decide(1, WRITE_9)), Persist(1, Up)) == WRITTEN_9
  {
    EncodesOne(9);
    assert Folded(RECORDER, [8], [9]) == [8, 9];
    var w := Do(RECORDER, Do(RECORDER, GAPPED, Decide(1, WRITE_9)), Persist(1, Up));
    assert w.entry == WRITTEN_9.entry && w.authors == [0, 1, 2] && w.history == [7, 8, 9];
    assert w.instances == WRITTEN_9.instances;
  }

  /**
   The condition on recovery is needed. After `GAP` the second host serves [8] as the state of
   the history [7, 8], at the log's own number, so the fence admits it; after one more command
   from it, the durable snapshot is wrong for good and an acknowledged event is lost.
   */
  lemma GapIsReachableAndUnfenced()
    ensures var w := Run(RECORDER, Initial(), GAP);
            && w.history == [7, 8] && 1 in w.instances
            && w.instances[1] == Instance([8], 2, Idle)
            && StateAt(RECORDER, w.history, 2) == [7, 8]
            && Admit(w.entry, w.instances[1].seqNr).Ok?
    ensures var w := Run(RECORDER, Initial(), GAP + SECOND_WRITES_9);
            && SEVEN in w.acked && w.history == [7, 8, 9]
            && w.entry.events == [] && SnapshotState(RECORDER, w.entry.snapshot) == Ok(([8, 9], 3))
            && !SnapshotTrue(RECORDER, w)
  {
    StartsRun();
    FirstWrites7Run();
    FirstCompactsRun();
    FirstWrites8Run();
    SecondReplaysRun();
    SecondWrites9Run();
    RunConcat(RECORDER, Initial(), STARTS, FIRST_WRITES_7);
    RunConcat(RECORDER, Initial(), STARTS + FIRST_WRITES_7, FIRST_COMPACTS);
    RunConcat(RECORDER, Initial(), STARTS + FIRST_WRITES_7 + FIRST_COMPACTS, FIRST_WRITES_8);
    RunConcat(RECORDER, Initial(), STARTS + FIRST_WRITES_7 + FIRST_COMPACTS + FIRST_WRITES_8, SECOND_REPLAYS);
    RunConcat(RECORDER, Initial(), GAP, SECOND_WRITES_9);
    RecorderStateAt(RECORDER, [7, 8], 2);
    RecorderStateAt(RECORDER, [7, 8, 9], 3);
  }
}
