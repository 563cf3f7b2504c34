/** Two short runs: why accepted sends and a timely encoding are needed. */
module ReplyRuns {
  import opened Wrappers
  import opened ReplyRouting
  import opened ReplyOutcomes
  import opened ReplyTokens

  const WIRE := Wire(0, 0)
  const ASKED: Caller := Caller(0, true, None, None, false)
  const ENCODED: Caller := ASKED.(wire := Some(WIRE), slot := Some(0))
  const TABLE: map<nat, Node> := map[0 := Node(1, map[0 := 0])]

  lemma RegisterFirst(w: World)
    requires 0 in w.callers && w.callers[0].home == 0 && w.handles == map[0 := Local(0)] && w.nodes == map[]
    requires w.outcome == map[]
    ensures Enabled(w, Register(0))
    ensures Do(w, Register(0)) ==
            w.(nodes := TABLE, handles := map[0 := Registering(0, WIRE)],
               callers := w.callers[0 := w.callers[0].(wire := Some(WIRE), late := w.callers[0].late || !w.callers[0].asking)])
  {
    var waiting: map<nat, nat> := map[0 := 0];
    assert Inserted(w, 0).nodes == TABLE;
    assert Trimmed(waiting) == waiting;
    assert Gone(waiting, waiting) == {};
    assert Drop(w.outcome, {}) == w.outcome;
  }

  ghost predicate Steps(w: World, action: Action, w': World) {
    Enabled(w, action) && Do(w, action) == w'
  }

  const ASKED_WORLD := World(map[0 := ASKED], map[0 := Local(0)], map[], map[], map[], 1)
  const ENDED_WORLD := ASKED_WORLD.(callers := map[0 := ASKED.(asking := false)])
  const INSERTED_WORLD :=
    World(map[0 := ASKED.(wire := Some(WIRE))], map[0 := Registering(0, WIRE)], TABLE, map[], map[], 1)
  const ENCODED_WORLD := World(map[0 := ENCODED], map[0 := Encoded(WIRE)], TABLE, map[], map[], 1)
  const SENT_WORLD := World(map[0 := ENCODED], map[], TABLE, map[1 := Command(1, WIRE)], map[], 2)
  const DECODED_WORLD := World(map[0 := ENCODED], map[2 := Remote(1, WIRE)], TABLE, map[], map[], 3)
  const FORWARDED_WORLD := World(map[0 := ENCODED], map[2 := Encoded(WIRE)], TABLE, map[], map[], 3)
  const LOST_WORLD := World(map[0 := ENCODED], map[], TABLE, map[], map[], 3)

  lemma EncodingSteps()
    ensures Steps(INITIAL, Ask(0), ASKED_WORLD)
    ensures Steps(ASKED_WORLD, Register(0), INSERTED_WORLD)
    ensures Steps(INSERTED_WORLD, FillSlot(0), ENCODED_WORLD)
  {
    RegisterFirst(ASKED_WORLD);
    assert Do(INSERTED_WORLD, FillSlot(0)).callers == ENCODED_WORLD.callers;
  }

  lemma SendingSteps()
    ensures Steps(ENCODED_WORLD, Send(0, 1), SENT_WORLD)
    ensures Steps(SENT_WORLD, Dispatch(1), DECODED_WORLD)
  {
    assert Do(ENCODED_WORLD, Send(0, 1)).packets == SENT_WORLD.packets;
    assert Do(SENT_WORLD, Dispatch(1)).handles == DECODED_WORLD.handles;
  }

  lemma ForwardingSteps()
    ensures Steps(DECODED_WORLD, Forward(2), FORWARDED_WORLD)
    ensures Steps(FORWARDED_WORLD, SendFails(2), LOST_WORLD)
  {
    assert Do(FORWARDED_WORLD, SendFails(2)).handles == map[];
  }

  lemma Extended(worlds: seq<World>, actions: seq<Action>, action: Action, w': World)
    returns (worlds': seq<World>, actions': seq<Action>)
    requires IsReliableRun(worlds, actions) && Steps(worlds[|actions|], action, w')
    ensures IsRun(worlds', actions') && worlds'[0] == INITIAL
    ensures |actions'| == |actions| + 1 && worlds'[|actions'|] == w'
    ensures forall k :: 0 <= k < |actions| ==> Reliable(actions'[k])
    ensures Reliable(action) ==> IsReliableRun(worlds', actions')
  {
    worlds', actions' := worlds + [w'], actions + [action];
  }

  /**
   A handle is disarmed when it is encoded for forwarding, before the send is known to have worked.
   With every step but that one send reliable, the caller is left waiting with nobody to answer it.
   */
  lemma AForwardThatFailsStrandsTheCaller() returns (worlds: seq<World>, actions: seq<Action>)
    ensures IsRun(worlds, actions) && worlds[0] == INITIAL
    ensures forall k :: 0 <= k < |actions| - 1 ==> Reliable(actions[k])
    ensures var w := worlds[|actions|];
            && 0 in w.callers && w.callers[0].asking && w.callers[0].wire == Some(WIRE) && 0 !in w.outcome
            && HasRow(w, WIRE) && Stranded(w, WIRE)
  {
    worlds, actions := TheHandleArrives();
    ForwardingSteps();
    LostIsStranded();
    worlds, actions := Extended(worlds, actions, Forward(2), FORWARDED_WORLD);
    worlds, actions := Extended(worlds, actions, SendFails(2), LOST_WORLD);
  }

  lemma TheHandleArrives() returns (worlds: seq<World>, actions: seq<Action>)
    ensures IsReliableRun(worlds, actions) && worlds[|actions|] == DECODED_WORLD
  {
    EncodingSteps();
    SendingSteps();
    worlds, actions := [INITIAL], [];
    worlds, actions := Extended(worlds, actions, Ask(0), ASKED_WORLD);
    worlds, actions := Extended(worlds, actions, Register(0), INSERTED_WORLD);
    worlds, actions := Extended(worlds, actions, FillSlot(0), ENCODED_WORLD);
    worlds, actions := Extended(worlds, actions, Send(0, 1), SENT_WORLD);
    worlds, actions := Extended(worlds, actions, Dispatch(1), DECODED_WORLD);
  }

  lemma LostIsStranded()
    ensures HasRow(LOST_WORLD, WIRE) && Stranded(LOST_WORLD, WIRE)
  {
  }

  lemma EndedSteps()
    ensures Steps(ASKED_WORLD, EndAsk(0), ENDED_WORLD)
    ensures Enabled(ENDED_WORLD, Register(0))
    ensures RowOf(Do(ENDED_WORLD, Register(0)), WIRE, 0) && 0 in Do(ENDED_WORLD, Register(0)).callers
    ensures !Do(ENDED_WORLD, Register(0)).callers[0].asking
  {
    RegisterFirst(ENDED_WORLD);
  }

  /** An ask that is given up before its handle is encoded leaves a row nobody will deregister. */
  lemma AnAskCanEndBeforeItsRowGoesIn() returns (worlds: seq<World>, actions: seq<Action>)
    ensures IsRun(worlds, actions) && worlds[0] == INITIAL
    ensures actions == [Ask(0), EndAsk(0), Register(0)] && Unencoded(worlds[1], 0)
    ensures 0 in worlds[3].callers && !worlds[3].callers[0].asking && RowOf(worlds[3], WIRE, 0)
  {
    worlds := [INITIAL, ASKED_WORLD, ENDED_WORLD, Do(ENDED_WORLD, Register(0))];
    actions := [Ask(0), EndAsk(0), Register(0)];
    EncodingSteps();
    EndedSteps();
  }
}
