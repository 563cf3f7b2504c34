/**
 Answers arrive. `ReplyOutcomes` says that no caller gets an answer that was not given to it; this is the
 other half. An answer or a drop that reaches an unspent caller is what the caller gets, and in a run in
 which nothing is lost what the last holder of its handle said is what it has, or is on its way to it.
 */
module ReplyAnswers {
  import opened Wrappers
  import opened ReplyRouting
  import opened ReplyOutcomes
  import opened ReplyTokens

  // ---- One step -------------------------------------------------------------------------------------------

  predicate Unspent(w: World, c: nat) {
    c in w.callers && c !in w.outcome
  }

  predicate HasOutcome(w: World, c: nat, outcome: Outcome) {
    c in w.outcome && w.outcome[c] == outcome
  }

  /** A delivery to a caller's own wire settles that caller, with what was delivered. */
  lemma DeliveredToItsWire(w: World, c: nat, payload: Option<Payload>)
    requires SenderInv(w) && Unspent(w, c) && w.callers[c].wire.Some?
    ensures HasOutcome(Deliver(w, w.callers[c].wire.value, payload), c, OutcomeOf(payload))
  {
    assert CallerHolds(w, c);
  }

  lemma AnAnswerIsReceived(w: World, action: Action, c: nat, payload: Payload)
    requires SenderInv(w) && Enabled(w, action) && Unspent(w, c) && AnswersCaller(w, action, c, payload)
    ensures HasOutcome(Do(w, action), c, Answered(payload))
  {
    if Target(w, action).Some? {
      TargetedStep(w, action);
      DeliveredToItsWire(w, c, Target(w, action).value.1);
    }
  }

  /** From any state: a step gives an unspent caller this answer if and only if it hands it this answer. */
  lemma ACallerIsAnsweredIffItsAnswerArrives(w: World, action: Action, c: nat, payload: Payload)
    requires SenderInv(w) && Enabled(w, action) && Unspent(w, c)
    ensures HasOutcome(Do(w, action), c, Answered(payload)) <==> AnswersCaller(w, action, c, payload)
  {
    if HasOutcome(Do(w, action), c, Answered(payload)) {
      AnswersAreAddressed(w, action, c);
    }
    if AnswersCaller(w, action, c, payload) {
      AnAnswerIsReceived(w, action, c, payload);
    }
  }

  /** This step tells the caller that no answer is coming: dropped here or elsewhere, unreadable, or given up. */
  ghost predicate DropsCaller(w: World, action: Action, c: nat) {
    match action
    case EndLocal(h, answer) => answer == None && LocalOf(w, h, c)
    case EndRemote(_, _) => ToItsWire(w, action, c) && action.payload == None
    case DeliverReply(p, decodes) =>
      ToItsWire(w, action, c) && p in w.packets && w.packets[p].Reply? && Read(w.packets[p].payload, decodes) == None
    case EndAsk(_) => ToItsWire(w, action, c)
    case StandDown(n) => c in w.callers && w.callers[c].wire.Some? && w.callers[c].wire.value.origin == n
    case Register(h) =>
      && IsLocalHandle(w, h) && c in w.callers && w.callers[c].wire.Some?
      && w.callers[c].wire.value.origin == HomeOf(w, h)
      && w.callers[c].wire.value.corr !in Trimmed(NodeOf(Inserted(w, h), HomeOf(w, h)).waiting)
    case _ => false
  }

  predicate ToItsWire(w: World, action: Action, c: nat) {
    Target(w, action).Some? && c in w.callers && w.callers[c].wire == Some(Target(w, action).value.0)
  }

  lemma EvictedIsDropped(w: World, n: nat, kept: map<nat, nat>, c: nat)
    requires SenderInv(w) && Unspent(w, c)
    ensures HasOutcome(Evicted(w, n, kept), c, Dropped) <==>
            w.callers[c].wire.Some? && w.callers[c].wire.value.origin == n && w.callers[c].wire.value.corr !in kept
  {
    assert CallerHolds(w, c);
    var waiting := NodeOf(w, n).waiting;
    if c in Gone(waiting, kept) {
      var k :| k in waiting && k !in kept && waiting[k] == c;
      assert HasRow(w, Wire(n, k)) && RowHolds(w, Wire(n, k));
    }
  }

  lemma RegisterDrops(w: World, h: nat, c: nat)
    requires SenderInv(w) && Enabled(w, Register(h)) && Unspent(w, c)
    ensures HasOutcome(Do(w, Register(h)), c, Dropped) <==> DropsCaller(w, Register(h), c)
  {
    var w1 := Inserted(w, h);
    var home := HomeOf(w, h);
    var kept := Trimmed(NodeOf(w1, home).waiting);
    InsertedKeepsSenders(w, h);
    assert HandleHolds(w, h);
    EvictedIsDropped(w1, home, kept, c);
    if c == w.handles[h].caller {
      NewestIsKept(w, h);
    }
  }

  lemma NewestIsKept(w: World, h: nat)
    requires SenderInv(w) && Enabled(w, Register(h))
    ensures var wire := Inserted(w, h).callers[w.handles[h].caller].wire;
            wire.Some? && wire.value.corr in Trimmed(NodeOf(Inserted(w, h), HomeOf(w, h)).waiting)
  {
    var c := w.handles[h].caller;
    assert HandleHolds(w, h);
    var w1 := Inserted(w, h);
    var home := HomeOf(w, h);
    var waiting := NodeOf(w1, home).waiting;
    InsertedKeepsSenders(w, h);
    forall k | k in waiting
      ensures k <= w1.callers[c].wire.value.corr
    {
      assert HasRow(w1, Wire(home, k)) && RowHolds(w1, Wire(home, k));
      assert CallerHolds(w1, waiting[k]);
    }
    TheNewestStays(waiting, w1.callers[c].wire.value.corr);
  }

  lemma TargetedDrops(w: World, action: Action, c: nat)
    requires SenderInv(w) && Enabled(w, action) && Unspent(w, c) && Target(w, action).Some?
    ensures HasOutcome(Do(w, action), c, Dropped) <==> DropsCaller(w, action, c)
  {
    TargetedStep(w, action);
    var (wire, payload) := Target(w, action).value;
    assert HasRow(w, wire) ==> RowHolds(w, wire);
    if ToItsWire(w, action, c) {
      DeliveredToItsWire(w, c, payload);
    }
  }

  /** And it is told that there is none if and only if the step drops it. */
  lemma ACallerIsDroppedIffItsSenderIs(w: World, action: Action, c: nat)
    requires SenderInv(w) && Enabled(w, action) && Unspent(w, c)
    ensures HasOutcome(Do(w, action), c, Dropped) <==> DropsCaller(w, action, c)
  {
    if Target(w, action).Some? {
      TargetedDrops(w, action, c);
    } else if action.Register? {
      RegisterDrops(w, action.h, c);
    } else if action.StandDown? {
      EvictedIsDropped(w, action.node, map[], c);
    } else if action.EndLocal? {
      assert HandleHolds(w, action.h);
    } else {
      UntargetedStep(w, action);
    }
  }

  // ---- Whole runs -----------------------------------------------------------------------------------------

  /** Whatever still carries the wire carries this answer. */
  ghost predicate OnlySays(w: World, wire: Wire, payload: Payload) {
    IsMinted(w, wire) && forall t :: Owes(w, t, wire) ==> Carries(w, t, wire, payload) && t !in w.handles
  }

  /** A message that owes an answer is the same message for as long as it is there. */
  lemma StaysTheSame(w: World, action: Action, t: nat, wire: Wire, payload: Payload)
    requires Enabled(w, action) && !action.Register? && w.next !in w.handles && w.next !in w.packets
    requires Carries(w, t, wire, payload) && t !in w.handles && Owes(Do(w, action), t, wire)
    ensures Carries(Do(w, action), t, wire, payload) && t !in Do(w, action).handles
  {
  }

  /** And a new one is a copy of a message, or what a handle or a command became. */
  lemma NewDebts(w: World, action: Action, t: nat, wire: Wire)
    requires Enabled(w, action) && !action.Register? && !Owes(w, t, wire) && Owes(Do(w, action), t, wire)
    ensures || (Passes(w, action).Some? && Passes(w, action).value.1 == wire)
            || (action.Duplicate? && Owes(w, action.p, wire) && t == w.next && t in Do(w, action).packets &&
                Do(w, action).packets[t] == w.packets[action.p] && Do(w, action).handles == w.handles)
  {
  }

  lemma NothingPasses(w: World, action: Action, wire: Wire, payload: Payload)
    requires Enabled(w, action) && OnlySays(w, wire, payload) && Passes(w, action).Some?
    ensures Passes(w, action).value.1 != wire
  {
    var (from, passed) := Passes(w, action).value;
    assert passed == wire ==> Owes(w, from, wire);
  }

  lemma OneStillSays(w: World, action: Action, t: nat, wire: Wire, payload: Payload)
    requires SenderInv(w) && Enabled(w, action) && !action.Register? && OnlySays(w, wire, payload)
    requires Owes(Do(w, action), t, wire)
    ensures Carries(Do(w, action), t, wire, payload) && t !in Do(w, action).handles
  {
    IdsAreUsedOnce(w);
    if Owes(w, t, wire) {
      StaysTheSame(w, action, t, wire, payload);
    } else {
      if Passes(w, action).Some? {
        NothingPasses(w, action, wire, payload);
      }
      NewDebts(w, action, t, wire);
    }
  }

  lemma RegisterStillSays(w: World, h: nat, t: nat, wire: Wire, payload: Payload)
    requires SenderInv(w) && Enabled(w, Register(h)) && OnlySays(w, wire, payload)
    requires Owes(Do(w, Register(h)), t, wire)
    ensures Carries(Do(w, Register(h)), t, wire, payload) && t !in Do(w, Register(h)).handles
  {
    assert Owes(w, t, wire);
  }

  lemma StillOnlySays(w: World, action: Action, w': World, wire: Wire, payload: Payload)
    requires SenderInv(w) && Enabled(w, action) && w' == Do(w, action) && OnlySays(w, wire, payload)
    ensures OnlySays(w', wire, payload)
  {
    CountersGrow(w, action, wire.origin);
    forall t | Owes(w', t, wire)
      ensures Carries(w', t, wire, payload) && t !in w'.handles
    {
      if action.Register? {
        RegisterStillSays(w, action.h, t, wire, payload);
      } else {
        OneStillSays(w, action, t, wire, payload);
      }
    }
  }

  lemma OnlyThatAnswers(w: World, action: Action, c: nat, other: Payload, payload: Payload)
    requires SenderInv(w) && c in w.callers && w.callers[c].wire.Some?
    requires OnlySays(w, w.callers[c].wire.value, payload)
    ensures AnswersCaller(w, action, c, other) ==> other == payload
  {
    var wire := w.callers[c].wire.value;
    match action
    case EndLocal(h, _) => assert h in w.handles ==> HandleHolds(w, h);
    case EndRemote(h, _) => assert Owes(w, h, wire) ==> h !in w.handles;
    case DeliverReply(p, _) => assert Owes(w, p, wire) ==> Carries(w, p, wire, payload);
    case _ =>
  }

  /** Once its last token has said it, a caller can get no other answer. */
  lemma NoOtherAnswer(w: World, action: Action, c: nat, payload: Payload)
    requires SenderInv(w) && Enabled(w, action) && Unspent(w, c)
    requires w.callers[c].wire.Some? && OnlySays(w, w.callers[c].wire.value, payload)
    ensures forall other :: HasOutcome(Do(w, action), c, Answered(other)) ==> other == payload
  {
    forall other | HasOutcome(Do(w, action), c, Answered(other))
      ensures other == payload
    {
      AnswersAreAddressed(w, action, c);
      OnlyThatAnswers(w, action, c, other, payload);
    }
  }

  /** The one handle with a waiting caller's wire answers, on another host: the answer is all that is left. */
  lemma SayingLeavesTheAnswer(w: World, action: Action, wire: Wire, payload: Payload)
    requires SenderInv(w) && IdsApart(w) && Enabled(w, action) && SaysOn(w, action, wire, payload)
    requires wire.origin != w.handles[action.h].node && OnlyOwes(w, action.h, wire)
    ensures OnlySays(Do(w, action), wire, payload) && Carries(Do(w, action), w.next, wire, payload)
  {
    IdsAreUsedOnce(w);
    var w' := Do(w, action);
    assert HandleHolds(w, action.h);
    forall t | Owes(w', t, wire)
      ensures Carries(w', t, wire, payload) && t !in w'.handles
    {
      assert Owes(w, t, wire) || t == w.next;
    }
  }

  /** Where things stand once a caller's answer has been said: it has it, or was let go, or it is on its way. */
  ghost predicate SaidTo(w: World, c: nat, wire: Wire, payload: Payload) {
    && c in w.callers && w.callers[c].wire == Some(wire)
    && (|| HasOutcome(w, c, Answered(payload))
        || HasOutcome(w, c, Dropped)
        || (c !in w.outcome && OnlySays(w, wire, payload) && exists t :: Owes(w, t, wire)))
  }

  lemma SayingIsSaidTo(w: World, action: Action, w': World, c: nat, wire: Wire, payload: Payload)
    requires SenderInv(w) && IdsApart(w) && Enabled(w, action) && w' == Do(w, action) && Unspent(w, c)
    requires w.callers[c].wire == Some(wire) && SaysOn(w, action, wire, payload) && OnlyOwes(w, action.h, wire)
    ensures SaidTo(w', c, wire, payload)
  {
    WireStays(w, action, c);
    if wire.origin == w.handles[action.h].node {
      AnAnswerIsReceived(w, action, c, payload);
    } else {
      SayingLeavesTheAnswer(w, action, wire, payload);
      assert Owes(w', w.next, wire);
      assert w'.outcome == w.outcome;
    }
  }

  lemma UnspentHasItsRow(w: World, c: nat)
    requires SenderInv(w) && Unspent(w, c) && w.callers[c].wire.Some?
    ensures HasRow(w, w.callers[c].wire.value)
  {
    assert CallerHolds(w, c);
  }

  lemma StaysSaidTo(w: World, action: Action, w': World, c: nat, wire: Wire, payload: Payload)
    requires SenderInv(w) && IdsApart(w) && SenderInv(w') && Enabled(w, action) && w' == Do(w, action)
    requires Reliable(action) && SaidTo(w, c, wire, payload)
    ensures SaidTo(w', c, wire, payload)
  {
    WireStays(w, action, c);
    StepKeepsOutcomes(w, action);
    if c !in w.outcome {
      NoOtherAnswer(w, action, c, payload);
      StillOnlySays(w, action, w', wire, payload);
      if c !in w'.outcome {
        UnspentHasItsRow(w', c);
        var t :| Owes(w, t, wire);
        DebtsPersist(w, action, t, wire);
      } else {
        assert HasOutcome(w', c, w'.outcome[c]);
      }
    }
  }

  lemma AtTheSaying(worlds: seq<World>, actions: seq<Action>, j: nat, c: nat, payload: Payload)
    requires IsReliableRun(worlds, actions) && j < |actions| && Unspent(worlds[j], c)
    requires worlds[j].callers[c].wire.Some? && SaysOn(worlds[j], actions[j], worlds[j].callers[c].wire.value, payload)
    ensures SaidTo(worlds[j + 1], c, worlds[j].callers[c].wire.value, payload)
  {
    var w, wire := worlds[j], worlds[j].callers[c].wire.value;
    RunKeepsSenders(worlds, actions, j);
    RunKeepsIdsApart(worlds, actions, j);
    UnspentHasItsRow(w, c);
    EveryRowHasOneToken(worlds, actions, j, wire);
    assert Owes(w, actions[j].h, wire);
    forall s | Owes(w, s, wire)
      ensures s == actions[j].h
    {
      assert TokenWire(w, s) == Some(wire) && TokenWire(w, actions[j].h) == Some(wire);
    }
    SayingIsSaidTo(w, actions[j], worlds[j + 1], c, wire, payload);
  }

  lemma NextSaidTo(worlds: seq<World>, actions: seq<Action>, k: nat, c: nat, wire: Wire, payload: Payload)
    requires IsReliableRun(worlds, actions) && k < |actions| && SaidTo(worlds[k], c, wire, payload)
    ensures SaidTo(worlds[k + 1], c, wire, payload)
  {
    RunKeepsSenders(worlds, actions, k);
    RunKeepsSenders(worlds, actions, k + 1);
    RunKeepsIdsApart(worlds, actions, k);
    StaysSaidTo(worlds[k], actions[k], worlds[k + 1], c, wire, payload);
  }

  lemma {:induction false} LaterSaidTo(
      worlds: seq<World>, actions: seq<Action>, j: nat, k: nat, c: nat, wire: Wire, payload: Payload)
    requires IsReliableRun(worlds, actions) && j <= k < |worlds| && SaidTo(worlds[j], c, wire, payload)
    ensures SaidTo(worlds[k], c, wire, payload)
    decreases k
  {
    if j < k {
      LaterSaidTo(worlds, actions, j, k - 1, c, wire, payload);
      NextSaidTo(worlds, actions, k - 1, c, wire, payload);
    }
  }

  /**
   In a reliable run, from the moment whoever holds a waiting caller's handle answers it: the caller has
   that answer, or has been let go, or that answer and nothing else is on its way to it.
   */
  lemma WhatTheHolderSaidIsWhatTheCallerGets(
      worlds: seq<World>, actions: seq<Action>, j: nat, k: nat, c: nat, payload: Payload)
    requires IsReliableRun(worlds, actions) && j < k < |worlds| && Unspent(worlds[j], c)
    requires worlds[j].callers[c].wire.Some? && SaysOn(worlds[j], actions[j], worlds[j].callers[c].wire.value, payload)
    ensures SaidTo(worlds[k], c, worlds[j].callers[c].wire.value, payload)
  {
    AtTheSaying(worlds, actions, j, c, payload);
    LaterSaidTo(worlds, actions, j + 1, k, c, worlds[j].callers[c].wire.value, payload);
  }

  /** So once no message is left, it has that answer unless it was let go. */
  lemma ADeliveredAnswerIsTheOneGiven(worlds: seq<World>, actions: seq<Action>, j: nat, k: nat, c: nat, payload: Payload)
    requires IsReliableRun(worlds, actions) && j < k < |worlds| && Unspent(worlds[j], c)
    requires worlds[j].callers[c].wire.Some? && SaysOn(worlds[j], actions[j], worlds[j].callers[c].wire.value, payload)
    requires worlds[k].packets == map[]
    ensures HasOutcome(worlds[k], c, Answered(payload)) || HasOutcome(worlds[k], c, Dropped)
  {
    WhatTheHolderSaidIsWhatTheCallerGets(worlds, actions, j, k, c, payload);
  }
}
