/**
 What becomes of a command after its mailbox has taken it (`serve` and `run_actor` in `src/runtime.rs`,
 behind `dispatch` in `src/system.rs`).

 An instance takes commands from its mailbox one at a time and handles them; a stop, a stand-down or
 its own decision makes it leave, and then the command in hand and everything still queued is lost. The
 mailbox itself closes only when the instance's task has ended, so for a while it goes on taking commands
 that nobody will handle. Commands are known here by their place among the accepted ids.
 */
module Mailbox {
  import opened Wrappers
  import opened Dedup

  datatype Phase = Serving | Left | Closed

  /** `delivered` is everything this mailbox ever took, and `handled` what its instance finished, in order. */
  datatype Box = Box(queue: seq<nat>, inHand: Option<nat>, handled: seq<nat>, delivered: seq<nat>, phase: Phase)

  const NEW_BOX := Box([], None, [], [], Serving)

  /** Which mailbox took a command, and as which of its commands. */
  datatype Place = Place(box: nat, at: nat)

  /** `first` is, for every accepted id, the arrival that was let through, and `line` where it went. */
  datatype World = World(inbox: Inbox, first: seq<Arrival>, line: seq<Option<Place>>, boxes: map<nat, Box>)

  const START := World(NOTHING_YET, [], [], map[])

  datatype Action =
    | Spawn(i: nat)
    | Arrive(a: Arrival, to: nat)
    | Take(i: nat)                    // the instance takes the next command in hand
    | Finish(i: nat, stop: bool)      // its handler is done, and may have decided to stop
    | Leave(i: nat)                   // asked to stop or stood down, between commands or in the middle of one
    | Close(i: nat)                   // the task has ended and with it the mailbox

  predicate InPhase(w: World, i: nat, phase: Phase) {
    i in w.boxes && w.boxes[i].phase == phase
  }

  predicate Enabled(w: World, action: Action) {
    match action
    case Spawn(i) => i !in w.boxes
    case Arrive(a, to) => a.reception.open <==> to in w.boxes && w.boxes[to].phase != Closed
    case Take(i) => InPhase(w, i, Serving) && w.boxes[i].inHand.None? && w.boxes[i].queue != []
    case Finish(i, _) => InPhase(w, i, Serving) && w.boxes[i].inHand.Some?
    case Leave(i) => InPhase(w, i, Serving)
    case Close(i) => InPhase(w, i, Left)
  }

  function Put(w: World, i: nat, box: Box): World {
    w.(boxes := w.boxes[i := box])
  }

  function Arrived(w: World, capacity: nat, a: Arrival, to: nat): World
    requires a.reception.open ==> to in w.boxes
  {
    var fate := FateOf(w.inbox, capacity, a);
    var inbox := Dispatched(w.inbox, capacity, a);
    if !IsAcceptance(fate) then w
    else if fate != Delivered then w.(inbox := inbox, first := w.first + [a], line := w.line + [None])
    else
      var p, box := |w.inbox.accepted|, w.boxes[to];
      Put(w.(inbox := inbox, first := w.first + [a], line := w.line + [Some(Place(to, |box.delivered|))]), to,
          box.(queue := box.queue + [p], delivered := box.delivered + [p]))
  }

  function Do(w: World, capacity: nat, action: Action): World
    requires Enabled(w, action)
  {
    match action
    case Spawn(i) => Put(w, i, NEW_BOX)
    case Arrive(a, to) => Arrived(w, capacity, a, to)
    case Take(i) => Put(w, i, w.boxes[i].(queue := w.boxes[i].queue[1..], inHand := Some(w.boxes[i].queue[0])))
    case Finish(i, stop) =>
      var box := w.boxes[i];
      Put(w, i, box.(inHand := None, handled := box.handled + [box.inHand.value], phase := if stop then Left else Serving))
    case Leave(i) => Put(w, i, w.boxes[i].(inHand := None, phase := Left))
    case Close(i) => Put(w, i, w.boxes[i].(queue := [], phase := Closed))
  }

  ghost predicate IsRun(worlds: seq<World>, actions: seq<Action>, capacity: nat) {
    && |worlds| == |actions| + 1 && worlds[0] == START
    && forall k :: 0 <= k < |actions| ==>
         Enabled(worlds[k], actions[k]) && worlds[k + 1] == Do(worlds[k], capacity, actions[k])
  }

  // ---- First in, first handled ----------------------------------------------------------------------------

  function Held(inHand: Option<nat>): seq<nat> {
    if inHand.Some? then [inHand.value] else []
  }

  ghost predicate Increasing(s: seq<nat>) {
    forall i, j :: 0 <= i < j < |s| ==> s[i] < s[j]
  }

  /** While it serves, what a mailbox took is what was handled, then what is in hand, then the queue. */
  ghost predicate BoxHolds(w: World, i: nat)
    requires i in w.boxes
  {
    var box := w.boxes[i];
    && (box.phase == Serving ==> box.handled + Held(box.inHand) + box.queue == box.delivered)
    && (box.phase != Serving ==> box.inHand.None?)
    && box.handled <= box.delivered && Increasing(box.delivered)
    && forall at :: 0 <= at < |box.delivered| ==> Lined(w, i, at)
  }

  /** What a mailbox took is lined up there, and only there. */
  ghost predicate Lined(w: World, i: nat, at: nat)
    requires i in w.boxes && at < |w.boxes[i].delivered|
  {
    var p := w.boxes[i].delivered[at];
    p < |w.line| && w.line[p] == Some(Place(i, at))
  }

  ghost predicate CommandHolds(w: World, p: nat)
    requires p < |w.line| && |w.line| == |w.first| == |w.inbox.fates|
  {
    && (w.inbox.fates[p] == Delivered <==> w.line[p].Some?)
    && (w.inbox.fates[p] == Delivered <==> Takes(w.first[p]))
    && (w.line[p].Some? ==>
          && w.line[p].value.box in w.boxes && w.line[p].value.at < |w.boxes[w.line[p].value.box].delivered|
          && w.boxes[w.line[p].value.box].delivered[w.line[p].value.at] == p)
  }

  ghost predicate MailInv(w: World, capacity: nat) {
    && InboxInv(w.inbox, capacity)
    && |w.line| == |w.first| == |w.inbox.accepted|
    && (forall i :: i in w.boxes ==> BoxHolds(w, i))
    && (forall p :: 0 <= p < |w.line| ==> CommandHolds(w, p))
    && (forall p :: 0 <= p < |w.first| ==> IsCommand(w.first[p], w.inbox.accepted[p]) && w.first[p].serving)
  }

  /** A step inside one mailbox that takes nothing new. */
  lemma BoxStepKeepsMail(w: World, capacity: nat, i: nat, box: Box)
    requires MailInv(w, capacity) && i in w.boxes && box.delivered == w.boxes[i].delivered
    requires box.phase == Serving ==> box.handled + Held(box.inHand) + box.queue == box.delivered
    requires (box.phase != Serving ==> box.inHand.None?) && box.handled <= box.delivered
    ensures MailInv(Put(w, i, box), capacity)
  {
    var w' := Put(w, i, box);
    forall j | j in w'.boxes
      ensures BoxHolds(w', j)
    {
      assert BoxHolds(w, j);
      forall at | 0 <= at < |w'.boxes[j].delivered|
        ensures Lined(w', j, at)
      {
        assert Lined(w, j, at);
      }
    }
    forall p | 0 <= p < |w'.line|
      ensures CommandHolds(w', p)
    {
      assert CommandHolds(w, p);
    }
  }

  lemma SpawnKeepsMail(w: World, capacity: nat, i: nat)
    requires MailInv(w, capacity) && i !in w.boxes
    ensures MailInv(Put(w, i, NEW_BOX), capacity)
  {
    var w' := Put(w, i, NEW_BOX);
    forall j | j in w'.boxes
      ensures BoxHolds(w', j)
    {
      if j != i {
        assert BoxHolds(w, j);
        forall at | 0 <= at < |w'.boxes[j].delivered|
          ensures Lined(w', j, at)
        {
          assert Lined(w, j, at);
        }
      }
    }
    forall p | 0 <= p < |w'.line|
      ensures CommandHolds(w', p)
    {
      assert CommandHolds(w, p);
    }
  }

  lemma InboxKept(w: World, capacity: nat, a: Arrival)
    requires MailInv(w, capacity)
    ensures InboxInv(Dispatched(w.inbox, capacity, a), capacity)
  {
    if a.message.Command? {
      AcceptingKeepsSpaced(w.inbox.accepted, capacity, a.message.id);
    }
  }

  lemma StillIncreasing(s: seq<nat>, last: nat)
    requires Increasing(s) && forall i :: 0 <= i < |s| ==> s[i] < last
    ensures Increasing(s + [last])
  {
  }

  lemma ArrivedBox(w: World, capacity: nat, a: Arrival, to: nat, j: nat)
    requires MailInv(w, capacity) && Enabled(w, Arrive(a, to)) && j in w.boxes
    ensures BoxHolds(Arrived(w, capacity, a, to), j)
  {
    var w' := Arrived(w, capacity, a, to);
    assert BoxHolds(w, j);
    var box, box' := w.boxes[j], w'.boxes[j];
    forall at | 0 <= at < |box.delivered|
      ensures Lined(w', j, at) && box.delivered[at] < |w.inbox.accepted|
    {
      assert Lined(w, j, at);
    }
    StillIncreasing(box.delivered, |w.inbox.accepted|);
    if box'.phase == Serving && box' != box {
      assert box.handled + Held(box.inHand) + (box.queue + [|w.inbox.accepted|]) ==
             (box.handled + Held(box.inHand) + box.queue) + [|w.inbox.accepted|];
    }
  }

  lemma ArrivedCommand(w: World, capacity: nat, a: Arrival, to: nat, p: nat)
    requires MailInv(w, capacity) && Enabled(w, Arrive(a, to)) && p < |Arrived(w, capacity, a, to).line|
    ensures var w' := Arrived(w, capacity, a, to);
            && |w'.line| == |w'.first| == |w'.inbox.fates| == |w'.inbox.accepted|
            && CommandHolds(w', p) && IsCommand(w'.first[p], w'.inbox.accepted[p]) && w'.first[p].serving
  {
    if p < |w.line| {
      assert CommandHolds(w, p);
    }
  }

  lemma ArriveKeepsMail(w: World, capacity: nat, a: Arrival, to: nat)
    requires MailInv(w, capacity) && Enabled(w, Arrive(a, to))
    ensures MailInv(Arrived(w, capacity, a, to), capacity)
  {
    var w' := Arrived(w, capacity, a, to);
    InboxKept(w, capacity, a);
    forall j | j in w'.boxes
      ensures BoxHolds(w', j)
    {
      ArrivedBox(w, capacity, a, to, j);
    }
    forall p | 0 <= p < |w'.line|
      ensures |w'.line| == |w'.first| == |w'.inbox.fates| == |w'.inbox.accepted|
      ensures CommandHolds(w', p) && IsCommand(w'.first[p], w'.inbox.accepted[p]) && w'.first[p].serving
    {
      ArrivedCommand(w, capacity, a, to, p);
    }
  }

  lemma StepKeepsMail(w: World, capacity: nat, action: Action)
    requires MailInv(w, capacity) && Enabled(w, action)
    ensures MailInv(Do(w, capacity, action), capacity)
  {
    match action
    case Spawn(i) => SpawnKeepsMail(w, capacity, i);
    case Arrive(a, to) => ArriveKeepsMail(w, capacity, a, to);
    case Take(i) =>
      var box := w.boxes[i];
      assert BoxHolds(w, i);
      assert box.queue == [box.queue[0]] + box.queue[1..];
      BoxStepKeepsMail(w, capacity, i, box.(queue := box.queue[1..], inHand := Some(box.queue[0])));
    case Finish(i, stop) =>
      var box := w.boxes[i];
      assert BoxHolds(w, i);
      BoxStepKeepsMail(w, capacity, i, Do(w, capacity, action).boxes[i]);
    case Leave(i) =>
      assert BoxHolds(w, i);
      BoxStepKeepsMail(w, capacity, i, w.boxes[i].(inHand := None, phase := Left));
    case Close(i) =>
      assert BoxHolds(w, i);
      BoxStepKeepsMail(w, capacity, i, w.boxes[i].(queue := [], phase := Closed));
  }

  lemma {:induction false} RunKeepsMail(worlds: seq<World>, actions: seq<Action>, capacity: nat, k: nat)
    requires IsRun(worlds, actions, capacity) && k < |worlds|
    ensures MailInv(worlds[k], capacity)
  {
    if k > 0 {
      RunKeepsMail(worlds, actions, capacity, k - 1);
      StepKeepsMail(worlds[k - 1], capacity, actions[k - 1]);
    }
  }

  // ---- Was it applied? --------------------------------------------------------------------------------------

  /** Some instance has finished handling this command. */
  ghost predicate Applied(w: World, p: nat) {
    exists i :: i in w.boxes && p in w.boxes[i].handled
  }

  /** Its mailbox took it, and its instance has finished at least as many commands as it was in line. */
  predicate ItsTurnCame(w: World, p: nat) {
    && p < |w.line| && w.line[p].Some? && w.line[p].value.box in w.boxes
    && w.line[p].value.at < |w.boxes[w.line[p].value.box].handled|
  }

  /** A command is handled if and only if it was delivered and its turn came before its instance left. */
  lemma AppliedIffItsTurnCame(w: World, capacity: nat, p: nat)
    requires MailInv(w, capacity) && p < |w.line|
    ensures Applied(w, p) <==> Takes(w.first[p]) && ItsTurnCame(w, p)
  {
    assert CommandHolds(w, p);
    if Applied(w, p) {
      var i :| i in w.boxes && p in w.boxes[i].handled;
      var box := w.boxes[i];
      var at :| 0 <= at < |box.handled| && box.handled[at] == p;
      assert BoxHolds(w, i);
      assert box.delivered[at] == p;
      assert Lined(w, i, at);
    }
    if ItsTurnCame(w, p) {
      var place := w.line[p].value;
      assert BoxHolds(w, place.box);
      assert w.boxes[place.box].handled[place.at] == p;
    }
  }

  lemma LaterInLine(w: World, action: Action, capacity: nat, p: nat)
    requires Enabled(w, action) && p < |w.line| && |w.line| == |w.first|
    ensures var w' := Do(w, capacity, action);
            p < |w'.line| && w'.line[p] == w.line[p] && p < |w'.first| && w'.first[p] == w.first[p]
  {
  }

  /** An instance that has left handles nothing more. */
  lemma LeftHandlesNoMore(w: World, action: Action, capacity: nat, i: nat)
    requires Enabled(w, action) && i in w.boxes && w.boxes[i].phase != Serving
    ensures var w' := Do(w, capacity, action);
            i in w'.boxes && w'.boxes[i].phase != Serving && w'.boxes[i].handled == w.boxes[i].handled
  {
  }

  /** Its own decision to stop, or anyone else's. */
  predicate EndsServing(action: Action, i: nat) {
    action == Finish(i, true) || action == Leave(i) || action == Close(i)
  }

  /** A stop takes effect at once: not one more command is handled, however many are queued. */
  lemma {:induction false} NothingIsHandledAfterAStop(worlds: seq<World>, actions: seq<Action>, capacity: nat, k: nat, m: nat, i: nat)
    requires IsRun(worlds, actions, capacity) && k < m < |worlds| && EndsServing(actions[k], i)
    ensures i in worlds[k + 1].boxes && i in worlds[m].boxes && worlds[m].boxes[i].phase != Serving
    ensures worlds[m].boxes[i].handled == worlds[k + 1].boxes[i].handled
    decreases m
  {
    assert Enabled(worlds[k], actions[k]) && worlds[k + 1] == Do(worlds[k], capacity, actions[k]);
    if m > k + 1 {
      NothingIsHandledAfterAStop(worlds, actions, capacity, k, m - 1, i);
      LeftHandlesNoMore(worlds[m - 1], actions[m - 1], capacity, i);
    }
  }

  /** What a mailbox still held when its task ended is gone, and it takes nothing more. */
  lemma {:induction false} AClosedMailboxIsEmptyForGood(worlds: seq<World>, actions: seq<Action>, capacity: nat, k: nat, m: nat, i: nat)
    requires IsRun(worlds, actions, capacity) && k < m < |worlds| && actions[k] == Close(i)
    ensures i in worlds[k].boxes && InPhase(worlds[m], i, Closed) && worlds[m].boxes[i].queue == []
    ensures worlds[m].boxes[i].delivered == worlds[k].boxes[i].delivered
    decreases m
  {
    assert Enabled(worlds[k], actions[k]) && worlds[k + 1] == Do(worlds[k], capacity, actions[k]);
    if m > k + 1 {
      AClosedMailboxIsEmptyForGood(worlds, actions, capacity, k, m - 1, i);
      assert Enabled(worlds[m - 1], actions[m - 1]) && worlds[m] == Do(worlds[m - 1], capacity, actions[m - 1]);
    }
  }

  /** Its place in line is with an instance that has left, and its turn had not come. */
  predicate Lost(w: World, p: nat) {
    && p < |w.line| && w.line[p].Some? && w.line[p].value.box in w.boxes
    && w.boxes[w.line[p].value.box].phase != Serving && !ItsTurnCame(w, p)
  }

  lemma StaysLost(w: World, action: Action, capacity: nat, p: nat)
    requires MailInv(w, capacity) && Enabled(w, action) && Lost(w, p)
    ensures Lost(Do(w, capacity, action), p)
  {
    LaterInLine(w, action, capacity, p);
    LeftHandlesNoMore(w, action, capacity, w.line[p].value.box);
  }

  lemma {:induction false} LostInRuns(worlds: seq<World>, actions: seq<Action>, capacity: nat, j: nat, k: nat, p: nat)
    requires IsRun(worlds, actions, capacity) && j <= k < |worlds| && Lost(worlds[j], p)
    ensures Lost(worlds[k], p)
    decreases k
  {
    if j < k {
      LostInRuns(worlds, actions, capacity, j, k - 1, p);
      RunKeepsMail(worlds, actions, capacity, k - 1);
      StaysLost(worlds[k - 1], actions[k - 1], capacity, p);
    }
  }

  /** A command whose instance left before its turn is never applied, in any continuation. */
  lemma ALostCommandIsNeverApplied(worlds: seq<World>, actions: seq<Action>, capacity: nat, j: nat, k: nat, p: nat)
    requires IsRun(worlds, actions, capacity) && j <= k < |worlds| && Lost(worlds[j], p)
    ensures !Applied(worlds[k], p)
  {
    LostInRuns(worlds, actions, capacity, j, k, p);
    RunKeepsMail(worlds, actions, capacity, k);
    AppliedIffItsTurnCame(worlds[k], capacity, p);
  }

  /** Where an id in the window was accepted last. */
  lemma RecentAt(accepted: seq<nat>, capacity: nat, id: nat) returns (p: nat)
    requires id in Recent(accepted, capacity) && Spaced(accepted, capacity)
    ensures p < |accepted| <= p + capacity && accepted[p] == id
    ensures forall q :: p < q < |accepted| ==> accepted[q] != id
  {
    var recent := Recent(accepted, capacity);
    var i :| 0 <= i < |recent| && recent[i] == id;
    p := i + |accepted| - |recent|;
    assert accepted[p] == id;
  }

  /**
   A repeat is reported as a success because its command has been applied. It has been, when the repeat
   arrives, if and only if the arrival behind it was taken by its mailbox and its turn has come.
   */
  lemma ARepeatWasAppliedIffItsTurnCame(worlds: seq<World>, actions: seq<Action>, capacity: nat, k: nat)
    returns (p: nat)
    requires IsRun(worlds, actions, capacity) && k < |actions| && actions[k].Arrive?
    requires FateOf(worlds[k].inbox, capacity, actions[k].a) == Repeat
    ensures var w := worlds[k];
            && p < |w.line| == |w.first| == |w.inbox.accepted| <= p + capacity
            && IsCommand(w.first[p], actions[k].a.message.id)
            && (forall q :: p < q < |w.inbox.accepted| ==> w.inbox.accepted[q] != actions[k].a.message.id)
            && (Applied(w, p) <==> Takes(w.first[p]) && ItsTurnCame(w, p))
            && (Lost(w, p) ==> forall m :: k <= m < |worlds| ==> !Applied(worlds[m], p))
  {
    var w := worlds[k];
    RunKeepsMail(worlds, actions, capacity, k);
    p := RecentAt(w.inbox.accepted, capacity, actions[k].a.message.id);
    AppliedIffItsTurnCame(w, capacity, p);
    if Lost(w, p) {
      forall m | k <= m < |worlds|
        ensures !Applied(worlds[m], p)
      {
        ALostCommandIsNeverApplied(worlds, actions, capacity, k, m, p);
      }
    }
  }

  /** What is in hand is handled when its handler is done, and what was longest in the queue is taken next. */
  lemma FinishingApplies(w: World, capacity: nat, i: nat, stop: bool)
    requires Enabled(w, Finish(i, stop))
    ensures Applied(Do(w, capacity, Finish(i, stop)), w.boxes[i].inHand.value)
  {
    var w' := Do(w, capacity, Finish(i, stop));
    assert i in w'.boxes && w.boxes[i].inHand.value in w'.boxes[i].handled;
  }

  /** A command at the head of a serving instance's queue can be handled in two steps. */
  lemma TheNextCommandCanBeHandled(w: World, capacity: nat, i: nat)
    requires MailInv(w, capacity) && Enabled(w, Take(i))
    ensures var at := |w.boxes[i].handled|;
            && at < |w.boxes[i].delivered|
            && var taken := Do(w, capacity, Take(i));
               && Enabled(taken, Finish(i, false))
               && Applied(Do(taken, capacity, Finish(i, false)), w.boxes[i].delivered[at])
  {
    assert BoxHolds(w, i);
    var box := w.boxes[i];
    assert box.delivered == box.handled + box.queue;
    FinishingApplies(Do(w, capacity, Take(i)), capacity, i, false);
  }

  /** Everything any mailbox ever took arrived as a command while the node was serving. */
  lemma DeliveredOnlyWhileServing(worlds: seq<World>, actions: seq<Action>, capacity: nat, k: nat, i: nat, at: nat)
    requires IsRun(worlds, actions, capacity) && k < |worlds| && i in worlds[k].boxes
    requires at < |worlds[k].boxes[i].delivered|
    ensures var p := worlds[k].boxes[i].delivered[at];
            p < |worlds[k].first| && worlds[k].first[p].serving && Takes(worlds[k].first[p])
  {
    var w := worlds[k];
    RunKeepsMail(worlds, actions, capacity, k);
    assert BoxHolds(w, i) && Lined(w, i, at);
    assert CommandHolds(w, w.boxes[i].delivered[at]);
  }

  /** No command is handled twice, and one instance handles its commands in the order they were accepted. */
  lemma HandledOnceAndInOrder(
      worlds: seq<World>, actions: seq<Action>, capacity: nat, k: nat, i: nat, i': nat, at: nat, at': nat)
    requires IsRun(worlds, actions, capacity) && k < |worlds| && i in worlds[k].boxes && i' in worlds[k].boxes
    requires at < |worlds[k].boxes[i].handled| && at' < |worlds[k].boxes[i'].handled|
    ensures worlds[k].boxes[i].handled[at] == worlds[k].boxes[i'].handled[at'] ==> i == i' && at == at'
    ensures i == i' && at < at' ==> worlds[k].boxes[i].handled[at] < worlds[k].boxes[i'].handled[at']
  {
    var w := worlds[k];
    RunKeepsMail(worlds, actions, capacity, k);
    assert BoxHolds(w, i) && BoxHolds(w, i');
    assert Lined(w, i, at) && Lined(w, i', at');
    assert w.boxes[i].handled[at] == w.boxes[i].delivered[at];
    assert w.boxes[i'].handled[at'] == w.boxes[i'].delivered[at'];
  }

  // ---- The losing inputs --------------------------------------------------------------------------------------

  const FIRST := First({"t"}, GOOD)

  const TAKEN_IN := World(Inbox([0], [Delivered]), [FIRST], [Some(Place(0, 0))],
                          map[0 := Box([0], None, [], [0], Serving)])

  const DROPPED := TAKEN_IN.(boxes := map[0 := Box([0], None, [], [0], Left)])

  const CANCELLED := TAKEN_IN.(boxes := map[0 := Box([], None, [], [0], Left)])

  lemma TakenIn(capacity: nat)
    requires capacity > 0
    ensures Do(Put(START, 0, NEW_BOX), capacity, Arrive(FIRST, 0)) == TAKEN_IN
    ensures FateOf(TAKEN_IN.inbox, capacity, FIRST) == Repeat
  {
    var w := Do(Put(START, 0, NEW_BOX), capacity, Arrive(FIRST, 0));
    var none: seq<nat> := [];
    assert none + [0] == [0];
    assert w.boxes[0] == Box([0], None, [], [0], Serving);
    assert w.boxes.Keys == TAKEN_IN.boxes.Keys == {0};
    assert w.boxes == TAKEN_IN.boxes;
    assert w.inbox == TAKEN_IN.inbox && w.line == TAKEN_IN.line && w.first == TAKEN_IN.first;
  }

  /** The instance leaves with the command still queued: its retry is a success, and it is lost. */
  lemma AQueuedCommandCanBeLost(capacity: nat) returns (worlds: seq<World>, actions: seq<Action>)
    requires capacity > 0
    ensures IsRun(worlds, actions, capacity) && actions == [Spawn(0), Arrive(FIRST, 0), Leave(0), Arrive(FIRST, 0)]
    ensures FateOf(worlds[3].inbox, capacity, FIRST) == Repeat && Lost(worlds[3], 0)
  {
    TakenIn(capacity);
    var w1 := Put(START, 0, NEW_BOX);
    assert Do(TAKEN_IN, capacity, Leave(0)).boxes == DROPPED.boxes;
    worlds := [START, w1, TAKEN_IN, DROPPED, Do(DROPPED, capacity, Arrive(FIRST, 0))];
    actions := [Spawn(0), Arrive(FIRST, 0), Leave(0), Arrive(FIRST, 0)];
  }

  /** Or with the command in hand: the handler is cancelled in the middle, with the same result. */
  lemma ACommandInHandCanBeLost(capacity: nat) returns (worlds: seq<World>, actions: seq<Action>)
    requires capacity > 0
    ensures IsRun(worlds, actions, capacity)
    ensures actions == [Spawn(0), Arrive(FIRST, 0), Take(0), Leave(0), Arrive(FIRST, 0)]
    ensures FateOf(worlds[4].inbox, capacity, FIRST) == Repeat && Lost(worlds[4], 0)
  {
    TakenIn(capacity);
    var w1 := Put(START, 0, NEW_BOX);
    var w3 := TAKEN_IN.(boxes := map[0 := Box([], Some(0), [], [0], Serving)]);
    assert TAKEN_IN.boxes[0].queue[1..] == [];
    assert Do(TAKEN_IN, capacity, Take(0)).boxes == w3.boxes;
    assert Do(w3, capacity, Leave(0)).boxes == CANCELLED.boxes;
    worlds := [START, w1, TAKEN_IN, w3, CANCELLED, Do(CANCELLED, capacity, Arrive(FIRST, 0))];
    actions := [Spawn(0), Arrive(FIRST, 0), Take(0), Leave(0), Arrive(FIRST, 0)];
  }
}
