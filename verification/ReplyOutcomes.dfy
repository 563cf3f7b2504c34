/**
 What every run of the reply protocol keeps, whatever is lost, repeated, evicted or given up:
 one outcome a caller, answers that were really given to that caller, bounded tables, and no row
 left by an ask that ended after its handle was encoded.
 */
module ReplyOutcomes {
  import opened Wrappers
  import opened Ordered
  import opened ReplyRouting

  lemma {:induction false} RunKeepsSenders(worlds: seq<World>, actions: seq<Action>, k: nat)
    requires IsRun(worlds, actions) && worlds[0] == INITIAL && k < |worlds|
    ensures SenderInv(worlds[k])
  {
    if k > 0 {
      RunKeepsSenders(worlds, actions, k - 1);
      StepKeepsSenders(worlds[k - 1], actions[k - 1]);
    }
  }

  // Which steps touch rows and outcomes, and how.

  /** The row a step spends, if it goes looking for one, and what it delivers there. */
  function Target(w: World, action: Action): Option<(Wire, Option<Payload>)> {
    match action
    case EndRemote(h, payload) =>
      if h in w.handles && w.handles[h].Remote? && w.handles[h].wire.origin == w.handles[h].node
      then Some((w.handles[h].wire, payload)) else None
    case DeliverReply(p, decodes) =>
      if p in w.packets && w.packets[p].Reply? then Some((WireOf(w.packets[p]), Read(w.packets[p].payload, decodes)))
      else None
    case EndAsk(c) =>
      if c in w.callers && w.callers[c].slot.Some?
      then Some((Wire(w.callers[c].home, w.callers[c].slot.value), None)) else None
    case _ => None
  }

  lemma TargetedStep(w: World, action: Action)
    requires Enabled(w, action) && Target(w, action).Some?
    ensures var (wire, payload) := Target(w, action).value;
            && Do(w, action).nodes == Deliver(w, wire, payload).nodes
            && Do(w, action).outcome == Deliver(w, wire, payload).outcome
  {
  }

  predicate IsEviction(action: Action) {
    action.Register? || action.StandDown?
  }

  lemma UntargetedStep(w: World, action: Action)
    requires Enabled(w, action) && Target(w, action).None? && !IsEviction(action)
    ensures Do(w, action).nodes == w.nodes
    ensures !action.EndLocal? ==> Do(w, action).outcome == w.outcome
  {
  }

  // ---- One outcome ----------------------------------------------------------------------

  ghost predicate OutcomesKept(w: World, w': World) {
    forall c :: c in w.outcome ==> c in w'.outcome && w'.outcome[c] == w.outcome[c]
  }

  lemma EvictedKeepsOutcomes(w: World, n: nat, kept: map<nat, nat>)
    requires SenderInv(w)
    ensures OutcomesKept(w, Evicted(w, n, kept))
  {
    forall c | c in w.outcome
      ensures c !in Gone(NodeOf(w, n).waiting, kept)
    {
      if c in Gone(NodeOf(w, n).waiting, kept) {
        GoneIsUnspent(w, n, kept, c);
        assert false;
      }
    }
  }

  lemma RegisterKeepsOutcomes(w: World, h: nat)
    requires SenderInv(w) && Enabled(w, Register(h))
    ensures OutcomesKept(w, Do(w, Register(h)))
  {
    InsertedKeepsSenders(w, h);
    var home := w.callers[w.handles[h].caller].home;
    EvictedKeepsOutcomes(Inserted(w, h), home, Trimmed(NodeOf(Inserted(w, h), home).waiting));
  }

  lemma EndLocalKeepsOutcomes(w: World, h: nat, payload: Option<Payload>)
    requires SenderInv(w) && Enabled(w, EndLocal(h, payload))
    ensures OutcomesKept(w, Do(w, EndLocal(h, payload)))
  {
    assert HandleHolds(w, h);
  }

  lemma StepKeepsOutcomes(w: World, action: Action)
    requires SenderInv(w) && Enabled(w, action)
    ensures OutcomesKept(w, Do(w, action))
  {
    if Target(w, action).Some? {
      TargetedStep(w, action);
      var wire := Target(w, action).value.0;
      assert HasRow(w, wire) ==> RowHolds(w, wire);
    } else if action.Register? {
      RegisterKeepsOutcomes(w, action.h);
    } else if action.StandDown? {
      EvictedKeepsOutcomes(w, action.node, map[]);
    } else if action.EndLocal? {
      EndLocalKeepsOutcomes(w, action.h, action.payload);
    } else {
      UntargetedStep(w, action);
    }
  }

  /** At most one outcome: the first one a caller gets is the one it has at the end of the run. */
  lemma {:induction false} TheFirstOutcomeStands(worlds: seq<World>, actions: seq<Action>, c: nat, j: nat, k: nat)
    requires IsRun(worlds, actions) && worlds[0] == INITIAL
    requires j <= k < |worlds| && c in worlds[j].outcome
    ensures c in worlds[k].outcome && worlds[k].outcome[c] == worlds[j].outcome[c]
  {
    if j < k {
      TheFirstOutcomeStands(worlds, actions, c, j, k - 1);
      RunKeepsSenders(worlds, actions, k - 1);
      StepKeepsOutcomes(worlds[k - 1], actions[k - 1]);
    }
  }

  /** And until then the right to answer it is in exactly one place, its first handle or its row. */
  lemma AnUnspentSenderIsInOnePlace(worlds: seq<World>, actions: seq<Action>, c: nat)
    requires IsRun(worlds, actions) && worlds[0] == INITIAL
    requires var w := worlds[|worlds| - 1]; c in w.callers && c !in w.outcome
    ensures var w := worlds[|worlds| - 1];
            var wire := w.callers[c].wire;
            && (forall h :: LocalOf(w, h, c) <==> h == c && wire.None?)
            && (forall row :: RowOf(w, row, c) <==> Some(row) == wire)
  {
    var w := worlds[|worlds| - 1];
    RunKeepsSenders(worlds, actions, |worlds| - 1);
    assert CallerHolds(w, c);
    forall h
      ensures LocalOf(w, h, c) <==> h == c && w.callers[c].wire.None?
    {
      assert h in w.handles ==> HandleHolds(w, h);
    }
    forall row
      ensures RowOf(w, row, c) <==> Some(row) == w.callers[c].wire
    {
      assert HasRow(w, row) ==> RowHolds(w, row);
    }
  }

  // ---- Tables -----------------------------------------------------------------------------

  lemma FewerRowsFit(w: World, n: nat, kept: map<nat, nat>)
    requires TablesBounded(w) && kept.Keys <= NodeOf(w, n).waiting.Keys
    ensures |kept| <= WAITING_CAPACITY
  {
    SubsetIsSmaller(kept.Keys, NodeOf(w, n).waiting.Keys);
    assert |kept| == |kept.Keys| && |NodeOf(w, n).waiting| == |NodeOf(w, n).waiting.Keys|;
  }

  lemma DeliverKeepsTables(w: World, wire: Wire, payload: Option<Payload>)
    requires TablesBounded(w)
    ensures TablesBounded(Deliver(w, wire, payload))
  {
    if HasRow(w, wire) {
      FewerRowsFit(w, wire.origin, NodeOf(w, wire.origin).waiting - {wire.corr});
    }
  }

  lemma EvictedKeepsTables(w: World, w': World, n: nat, kept: map<nat, nat>)
    requires TablesBounded(w) && |kept| <= WAITING_CAPACITY
    requires forall m :: m in w'.nodes && m != n ==> m in w.nodes && w'.nodes[m] == w.nodes[m]
    ensures TablesBounded(Evicted(w', n, kept))
  {
  }

  lemma RegisterKeepsTables(w: World, h: nat)
    requires TablesBounded(w) && Enabled(w, Register(h))
    ensures TablesBounded(Do(w, Register(h)))
  {
    var home := w.callers[w.handles[h].caller].home;
    EvictedKeepsTables(w, Inserted(w, h), home, Trimmed(NodeOf(Inserted(w, h), home).waiting));
  }

  lemma StepKeepsTables(w: World, action: Action)
    requires TablesBounded(w) && Enabled(w, action)
    ensures TablesBounded(Do(w, action))
  {
    if Target(w, action).Some? {
      TargetedStep(w, action);
      DeliverKeepsTables(w, Target(w, action).value.0, Target(w, action).value.1);
    } else if action.Register? {
      RegisterKeepsTables(w, action.h);
    } else if action.StandDown? {
      EvictedKeepsTables(w, w, action.node, map[]);
    } else {
      UntargetedStep(w, action);
    }
  }

  /** No node ever has more than the capacity waiting. */
  lemma {:induction false} RunKeepsTables(worlds: seq<World>, actions: seq<Action>, k: nat)
    requires IsRun(worlds, actions) && worlds[0] == INITIAL && k < |worlds|
    ensures TablesBounded(worlds[k])
  {
    if k > 0 {
      RunKeepsTables(worlds, actions, k - 1);
      StepKeepsTables(worlds[k - 1], actions[k - 1]);
    }
  }

  // ---- Genuine answers ----------------------------------------------------------------------

  /** This step hands an answer to `c`, through its own handle or through the wire it was encoded as. */
  ghost predicate AnswersCaller(w: World, action: Action, c: nat, payload: Payload) {
    match action
    case EndLocal(h, answer) => answer == Some(payload) && LocalOf(w, h, c)
    case EndRemote(h, answer) =>
      && answer == Some(payload) && h in w.handles && w.handles[h].Remote?
      && c in w.callers && w.callers[c].wire == Some(w.handles[h].wire)
      && w.handles[h].wire.origin == w.handles[h].node
    case DeliverReply(p, decodes) =>
      && decodes && p in w.packets && w.packets[p].Reply? && w.packets[p].payload == Some(payload)
      && c in w.callers && w.callers[c].wire == Some(WireOf(w.packets[p]))
    case _ => false
  }

  lemma TargetedAnswersAreAddressed(w: World, action: Action, c: nat)
    requires SenderInv(w) && Enabled(w, action) && c !in w.outcome && Target(w, action).Some?
    requires c in Do(w, action).outcome && Do(w, action).outcome[c].Answered?
    ensures AnswersCaller(w, action, c, Do(w, action).outcome[c].payload)
  {
    TargetedStep(w, action);
    var (wire, payload) := Target(w, action).value;
    assert HasRow(w, wire) ==> RowHolds(w, wire);
  }

  lemma EvictionAnswersNobody(w: World, action: Action, c: nat)
    requires Enabled(w, action) && IsEviction(action) && c !in w.outcome && c in Do(w, action).outcome
    ensures Do(w, action).outcome[c] == Dropped
  {
  }

  /** A caller is only ever answered by its own local handle or by a message for its own wire. */
  lemma AnswersAreAddressed(w: World, action: Action, c: nat)
    requires SenderInv(w) && Enabled(w, action) && c !in w.outcome
    requires c in Do(w, action).outcome && Do(w, action).outcome[c].Answered?
    ensures AnswersCaller(w, action, c, Do(w, action).outcome[c].payload)
  {
    if Target(w, action).Some? {
      TargetedAnswersAreAddressed(w, action, c);
    } else if IsEviction(action) {
      EvictionAnswersNobody(w, action, c);
    } else if action.EndLocal? {
      assert HandleHolds(w, action.h);
    } else {
      UntargetedStep(w, action);
    }
  }

  /** Somebody holding this wire answers with this payload. */
  ghost predicate SaysOn(w: World, action: Action, wire: Wire, payload: Payload) {
    && action.EndRemote? && action.payload == Some(payload)
    && action.h in w.handles && w.handles[action.h].Remote? && w.handles[action.h].wire == wire
  }

  predicate Carries(w: World, p: nat, wire: Wire, payload: Payload) {
    p in w.packets && w.packets[p] == Reply(wire.origin, wire.corr, Some(payload))
  }

  lemma ReplyIsOldOrSaid(w: World, action: Action, p: nat, wire: Wire, payload: Payload)
    requires Enabled(w, action) && Carries(Do(w, action), p, wire, payload)
    ensures SaysOn(w, action, wire, payload) || exists q :: Carries(w, q, wire, payload)
  {
    if !Carries(w, p, wire, payload) {
      match action
      case Duplicate(q) => assert Carries(w, q, wire, payload);
      case _ =>
    }
  }

  lemma {:induction false} RepliesWereSaid(worlds: seq<World>, actions: seq<Action>, k: nat, p: nat, wire: Wire,
                                           payload: Payload)
    requires IsRun(worlds, actions) && worlds[0] == INITIAL && k < |worlds|
    requires Carries(worlds[k], p, wire, payload)
    ensures exists j :: 0 <= j < k && SaysOn(worlds[j], actions[j], wire, payload)
  {
    if k > 0 {
      ReplyIsOldOrSaid(worlds[k - 1], actions[k - 1], p, wire, payload);
      if !SaysOn(worlds[k - 1], actions[k - 1], wire, payload) {
        var q :| Carries(worlds[k - 1], q, wire, payload);
        RepliesWereSaid(worlds, actions, k - 1, q, wire, payload);
      }
    }
  }

  /** The answer a caller gets was given by whoever held its handle: no answer is invented or misdelivered. */
  lemma EveryAnswerWasGiven(worlds: seq<World>, actions: seq<Action>, k: nat, c: nat)
    requires IsRun(worlds, actions) && worlds[0] == INITIAL && k < |actions|
    requires c !in worlds[k].outcome && c in worlds[k + 1].outcome && worlds[k + 1].outcome[c].Answered?
    ensures var payload := worlds[k + 1].outcome[c].payload;
            || (exists h :: actions[k] == EndLocal(h, Some(payload)) && LocalOf(worlds[k], h, c))
            || (c in worlds[k].callers && worlds[k].callers[c].wire.Some? &&
                exists j :: 0 <= j <= k && SaysOn(worlds[j], actions[j], worlds[k].callers[c].wire.value, payload))
  {
    RunKeepsSenders(worlds, actions, k);
    AnswersAreAddressed(worlds[k], actions[k], c);
    var payload := worlds[k + 1].outcome[c].payload;
    match actions[k]
    case DeliverReply(p, _) =>
      assert Carries(worlds[k], p, WireOf(worlds[k].packets[p]), payload);
      RepliesWereSaid(worlds, actions, k, p, WireOf(worlds[k].packets[p]), payload);
    case EndRemote(h, _) => assert SaysOn(worlds[k], actions[k], worlds[k].handles[h].wire, payload);
    case _ =>
  }

  // ---- Asks that have ended ---------------------------------------------------------------------

  predicate Unencoded(w: World, c: nat) {
    LocalOf(w, c, c) || IsRegistering(w, c)
  }

  /** The ask is over and its handle can no longer put a row in a table. */
  predicate Over(w: World, c: nat) {
    c in w.callers && c < w.next && !w.callers[c].asking && !w.callers[c].late && !Unencoded(w, c)
  }

  lemma OverHasNoRow(w: World, c: nat, wire: Wire)
    requires SenderInv(w) && Over(w, c)
    ensures !RowOf(w, wire, c)
  {
    assert HasRow(w, wire) ==> RowHolds(w, wire);
  }

  /** What keeps a caller over: its record stays and its first handle is not brought back. */
  predicate SameCaller(w: World, w': World, c: nat) {
    && c in w.callers && c in w'.callers && w'.callers[c] == w.callers[c] && w.next <= w'.next
    && (c in w'.handles ==>
          w'.handles[c].Encoded? || w'.handles[c].Remote? || (c in w.handles && w'.handles[c] == w.handles[c]))
  }

  lemma RegisterSameCaller(w: World, h: nat, c: nat)
    requires SenderInv(w) && Over(w, c) && Enabled(w, Register(h))
    ensures SameCaller(w, Do(w, Register(h)), c)
  {
    assert HandleHolds(w, h);
  }

  lemma OverSameCaller(w: World, action: Action, c: nat)
    requires SenderInv(w) && Over(w, c) && Enabled(w, action) && !action.Register?
    ensures SameCaller(w, Do(w, action), c)
  {
    if action.FillSlot? {
      assert HandleHolds(w, action.h);
    }
  }

  lemma StaysOver(w: World, action: Action, c: nat)
    requires SenderInv(w) && Over(w, c) && Enabled(w, action)
    ensures Over(Do(w, action), c)
  {
    if action.Register? {
      RegisterSameCaller(w, action.h, c);
    } else {
      OverSameCaller(w, action, c);
    }
  }

  lemma EndAskIsOver(w: World, c: nat)
    requires SenderInv(w) && Enabled(w, EndAsk(c)) && !Unencoded(w, c)
    ensures Over(Do(w, EndAsk(c)), c)
  {
    assert CallerHolds(w, c);
  }

  lemma {:induction false} OnceOver(worlds: seq<World>, actions: seq<Action>, j: nat, k: nat, c: nat)
    requires IsRun(worlds, actions) && worlds[0] == INITIAL && j < k < |worlds|
    requires actions[j] == EndAsk(c) && !Unencoded(worlds[j], c)
    ensures Over(worlds[k], c)
  {
    RunKeepsSenders(worlds, actions, k - 1);
    if k == j + 1 {
      EndAskIsOver(worlds[j], c);
    } else {
      OnceOver(worlds, actions, j, k - 1, c);
      StaysOver(worlds[k - 1], actions[k - 1], c);
    }
  }

  /** The ask's right to be answered is still in its handle, or its row has no slot naming it yet. */
  predicate MayLeaveARow(w: World, c: nat) {
    Unencoded(w, c) && c !in w.outcome
  }

  /** An ask that ends otherwise leaves no row, from that moment to the end of the run. */
  lemma AnEndedAskLeavesNoRow(worlds: seq<World>, actions: seq<Action>, j: nat, k: nat, c: nat, wire: Wire)
    requires IsRun(worlds, actions) && worlds[0] == INITIAL && j < k < |worlds|
    requires actions[j] == EndAsk(c) && !MayLeaveARow(worlds[j], c)
    ensures !RowOf(worlds[k], wire, c)
  {
    RunKeepsSenders(worlds, actions, k);
    if c in worlds[j].outcome {
      TheFirstOutcomeStands(worlds, actions, c, j, k);
      assert HasRow(worlds[k], wire) ==> RowHolds(worlds[k], wire);
    } else {
      OnceOver(worlds, actions, j, k, c);
      OverHasNoRow(worlds[k], c, wire);
    }
  }

  /** A row already in when the slot was still empty is missed by the ask's end. */
  lemma AHalfEncodedHandleKeepsItsRow(w: World, c: nat)
    requires SenderInv(w) && Enabled(w, EndAsk(c)) && IsRegistering(w, c) && c !in w.outcome
    ensures RowOf(Do(w, EndAsk(c)), w.handles[c].wire, c)
  {
    assert HandleHolds(w, c) && CallerHolds(w, c);
  }

  /** And a handle first encoded after the ask ended always leaves one. */
  lemma ALateEncodingLeavesARow(w: World, c: nat)
    requires SenderInv(w) && LocalOf(w, c, c)
    ensures Enabled(w, Register(c))
    ensures exists wire :: RowOf(Do(w, Register(c)), wire, c)
  {
    assert HandleHolds(w, c);
    var w1 := Inserted(w, c);
    var home := w.callers[c].home;
    var wire := w1.callers[c].wire.value;
    var waiting := NodeOf(w1, home).waiting;
    InsertedKeepsSenders(w, c);
    forall k | k in waiting
      ensures k <= wire.corr
    {
      assert HasRow(w1, Wire(home, k)) && RowHolds(w1, Wire(home, k));
      assert CallerHolds(w1, waiting[k]);
    }
    TheNewestStays(waiting, wire.corr);
    assert RowOf(Do(w, Register(c)), wire, c);
  }

  /**
   So the condition is exact: an ask leaves a row behind, at once or when its handle is next encoded,
   if and only if it ends while its sender is unspent and its handle not yet fully encoded.
   */
  lemma AnAskLeavesARowIffItsHandleWasUnencoded(w: World, c: nat)
    requires SenderInv(w) && Enabled(w, EndAsk(c))
    ensures var ended := Do(w, EndAsk(c));
            MayLeaveARow(w, c) <==>
            (exists wire :: RowOf(ended, wire, c)) ||
            (LocalOf(ended, c, c) && Enabled(ended, Register(c)) &&
             exists wire :: RowOf(Do(ended, Register(c)), wire, c))
  {
    var ended := Do(w, EndAsk(c));
    StepKeepsSenders(w, EndAsk(c));
    assert ended.handles == w.handles;
    if LocalOf(w, c, c) {
      assert HandleHolds(w, c);
      ALateEncodingLeavesARow(ended, c);
    } else if IsRegistering(w, c) && c !in w.outcome {
      AHalfEncodedHandleKeepsItsRow(w, c);
    } else {
      NoRowAfterTheEnd(w, c);
    }
  }

  lemma NoRowAfterTheEnd(w: World, c: nat)
    requires SenderInv(w) && Enabled(w, EndAsk(c)) && !MayLeaveARow(w, c)
    ensures forall wire :: !RowOf(Do(w, EndAsk(c)), wire, c)
  {
    var ended := Do(w, EndAsk(c));
    StepKeepsSenders(w, EndAsk(c));
    StepKeepsOutcomes(w, EndAsk(c));
    forall wire
      ensures !RowOf(ended, wire, c)
    {
      if c in w.outcome {
        assert HasRow(ended, wire) ==> RowHolds(ended, wire);
      } else {
        EndAskIsOver(w, c);
        OverHasNoRow(ended, c, wire);
      }
    }
  }

  lemma {:induction false} TheNewestStays(waiting: map<nat, nat>, newest: nat)
    requires newest in waiting && forall k :: k in waiting ==> k <= newest
    ensures newest in Trimmed(waiting)
    decreases |waiting|
  {
    if |waiting| > WAITING_CAPACITY {
      var low := Lowest(waiting.Keys);
      assert |waiting.Keys - {low}| == |waiting.Keys| - 1;
      assert (waiting - {low}).Keys == waiting.Keys - {low};
      assert low == newest ==> waiting.Keys == {newest};
      TheNewestStays(waiting - {low}, newest);
    }
  }

  /**
   A correlation is minted before the table's lock is taken, so its row may go in after rows with later
   ones. It stays if and only if there is room, or an older row to evict; otherwise it evicts itself.
   */
  lemma ADelayedRowStaysIffItIsNotTheOldest(waiting: map<nat, nat>, corr: nat, c: nat)
    requires |waiting| <= WAITING_CAPACITY && corr !in waiting
    ensures corr in Trimmed(waiting[corr := c]) <==>
            |waiting| < WAITING_CAPACITY || exists k :: k in waiting && k < corr
  {
    var full := waiting[corr := c];
    assert full.Keys == waiting.Keys + {corr};
    assert |full.Keys| == |waiting.Keys| + 1;
    assert |full| == |full.Keys| && |waiting| == |waiting.Keys|;
    if |full| > WAITING_CAPACITY {
      TrimmedByOne(full);
      var low := Lowest(full.Keys);
      if low == corr {
        forall k | k in waiting
          ensures k >= corr
        {
          assert k in full.Keys;
        }
      } else {
        assert low in waiting && low < corr;
      }
    }
  }

  lemma TrimmedByOne(full: map<nat, nat>)
    requires |full| == WAITING_CAPACITY + 1
    ensures Trimmed(full) == full - {Lowest(full.Keys)}
  {
    var low := Lowest(full.Keys);
    assert (full - {low}).Keys == full.Keys - {low};
    assert |full.Keys - {low}| == |full.Keys| - 1;
  }
}
