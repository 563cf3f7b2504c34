/**
 Nobody is stranded: while no encoded command is refused, lost, repeated or left undecoded, every
 waiting row has exactly one token somewhere, a handle or a message that still owes the answer.
 And the other way round, a row whose token is gone is never answered.
 */
module ReplyTokens {
  import opened Wrappers
  import opened ReplyRouting
  import opened ReplyOutcomes

  /** What the token `t`, a handle that is not local or a message in flight, owes an answer to. */
  function TokenWire(w: World, t: nat): Option<Wire> {
    if t in w.handles && !w.handles[t].Local? then Some(w.handles[t].wire)
    else if t in w.packets then Some(WireOf(w.packets[t]))
    else None
  }

  /** Every encoded command is accepted, dispatched once and decoded, and no reply is lost. */
  predicate Reliable(action: Action) {
    !action.SendFails? && !action.Lose? && !action.Duplicate?
  }

  ghost predicate IsReliableRun(worlds: seq<World>, actions: seq<Action>) {
    IsRun(worlds, actions) && worlds[0] == INITIAL && forall k :: 0 <= k < |actions| ==> Reliable(actions[k])
  }

  /** `holder` says who holds a wire; being a map, it allows one holder for each. */
  predicate TokenHeld(w: World, holder: map<Wire, nat>, t: nat) {
    && (t in w.handles ==> t !in w.packets)
    && (TokenWire(w, t).Some? ==> TokenWire(w, t).value in holder && holder[TokenWire(w, t).value] == t)
  }

  predicate RowHeld(w: World, holder: map<Wire, nat>, wire: Wire) {
    HasRow(w, wire) ==> wire in holder && TokenWire(w, holder[wire]) == Some(wire)
  }

  ghost predicate TokenInv(w: World, holder: map<Wire, nat>) {
    && (forall t :: TokenHeld(w, holder, t))
    && (forall wire :: RowHeld(w, holder, wire))
  }

  // How a step changes the tokens.

  predicate SameToken(w: World, w': World, t: nat) {
    && TokenWire(w', t) == TokenWire(w, t)
    && (t in w'.handles ==> t !in w'.packets)
  }

  predicate RowStays(w: World, w': World, wire: Wire) {
    HasRow(w', wire) ==> HasRow(w, wire)
  }

  /** Tokens outside `changed` are as before, and rows outside `added` were there. */
  ghost predicate ElsewhereSame(w: World, w': World, changed: set<nat>, added: set<Wire>) {
    && (forall t :: t !in changed ==> SameToken(w, w', t))
    && (forall wire :: wire !in added ==> RowStays(w, w', wire))
  }

  lemma SameKeepsTokens(w: World, w': World, holder: map<Wire, nat>)
    requires TokenInv(w, holder) && ElsewhereSame(w, w', {}, {})
    ensures TokenInv(w', holder)
  {
    forall t
      ensures TokenHeld(w', holder, t)
    {
      assert SameToken(w, w', t) && TokenHeld(w, holder, t);
    }
    forall wire
      ensures RowHeld(w', holder, wire)
    {
      assert RowStays(w, w', wire) && RowHeld(w, holder, wire);
      assert wire in holder ==> SameToken(w, w', holder[wire]);
    }
  }

  /** A wire passes from one token to the next. */
  lemma MoveKeepsTokens(w: World, w': World, holder: map<Wire, nat>, from: nat, to: nat, wire: Wire)
    requires TokenInv(w, holder) && ElsewhereSame(w, w', {from, to}, {}) && from != to
    requires TokenWire(w, from) == Some(wire) && TokenWire(w', to) == Some(wire)
    requires from !in w'.handles && from !in w'.packets && TokenWire(w, to).None?
    requires to in w'.handles ==> to !in w'.packets
    ensures TokenInv(w', holder[wire := to])
  {
    var holder' := holder[wire := to];
    assert TokenHeld(w, holder, from);
    forall t
      ensures TokenHeld(w', holder', t)
    {
      assert t !in {from, to} ==> SameToken(w, w', t) && TokenHeld(w, holder, t);
    }
    forall other
      ensures RowHeld(w', holder', other)
    {
      assert RowStays(w, w', other) && RowHeld(w, holder, other);
      assert other in holder && holder[other] !in {from, to} ==> SameToken(w, w', holder[other]);
    }
  }

  /** A token is used up together with the row it was for. */
  lemma SpendKeepsTokens(w: World, w': World, holder: map<Wire, nat>, spent: nat, wire: Wire)
    requires TokenInv(w, holder) && ElsewhereSame(w, w', {spent}, {})
    requires TokenWire(w, spent) == Some(wire) && !HasRow(w', wire)
    requires spent !in w'.handles && spent !in w'.packets
    ensures TokenInv(w', holder)
  {
    assert TokenHeld(w, holder, spent);
    forall t
      ensures TokenHeld(w', holder, t)
    {
      assert t != spent ==> SameToken(w, w', t) && TokenHeld(w, holder, t);
    }
    forall other
      ensures RowHeld(w', holder, other)
    {
      assert RowStays(w, w', other) && RowHeld(w, holder, other);
      assert other in holder && holder[other] != spent ==> SameToken(w, w', holder[other]);
    }
  }

  /** A fresh wire gets its first token. */
  lemma MintKeepsTokens(w: World, w': World, holder: map<Wire, nat>, h: nat, wire: Wire)
    requires TokenInv(w, holder) && ElsewhereSame(w, w', {h}, {wire})
    requires TokenWire(w, h).None? && TokenWire(w', h) == Some(wire) && (h in w'.handles ==> h !in w'.packets)
    requires forall t :: TokenWire(w, t) != Some(wire)
    ensures TokenInv(w', holder[wire := h])
  {
    var holder' := holder[wire := h];
    forall t
      ensures TokenHeld(w', holder', t)
    {
      assert t != h ==> SameToken(w, w', t) && TokenHeld(w, holder, t);
    }
    forall other
      ensures RowHeld(w', holder', other)
    {
      if other != wire {
        assert RowStays(w, w', other) && RowHeld(w, holder, other);
        assert other in holder && holder[other] != h ==> SameToken(w, w', holder[other]);
      }
    }
  }

  // Each step is one of these.

  lemma IdsAreUsedOnce(w: World)
    requires SenderInv(w)
    ensures w.next !in w.handles && w.next !in w.packets
  {
    assert w.next in w.handles ==> HandleHolds(w, w.next);
    assert w.next in w.packets ==> PacketHolds(w, w.next);
  }

  lemma RowsOnlyFromRegister(w: World, action: Action, wire: Wire)
    requires Enabled(w, action) && !action.Register?
    ensures RowStays(w, Do(w, action), wire)
  {
    if Target(w, action).Some? {
      TargetedStep(w, action);
    } else if !action.StandDown? {
      UntargetedStep(w, action);
    }
  }

  predicate LeavesTokens(action: Action) {
    action.Ask? || action.EndLocal? || action.FillSlot? || action.Forward? || action.EndAsk? || action.StandDown?
  }

  lemma LeavesToken(w: World, action: Action, holder: map<Wire, nat>, t: nat)
    requires Enabled(w, action) && LeavesTokens(action) && TokenHeld(w, holder, t)
    requires w.next !in w.handles && w.next !in w.packets
    ensures SameToken(w, Do(w, action), t)
  {
  }

  lemma LeavesTokensKeepsTokens(w: World, action: Action, holder: map<Wire, nat>)
    requires SenderInv(w) && TokenInv(w, holder) && Enabled(w, action) && LeavesTokens(action)
    ensures TokenInv(Do(w, action), holder)
  {
    IdsAreUsedOnce(w);
    forall t
      ensures SameToken(w, Do(w, action), t)
    {
      assert TokenHeld(w, holder, t);
      LeavesToken(w, action, holder, t);
    }
    forall wire
      ensures RowStays(w, Do(w, action), wire)
    {
      RowsOnlyFromRegister(w, action, wire);
    }
    SameKeepsTokens(w, Do(w, action), holder);
  }

  /** Sending, dispatching and answering from another host: which token goes and what it owed. */
  function Passes(w: World, action: Action): Option<(nat, Wire)> {
    match action
    case Send(h, _) => if h in w.handles && w.handles[h].Encoded? then Some((h, w.handles[h].wire)) else None
    case Dispatch(p) => if p in w.packets && w.packets[p].Command? then Some((p, w.packets[p].wire)) else None
    case EndRemote(h, _) =>
      if h in w.handles && w.handles[h].Remote? && w.handles[h].wire.origin != w.handles[h].node
      then Some((h, w.handles[h].wire)) else None
    case _ => None
  }

  lemma PassesToken(w: World, action: Action, holder: map<Wire, nat>, t: nat)
    requires SenderInv(w) && Enabled(w, action) && Passes(w, action).Some? && TokenHeld(w, holder, t)
    requires t !in {Passes(w, action).value.0, w.next}
    ensures SameToken(w, Do(w, action), t)
  {
  }

  lemma PassesMoves(w: World, action: Action, holder: map<Wire, nat>)
    requires SenderInv(w) && Enabled(w, action) && Passes(w, action).Some?
    requires TokenHeld(w, holder, Passes(w, action).value.0)
    ensures var (from, wire) := Passes(w, action).value;
            var w' := Do(w, action);
            && TokenWire(w, from) == Some(wire) && TokenWire(w', w.next) == Some(wire)
            && from !in w'.handles && from !in w'.packets && from != w.next
            && (w.next in w'.handles ==> w.next !in w'.packets)
  {
    IdsAreUsedOnce(w);
  }

  lemma PassesKeepsTokens(w: World, action: Action, holder: map<Wire, nat>)
    requires SenderInv(w) && TokenInv(w, holder) && Enabled(w, action) && Passes(w, action).Some?
    ensures TokenInv(Do(w, action), holder[Passes(w, action).value.1 := w.next])
  {
    var (from, wire) := Passes(w, action).value;
    var w' := Do(w, action);
    forall t | t !in {from, w.next}
      ensures SameToken(w, w', t)
    {
      assert TokenHeld(w, holder, t);
      PassesToken(w, action, holder, t);
    }
    forall other
      ensures RowStays(w, w', other)
    {
      RowsOnlyFromRegister(w, action, other);
    }
    IdsAreUsedOnce(w);
    assert TokenHeld(w, holder, from);
    PassesMoves(w, action, holder);
    MoveKeepsTokens(w, w', holder, from, w.next, wire);
  }

  /** An answer or a drop that reaches the caller's own node. */
  function Spends(w: World, action: Action): Option<(nat, Wire)> {
    match action
    case EndRemote(h, _) =>
      if h in w.handles && w.handles[h].Remote? && w.handles[h].wire.origin == w.handles[h].node
      then Some((h, w.handles[h].wire)) else None
    case DeliverReply(p, _) => if p in w.packets && w.packets[p].Reply? then Some((p, WireOf(w.packets[p]))) else None
    case _ => None
  }

  lemma SpendsToken(w: World, action: Action, holder: map<Wire, nat>, t: nat)
    requires Enabled(w, action) && Spends(w, action).Some? && TokenHeld(w, holder, t)
    ensures t != Spends(w, action).value.0 ==> SameToken(w, Do(w, action), t)
    ensures t == Spends(w, action).value.0 ==> t !in Do(w, action).handles && t !in Do(w, action).packets
  {
  }

  lemma SpendsKeepsTokens(w: World, action: Action, holder: map<Wire, nat>)
    requires SenderInv(w) && TokenInv(w, holder) && Enabled(w, action) && Spends(w, action).Some?
    ensures TokenInv(Do(w, action), holder)
  {
    var (spent, wire) := Spends(w, action).value;
    var w' := Do(w, action);
    forall t
      ensures t != spent ==> SameToken(w, w', t)
      ensures t == spent ==> t !in w'.handles && t !in w'.packets
    {
      assert TokenHeld(w, holder, t);
      SpendsToken(w, action, holder, t);
    }
    forall other
      ensures RowStays(w, w', other)
    {
      RowsOnlyFromRegister(w, action, other);
    }
    TargetedStep(w, action);
    assert TokenHeld(w, holder, spent);
    SpendKeepsTokens(w, w', holder, spent, wire);
  }

  lemma NextWireIsFresh(w: World, n: nat, t: nat)
    requires SenderInv(w)
    ensures TokenWire(w, t) != Some(Wire(n, Correlation(n, NodeOf(w, n).counter)))
  {
    assert t in w.handles ==> HandleHolds(w, t);
    assert t in w.packets ==> PacketHolds(w, t);
    assert t in w.callers ==> CallerHolds(w, t);
  }

  lemma RegisterRow(w: World, h: nat, wire: Wire)
    requires Enabled(w, Register(h)) && HasRow(Do(w, Register(h)), wire)
    ensures HasRow(w, wire) || Do(w, Register(h)).handles[h].wire == wire
  {
  }

  lemma RegisterToken(w: World, h: nat, holder: map<Wire, nat>, t: nat)
    requires SenderInv(w) && TokenHeld(w, holder, t) && Enabled(w, Register(h))
    ensures t != h ==> SameToken(w, Do(w, Register(h)), t)
    ensures TokenWire(w, t) != Some(Do(w, Register(h)).handles[h].wire)
  {
    NextWireIsFresh(w, Do(w, Register(h)).handles[h].wire.origin, t);
  }

  lemma RegisterKeepsTokens(w: World, h: nat, holder: map<Wire, nat>)
    requires SenderInv(w) && TokenInv(w, holder) && Enabled(w, Register(h))
    ensures TokenInv(Do(w, Register(h)), holder[Do(w, Register(h)).handles[h].wire := h])
  {
    var w' := Do(w, Register(h));
    var wire := w'.handles[h].wire;
    forall t
      ensures t != h ==> SameToken(w, w', t)
      ensures TokenWire(w, t) != Some(wire)
    {
      assert TokenHeld(w, holder, t);
      RegisterToken(w, h, holder, t);
    }
    forall other | other != wire
      ensures RowStays(w, w', other)
    {
      if HasRow(w', other) {
        RegisterRow(w, h, other);
      }
    }
    assert TokenHeld(w, holder, h);
    MintKeepsTokens(w, w', holder, h, wire);
  }

  ghost function NextHolder(w: World, action: Action, holder: map<Wire, nat>): map<Wire, nat>
    requires Enabled(w, action)
  {
    if action.Register? then holder[Do(w, action).handles[action.h].wire := action.h]
    else if Passes(w, action).Some? then holder[Passes(w, action).value.1 := w.next]
    else holder
  }

  lemma StepKeepsTokens(w: World, action: Action, holder: map<Wire, nat>)
    requires SenderInv(w) && TokenInv(w, holder) && Enabled(w, action) && Reliable(action)
    ensures TokenInv(Do(w, action), NextHolder(w, action, holder))
  {
    if action.Register? {
      RegisterKeepsTokens(w, action.h, holder);
    } else if Passes(w, action).Some? {
      PassesKeepsTokens(w, action, holder);
    } else if Spends(w, action).Some? {
      SpendsKeepsTokens(w, action, holder);
    } else {
      LeavesTokensKeepsTokens(w, action, holder);
    }
  }

  lemma {:induction false} RunKeepsTokens(worlds: seq<World>, actions: seq<Action>, k: nat)
    returns (holder: map<Wire, nat>)
    requires IsReliableRun(worlds, actions) && k < |worlds|
    ensures TokenInv(worlds[k], holder)
  {
    if k == 0 {
      holder := map[];
    } else {
      var before := RunKeepsTokens(worlds, actions, k - 1);
      RunKeepsSenders(worlds, actions, k - 1);
      StepKeepsTokens(worlds[k - 1], actions[k - 1], before);
      holder := NextHolder(worlds[k - 1], actions[k - 1], before);
    }
  }

  /** Conservation: through any number of forwards, each waiting row has exactly one token. */
  lemma EveryRowHasOneToken(worlds: seq<World>, actions: seq<Action>, k: nat, wire: Wire)
    requires IsReliableRun(worlds, actions) && k < |worlds| && HasRow(worlds[k], wire)
    ensures exists t :: TokenWire(worlds[k], t) == Some(wire)
    ensures forall t1, t2 :: TokenWire(worlds[k], t1) == Some(wire) && TokenWire(worlds[k], t2) == Some(wire) ==> t1 == t2
  {
    var w := worlds[k];
    var holder := RunKeepsTokens(worlds, actions, k);
    assert RowHeld(w, holder, wire);
    assert TokenWire(w, holder[wire]) == Some(wire);
    forall t1, t2 | TokenWire(w, t1) == Some(wire) && TokenWire(w, t2) == Some(wire)
      ensures t1 == t2
    {
      assert TokenHeld(w, holder, t1) && TokenHeld(w, holder, t2);
    }
  }

  /** A system with no handles and no messages has no waiting caller: everyone has their outcome. */
  lemma AQuietSystemHasAnsweredEveryone(worlds: seq<World>, actions: seq<Action>, k: nat)
    requires IsReliableRun(worlds, actions) && k < |worlds|
    requires worlds[k].handles == map[] && worlds[k].packets == map[]
    ensures forall wire :: !HasRow(worlds[k], wire)
    ensures forall c :: c in worlds[k].callers ==> c in worlds[k].outcome
  {
    var w := worlds[k];
    forall wire
      ensures !HasRow(w, wire)
    {
      if HasRow(w, wire) {
        EveryRowHasOneToken(worlds, actions, k, wire);
        assert false;
      }
    }
    RunKeepsSenders(worlds, actions, k);
    forall c | c in w.callers
      ensures c in w.outcome
    {
      assert CallerHolds(w, c);
    }
  }

  // ---- Without its token ------------------------------------------------------------------------

  predicate Owes(w: World, t: nat, wire: Wire) {
    || (t in w.handles && !w.handles[t].Local? && w.handles[t].wire == wire)
    || (t in w.packets && WireOf(w.packets[t]) == wire)
  }

  /** Nobody holds `wire` any more, and it will not be minted again. */
  ghost predicate Stranded(w: World, wire: Wire) {
    IsMinted(w, wire) && forall t :: !Owes(w, t, wire)
  }

  lemma DebtsAreInherited(w: World, action: Action, t: nat, wire: Wire)
    requires Enabled(w, action) && !action.Register? && Owes(Do(w, action), t, wire)
    ensures exists s :: Owes(w, s, wire)
  {
    if !Owes(w, t, wire) {
      if Passes(w, action).Some? {
        assert Owes(w, Passes(w, action).value.0, wire);
      } else {
        assert action.Duplicate? && Owes(w, action.p, wire);
      }
    }
  }

  lemma CountersGrow(w: World, action: Action, n: nat)
    requires Enabled(w, action)
    ensures NodeOf(w, n).counter <= NodeOf(Do(w, action), n).counter
  {
    if Target(w, action).Some? {
      TargetedStep(w, action);
    } else if action.Register? {
      RegisterCounts(w, action.h, n);
    } else if !action.StandDown? {
      UntargetedStep(w, action);
    }
  }

  lemma RegisterCounts(w: World, h: nat, n: nat)
    requires Enabled(w, Register(h))
    ensures NodeOf(w, n).counter <= NodeOf(Do(w, Register(h)), n).counter
  {
  }

  lemma StaysStranded(w: World, action: Action, wire: Wire)
    requires SenderInv(w) && Enabled(w, action) && Stranded(w, wire)
    ensures Stranded(Do(w, action), wire)
  {
    CountersGrow(w, action, wire.origin);
    forall t
      ensures !Owes(Do(w, action), t, wire)
    {
      if Owes(Do(w, action), t, wire) {
        if action.Register? {
          assert Owes(w, t, wire);
        } else {
          DebtsAreInherited(w, action, t, wire);
        }
        assert false;
      }
    }
  }

  lemma RegisterLeavesWires(w: World, h: nat, c: nat)
    requires SenderInv(w) && Enabled(w, Register(h)) && c in w.callers && w.callers[c].wire.Some?
    ensures c in Do(w, Register(h)).callers && Do(w, Register(h)).callers[c] == w.callers[c]
  {
    assert HandleHolds(w, h);
  }

  lemma WireStays(w: World, action: Action, c: nat)
    requires SenderInv(w) && Enabled(w, action) && c in w.callers && w.callers[c].wire.Some?
    ensures c in Do(w, action).callers && Do(w, action).callers[c].wire == w.callers[c].wire
  {
    if action.Register? {
      RegisterLeavesWires(w, action.h, c);
    } else {
      assert CallerHolds(w, c);
      OthersLeaveWires(w, action, c);
    }
  }

  lemma OthersLeaveWires(w: World, action: Action, c: nat)
    requires Enabled(w, action) && c in w.callers && c < w.next && !action.Register?
    ensures c in Do(w, action).callers && Do(w, action).callers[c].wire == w.callers[c].wire
  {
  }

  lemma NobodyAnswersTheStranded(w: World, action: Action, c: nat, payload: Payload)
    requires SenderInv(w) && c in w.callers && w.callers[c].wire.Some? && Stranded(w, w.callers[c].wire.value)
    ensures !AnswersCaller(w, action, c, payload)
  {
    var wire := w.callers[c].wire.value;
    match action
    case EndLocal(h, _) => assert h in w.handles ==> HandleHolds(w, h);
    case EndRemote(h, _) => assert !Owes(w, h, wire);
    case DeliverReply(p, _) => assert !Owes(w, p, wire);
    case _ =>
  }

  lemma StrandedStep(w: World, action: Action, c: nat)
    requires SenderInv(w) && Enabled(w, action) && c in w.callers && c !in w.outcome
    requires w.callers[c].wire.Some? && Stranded(w, w.callers[c].wire.value)
    ensures c in Do(w, action).outcome ==> Do(w, action).outcome[c] == Dropped
  {
    if c in Do(w, action).outcome && Do(w, action).outcome[c].Answered? {
      AnswersAreAddressed(w, action, c);
      NobodyAnswersTheStranded(w, action, c, Do(w, action).outcome[c].payload);
    }
  }

  /** Once its token is gone a caller is never answered, whatever happens next; at best it is let go. */
  lemma {:induction false} AStrandedCallerIsNeverAnswered(worlds: seq<World>, actions: seq<Action>, j: nat, k: nat, c: nat)
    requires IsRun(worlds, actions) && worlds[0] == INITIAL && j <= k < |worlds|
    requires c in worlds[j].callers && c !in worlds[j].outcome
    requires worlds[j].callers[c].wire.Some? && Stranded(worlds[j], worlds[j].callers[c].wire.value)
    ensures c in worlds[k].callers && worlds[k].callers[c].wire == worlds[j].callers[c].wire
    ensures Stranded(worlds[k], worlds[j].callers[c].wire.value)
    ensures c in worlds[k].outcome ==> worlds[k].outcome[c] == Dropped
  {
    if j < k {
      AStrandedCallerIsNeverAnswered(worlds, actions, j, k - 1, c);
      RunKeepsSenders(worlds, actions, k - 1);
      var w, action := worlds[k - 1], actions[k - 1];
      WireStays(w, action, c);
      StaysStranded(w, action, w.callers[c].wire.value);
      if c in w.outcome {
        StepKeepsOutcomes(w, action);
      } else {
        StrandedStep(w, action, c);
      }
    }
  }

  // ---- Who gets stranded, exactly ---------------------------------------------------------------------

  /** Handles and messages take their ids from one counter. */
  ghost predicate IdsApart(w: World) {
    forall t :: t in w.handles ==> t !in w.packets
  }

  lemma StepKeepsIdsApart(w: World, action: Action)
    requires SenderInv(w) && IdsApart(w) && Enabled(w, action)
    ensures IdsApart(Do(w, action))
  {
    IdsAreUsedOnce(w);
    forall t | t in Do(w, action).handles
      ensures t !in Do(w, action).packets
    {
      IdStaysApart(w, action, t);
    }
  }

  lemma IdStaysApart(w: World, action: Action, t: nat)
    requires Enabled(w, action) && (t in w.handles ==> t !in w.packets)
    requires w.next !in w.handles && w.next !in w.packets
    ensures t in Do(w, action).handles ==> t !in Do(w, action).packets
  {
    if action.Register? {
      assert Do(w, action).packets == w.packets;
    }
  }

  lemma {:induction false} RunKeepsIdsApart(worlds: seq<World>, actions: seq<Action>, k: nat)
    requires IsRun(worlds, actions) && worlds[0] == INITIAL && k < |worlds|
    ensures IdsApart(worlds[k])
  {
    if k > 0 {
      RunKeepsIdsApart(worlds, actions, k - 1);
      RunKeepsSenders(worlds, actions, k - 1);
      StepKeepsIdsApart(worlds[k - 1], actions[k - 1]);
    }
  }

  /** `t` is all that is left of the wire. */
  ghost predicate OnlyOwes(w: World, t: nat, wire: Wire) {
    Owes(w, t, wire) && forall s :: Owes(w, s, wire) ==> s == t
  }

  /** A failed send or a lost message takes the last token of a wire. */
  ghost predicate TakesTheLast(w: World, action: Action, wire: Wire) {
    || (action.SendFails? && OnlyOwes(w, action.h, wire))
    || (action.Lose? && OnlyOwes(w, action.p, wire))
  }

  /** Losing a token takes that debt and no other. */
  lemma LosingOne(w: World, action: Action, t: nat, wire: Wire)
    requires IdsApart(w) && Enabled(w, action) && (action.SendFails? || action.Lose?)
    ensures var lost := if action.SendFails? then action.h else action.p;
            Owes(Do(w, action), t, wire) <==> Owes(w, t, wire) && t != lost
  {
  }

  /** Any other step passes the debt on, or spends it together with the row. */
  lemma DebtsPersist(w: World, action: Action, t: nat, wire: Wire)
    requires SenderInv(w) && IdsApart(w) && Enabled(w, action) && Owes(w, t, wire)
    requires !action.SendFails? && !action.Lose?
    ensures !HasRow(Do(w, action), wire) || exists s :: Owes(Do(w, action), s, wire)
  {
    IdsAreUsedOnce(w);
    var w' := Do(w, action);
    if Passes(w, action).Some? && Passes(w, action).value.0 == t {
      PassedOn(w, action, t, wire);
      assert Owes(w', w.next, wire);
    } else if Spends(w, action).Some? && Spends(w, action).value.0 == t {
      SpentWithItsRow(w, action, t, wire);
    } else if action.Register? {
      RegisterLeavesDebts(w, action.h, t, wire);
      assert Owes(w', t, wire);
    } else {
      OthersLeaveDebts(w, action, t, wire);
      assert Owes(w', t, wire);
    }
  }

  lemma PassedOn(w: World, action: Action, t: nat, wire: Wire)
    requires IdsApart(w) && Enabled(w, action) && Owes(w, t, wire)
    requires Passes(w, action).Some? && Passes(w, action).value.0 == t
    ensures Owes(Do(w, action), w.next, wire)
  {
  }

  lemma SpentWithItsRow(w: World, action: Action, t: nat, wire: Wire)
    requires IdsApart(w) && Enabled(w, action) && Owes(w, t, wire)
    requires Spends(w, action).Some? && Spends(w, action).value.0 == t
    ensures !HasRow(Do(w, action), wire)
  {
    TargetedStep(w, action);
  }

  lemma RegisterLeavesDebts(w: World, h: nat, t: nat, wire: Wire)
    requires Enabled(w, Register(h)) && Owes(w, t, wire)
    ensures Owes(Do(w, Register(h)), t, wire)
  {
  }

  lemma OthersLeaveDebts(w: World, action: Action, t: nat, wire: Wire)
    requires Enabled(w, action) && Owes(w, t, wire) && w.next !in w.handles && w.next !in w.packets
    requires !action.SendFails? && !action.Lose? && !action.Register?
    requires Passes(w, action).Some? ==> Passes(w, action).value.0 != t
    requires Spends(w, action).Some? ==> Spends(w, action).value.0 != t
    ensures Owes(Do(w, action), t, wire)
  {
  }

  /**
   From any state, a step strands a waiting caller if and only if it is a failed send or a lost message
   that takes the last token of its wire.
   */
  lemma AStepStrandsIffItTakesTheLastToken(w: World, action: Action, wire: Wire)
    requires SenderInv(w) && IdsApart(w) && Enabled(w, action) && HasRow(w, wire) && !Stranded(w, wire)
    ensures HasRow(Do(w, action), wire) && Stranded(Do(w, action), wire) <==> TakesTheLast(w, action, wire)
  {
    var w' := Do(w, action);
    assert RowHolds(w, wire);
    assert CallerHolds(w, NodeOf(w, wire.origin).waiting[wire.corr]);
    var t :| Owes(w, t, wire);
    if action.SendFails? || action.Lose? {
      forall s
        ensures var lost := if action.SendFails? then action.h else action.p;
                Owes(w', s, wire) <==> Owes(w, s, wire) && s != lost
      {
        LosingOne(w, action, s, wire);
      }
    } else {
      DebtsPersist(w, action, t, wire);
    }
  }

  lemma ANewRowIsOwed(w: World, action: Action, wire: Wire)
    requires SenderInv(w) && Enabled(w, action) && !HasRow(w, wire) && HasRow(Do(w, action), wire)
    ensures !Stranded(Do(w, action), wire)
  {
    if !action.Register? {
      RowsOnlyFromRegister(w, action, wire);
    } else {
      RegisterRow(w, action.h, wire);
      assert Owes(Do(w, action), action.h, wire);
    }
  }

  predicate Grown(w: World, w': World, n: nat) {
    NodeOf(w, n).counter <= NodeOf(w', n).counter
  }

  lemma StepGrows(w: World, action: Action, w': World, n: nat)
    requires Enabled(w, action) && w' == Do(w, action)
    ensures Grown(w, w', n)
  {
    CountersGrow(w, action, n);
  }

  lemma GrownTwice(w: World, w1: World, w2: World, n: nat)
    requires Grown(w, w1, n) && Grown(w1, w2, n)
    ensures Grown(w, w2, n)
  {
  }

  lemma GrownInPlace(w: World, n: nat)
    ensures Grown(w, w, n)
  {
  }

  lemma GrownStep(worlds: seq<World>, actions: seq<Action>, j: nat, k: nat, n: nat)
    requires IsRun(worlds, actions) && j <= k < |actions| && Grown(worlds[j], worlds[k], n)
    ensures Grown(worlds[j], worlds[k + 1], n)
  {
    StepGrows(worlds[k], actions[k], worlds[k + 1], n);
    GrownTwice(worlds[j], worlds[k], worlds[k + 1], n);
  }

  lemma {:induction false} CountersGrowInRuns(worlds: seq<World>, actions: seq<Action>, j: nat, k: nat, n: nat)
    requires IsRun(worlds, actions) && j <= k < |worlds|
    ensures Grown(worlds[j], worlds[k], n)
    decreases k
  {
    if j == k {
      GrownInPlace(worlds[k], n);
    } else {
      CountersGrowInRuns(worlds, actions, j, k - 1, n);
      GrownStep(worlds, actions, j, k - 1, n);
    }
  }

  lemma ANewRowIsFresh(w: World, h: nat, wire: Wire)
    requires Enabled(w, Register(h)) && !HasRow(w, wire) && HasRow(Do(w, Register(h)), wire)
    ensures !IsMinted(w, wire)
  {
    RegisterRow(w, h, wire);
  }

  /** A correlation is handed out once, so a row that goes in was never there before. */
  lemma ANewRowIsTheFirst(worlds: seq<World>, actions: seq<Action>, j: nat, k: nat, wire: Wire)
    requires IsRun(worlds, actions) && worlds[0] == INITIAL && j <= k < |actions|
    requires !HasRow(worlds[k], wire) && HasRow(worlds[k + 1], wire)
    ensures !HasRow(worlds[j], wire)
  {
    if HasRow(worlds[j], wire) {
      RunKeepsSenders(worlds, actions, j);
      assert RowHolds(worlds[j], wire);
      assert CallerHolds(worlds[j], NodeOf(worlds[j], wire.origin).waiting[wire.corr]);
      CountersGrowInRuns(worlds, actions, j, k, wire.origin);
      if actions[k].Register? {
        ANewRowIsFresh(worlds[k], actions[k].h, wire);
      } else {
        RowsOnlyFromRegister(worlds[k], actions[k], wire);
      }
      assert false;
    }
  }

  ghost predicate StrandedAt(worlds: seq<World>, actions: seq<Action>, j: nat, wire: Wire)
    requires j < |actions| && j < |worlds|
  {
    HasRow(worlds[j], wire) && TakesTheLast(worlds[j], actions[j], wire)
  }

  lemma AnOldRowStranded(w: World, action: Action, w': World, wire: Wire)
    requires SenderInv(w) && IdsApart(w) && Enabled(w, action) && w' == Do(w, action)
    requires HasRow(w, wire) && HasRow(w', wire)
    ensures Stranded(w', wire) <==> Stranded(w, wire) || TakesTheLast(w, action, wire)
  {
    if Stranded(w, wire) {
      StaysStranded(w, action, wire);
    } else {
      AStepStrandsIffItTakesTheLastToken(w, action, wire);
    }
  }

  lemma ANewRowStranded(w: World, action: Action, w': World, wire: Wire)
    requires SenderInv(w) && Enabled(w, action) && w' == Do(w, action) && !HasRow(w, wire) && HasRow(w', wire)
    ensures !Stranded(w', wire)
  {
    ANewRowIsOwed(w, action, wire);
  }

  lemma NoRowAtFirst(wire: Wire)
    ensures !HasRow(INITIAL, wire)
  {
  }

  ghost predicate WasStranded(worlds: seq<World>, actions: seq<Action>, k: nat, wire: Wire)
    requires k <= |actions| && k <= |worlds|
  {
    exists j :: 0 <= j < k && StrandedAt(worlds, actions, j, wire)
  }

  lemma WasStrandedStep(worlds: seq<World>, actions: seq<Action>, k: nat, wire: Wire)
    requires k < |actions| && k < |worlds|
    ensures WasStranded(worlds, actions, k + 1, wire) <==>
            WasStranded(worlds, actions, k, wire) || StrandedAt(worlds, actions, k, wire)
  {
  }

  lemma NeverStrandedBefore(worlds: seq<World>, actions: seq<Action>, k: nat, wire: Wire)
    requires IsRun(worlds, actions) && worlds[0] == INITIAL && k < |actions|
    requires !HasRow(worlds[k], wire) && HasRow(worlds[k + 1], wire)
    ensures !WasStranded(worlds, actions, k + 1, wire)
  {
    forall j | 0 <= j < k + 1
      ensures !StrandedAt(worlds, actions, j, wire)
    {
      ANewRowIsTheFirst(worlds, actions, j, k, wire);
    }
  }

  /** In every run a waiting caller is stranded if and only if some earlier step took its last token. */
  lemma {:induction false} AWaitingCallerIsStrandedIffItsLastTokenWasTaken(
      worlds: seq<World>, actions: seq<Action>, k: nat, wire: Wire)
    requires IsRun(worlds, actions) && worlds[0] == INITIAL && k < |worlds| && HasRow(worlds[k], wire)
    ensures Stranded(worlds[k], wire) <==> WasStranded(worlds, actions, k, wire)
    decreases k
  {
    NoRowAtFirst(wire);
    var n := k - 1;
    RunKeepsSenders(worlds, actions, n);
    RunKeepsIdsApart(worlds, actions, n);
    if HasRow(worlds[n], wire) {
      AWaitingCallerIsStrandedIffItsLastTokenWasTaken(worlds, actions, n, wire);
      AnOldRowStranded(worlds[n], actions[n], worlds[k], wire);
      WasStrandedStep(worlds, actions, n, wire);
    } else {
      ANewRowStranded(worlds[n], actions[n], worlds[k], wire);
      NeverStrandedBefore(worlds, actions, n, wire);
    }
  }

  /** After any reliable run, a send that fails strands a caller if and only if one is waiting for it. */
  lemma AFailedSendStrandsIffSomeoneWaits(worlds: seq<World>, actions: seq<Action>, k: nat, h: nat)
    requires IsReliableRun(worlds, actions) && k < |worlds| && Enabled(worlds[k], SendFails(h))
    ensures var wire := worlds[k].handles[h].wire;
            var w' := Do(worlds[k], SendFails(h));
            HasRow(w', wire) && Stranded(w', wire) <==> HasRow(worlds[k], wire)
  {
    var w := worlds[k];
    var wire := w.handles[h].wire;
    RowsOnlyFromRegister(w, SendFails(h), wire);
    if HasRow(w, wire) {
      RunKeepsSenders(worlds, actions, k);
      RunKeepsIdsApart(worlds, actions, k);
      EveryRowHasOneToken(worlds, actions, k, wire);
      assert Owes(w, h, wire);
      forall s | Owes(w, s, wire)
        ensures s == h
      {
        assert TokenWire(w, s) == Some(wire) && TokenWire(w, h) == Some(wire);
      }
      AStepStrandsIffItTakesTheLastToken(w, SendFails(h), wire);
    }
  }
}
