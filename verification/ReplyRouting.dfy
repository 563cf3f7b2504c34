/**
 Answers across hosts: reply handles, the waiting table and the messages between nodes
 (`src/reply.rs`, `src/cluster/node.rs`, `Cancelled` in `src/runtime.rs`).

 A caller's right to be answered starts as a channel sender in a local handle. Encoding that
 handle moves the sender into a row of the caller's node and sends a wire, origin and correlation,
 on its way; from then on whoever holds the wire holds the duty to answer. A command that carries
 several handles is several packets here, one per handle.
 */
module ReplyRouting {
  import opened Wrappers
  import opened Ordered

  type Payload = seq<nat>

  const WAITING_CAPACITY: nat := 8192

  /** The high half is the node, the low half its counter. */
  function Correlation(local: nat, n: nat): nat {
    local * 0x1_0000_0000_0000_0000 + n
  }

  /** Two nodes never mint the same id, and neither repeats one, until a counter wraps. */
  lemma MintedIdsDiffer(node1: nat, n1: nat, node2: nat, n2: nat)
    requires n1 < 0x1_0000_0000_0000_0000 && n2 < 0x1_0000_0000_0000_0000
    ensures Correlation(node1, n1) == Correlation(node2, n2) ==> node1 == node2 && n1 == n2
  {
  }

  /** Who is waiting, and which of their requests they are waiting for. */
  datatype Wire = Wire(origin: nat, corr: nat)

  datatype Handle =
    | Local(caller: nat)                       // the sender itself, in the caller's process
    | Registering(caller: nat, wire: Wire)     // row inserted, deregister slot not filled yet
    | Encoded(wire: Wire)                      // on its way out, not yet with the transport
    | Remote(node: nat, wire: Wire)            // decoded elsewhere and armed

  datatype Packet =
    | Command(to: nat, wire: Wire)
    | Reply(to: nat, corr: nat, payload: Option<Payload>)

  /**
   One `ask`. `wire` is what its handle was encoded as, if it was; `slot` how the ask will
   deregister; `late` records that the handle was still to be encoded, or half encoded, when the
   ask ended. A caller and the handle it starts with share one id.
   */
  datatype Caller = Caller(home: nat, asking: bool, wire: Option<Wire>, slot: Option<nat>, late: bool)

  datatype Outcome = Answered(payload: Payload) | Dropped

  /** A node's half of the protocol: its correlation counter and its waiting table. */
  datatype Node = Node(counter: nat, waiting: map<nat, nat>)

  const FRESH_NODE := Node(0, map[])

  /** The eviction loop of `register`: drop the lowest correlation while the table is too large. */
  ghost function Trimmed(waiting: map<nat, nat>): (kept: map<nat, nat>)
    ensures |kept| <= WAITING_CAPACITY
    ensures kept.Keys <= waiting.Keys
    ensures forall k :: k in kept ==> kept[k] == waiting[k]
    ensures |waiting| <= WAITING_CAPACITY ==> kept == waiting
    decreases |waiting|
  {
    if |waiting| <= WAITING_CAPACITY then waiting
    else
      var low := Lowest(waiting.Keys);
      assert |waiting.Keys - {low}| == |waiting.Keys| - 1;
      assert (waiting - {low}).Keys == waiting.Keys - {low};
      Trimmed(waiting - {low})
  }

  /** Eviction takes the longest waits: everything evicted is older than everything kept. */
  lemma {:induction false} EvictsTheOldest(waiting: map<nat, nat>, out: nat, kept: nat)
    requires out in waiting && out !in Trimmed(waiting) && kept in Trimmed(waiting)
    ensures out < kept
    decreases |waiting|
  {
    if |waiting| > WAITING_CAPACITY {
      var low := Lowest(waiting.Keys);
      assert |waiting.Keys - {low}| == |waiting.Keys| - 1;
      assert (waiting - {low}).Keys == waiting.Keys - {low};
      if out != low {
        EvictsTheOldest(waiting - {low}, out, kept);
      }
    }
  }

  datatype World = World(
    callers: map<nat, Caller>,
    handles: map<nat, Handle>,
    nodes: map<nat, Node>,
    packets: map<nat, Packet>,
    outcome: map<nat, Outcome>,
    next: nat
  )

  const INITIAL := World(map[], map[], map[], map[], map[], 0)

  datatype Action =
    | Ask(node: nat)
    | EndLocal(h: nat, payload: Option<Payload>)      // answered, or dropped, in the caller's process
    | Register(h: nat)                                // encoding a local handle: the row goes in
    | FillSlot(h: nat)                                // and then the deregister slot is set
    | Forward(h: nat)                                 // encoding a remote handle disarms it
    | Send(h: nat, to: nat)
    | SendFails(h: nat)
    | Dispatch(p: nat)                                // accepted, decoded, armed
    | EndRemote(h: nat, payload: Option<Payload>)     // answered, or dropped, on another host
    | DeliverReply(p: nat, decodes: bool)             // an answer the caller cannot read is none
    | Lose(p: nat)                                    // lost, refused as a repeat, or undecodable
    | Duplicate(p: nat)
    | EndAsk(c: nat)                                  // the ask future is gone, however it ended
    | StandDown(node: nat)

  function NodeOf(w: World, n: nat): Node {
    if n in w.nodes then w.nodes[n] else FRESH_NODE
  }

  predicate HasRow(w: World, wire: Wire) {
    wire.corr in NodeOf(w, wire.origin).waiting
  }

  predicate RowOf(w: World, wire: Wire, c: nat) {
    HasRow(w, wire) && NodeOf(w, wire.origin).waiting[wire.corr] == c
  }

  predicate LocalOf(w: World, h: nat, c: nat) {
    h in w.handles && w.handles[h] == Local(c)
  }

  /** What `deliver_reply` does with the sender it finds, if it finds one. */
  function OutcomeOf(payload: Option<Payload>): Outcome {
    match payload
    case Some(bytes) => Answered(bytes)
    case None => Dropped
  }

  /** What the caller makes of a reply that may not decode. */
  function Read(payload: Option<Payload>, decodes: bool): Option<Payload> {
    if decodes then payload else None
  }

  function WithoutRow(w: World, wire: Wire): World {
    var node := NodeOf(w, wire.origin);
    w.(nodes := w.nodes[wire.origin := node.(waiting := node.waiting - {wire.corr})])
  }

  function Deliver(w: World, wire: Wire, payload: Option<Payload>): World {
    if !HasRow(w, wire) then w
    else
      var c := NodeOf(w, wire.origin).waiting[wire.corr];
      WithoutRow(w, wire).(outcome := w.outcome[c := OutcomeOf(payload)])
  }

  /** Every sender in these rows is dropped. */
  function Drop(outcome: map<nat, Outcome>, callers: set<nat>): map<nat, Outcome> {
    outcome + map c | c in callers :: Dropped
  }

  predicate IsRegistering(w: World, c: nat) {
    c in w.handles && w.handles[c].Registering?
  }

  /** A caller's row goes in under the next correlation; the table has not been trimmed yet. */
  function Added(w: World, n: nat, c: nat): World {
    var node := NodeOf(w, n);
    w.(nodes := w.nodes[n := Node(node.counter + 1, node.waiting[Correlation(n, node.counter) := c])])
  }

  /** The callers whose rows are in `waiting` and not in `kept`. */
  function Gone(waiting: map<nat, nat>, kept: map<nat, nat>): set<nat> {
    set k | k in waiting && k !in kept :: waiting[k]
  }

  /** A node keeps only these rows; the senders of the others are dropped. */
  ghost function Evicted(w: World, n: nat, kept: map<nat, nat>): World {
    var node := NodeOf(w, n);
    w.(nodes := w.nodes[n := node.(waiting := kept)], outcome := Drop(w.outcome, Gone(node.waiting, kept)))
  }

  /** `register`: the row goes in and the table is trimmed. */
  ghost function Registered(w: World, n: nat, c: nat): World {
    Evicted(Added(w, n, c), n, Trimmed(NodeOf(Added(w, n, c), n).waiting))
  }

  predicate IsLocalHandle(w: World, h: nat) {
    h in w.handles && w.handles[h].Local? && w.handles[h].caller in w.callers
  }

  /** The handle has given up its sender, and its caller knows what it was encoded as. */
  function Encoding(w: World, h: nat): World
    requires IsLocalHandle(w, h)
  {
    var c := w.handles[h].caller;
    var caller := w.callers[c];
    var wire := Wire(caller.home, Correlation(caller.home, NodeOf(w, caller.home).counter));
    w.(handles := w.handles[h := Registering(c, wire)],
       callers := w.callers[c := caller.(wire := Some(wire), late := caller.late || !caller.asking)])
  }

  function HomeOf(w: World, h: nat): nat
    requires IsLocalHandle(w, h)
  {
    w.callers[w.handles[h].caller].home
  }

  ghost function DoRegister(w: World, h: nat): World
    requires IsLocalHandle(w, h)
  {
    Registered(Encoding(w, h), HomeOf(w, h), w.handles[h].caller)
  }

  /** The same with the trimming still to come. */
  function Inserted(w: World, h: nat): World
    requires IsLocalHandle(w, h)
  {
    Added(Encoding(w, h), HomeOf(w, h), w.handles[h].caller)
  }

  function DoEndAsk(w: World, c: nat): World
    requires c in w.callers
  {
    var caller := w.callers[c];
    var ended := w.(callers := w.callers[c := caller.(asking := false, slot := None, late := IsRegistering(w, c))]);
    match caller.slot
    case None => ended
    case Some(corr) => Deliver(ended, Wire(caller.home, corr), None)
  }

  ghost predicate Enabled(w: World, action: Action) {
    match action
    case Ask(_) => true
    case EndLocal(h, _) => h in w.handles && w.handles[h].Local?
    case Register(h) => IsLocalHandle(w, h)
    case FillSlot(h) => h in w.handles && w.handles[h].Registering? && w.handles[h].caller in w.callers
    case Forward(h) => h in w.handles && w.handles[h].Remote?
    case Send(h, _) => h in w.handles && w.handles[h].Encoded?
    case SendFails(h) => h in w.handles && w.handles[h].Encoded?
    case Dispatch(p) => p in w.packets && w.packets[p].Command?
    case EndRemote(h, _) => h in w.handles && w.handles[h].Remote?
    case DeliverReply(p, _) => p in w.packets && w.packets[p].Reply?
    case Lose(p) => p in w.packets
    case Duplicate(p) => p in w.packets
    case EndAsk(c) => c in w.callers && w.callers[c].asking
    case StandDown(_) => true
  }

  function PutHandle(w: World, h: nat, handle: Handle): World {
    w.(handles := w.handles[h := handle])
  }

  function NoHandle(w: World, h: nat): World {
    w.(handles := w.handles - {h})
  }

  function NoPacket(w: World, p: nat): World {
    w.(packets := w.packets - {p})
  }

  /** A new packet under a fresh id. */
  function NewPacket(w: World, packet: Packet): World {
    w.(packets := w.packets[w.next := packet], next := w.next + 1)
  }

  ghost function Do(w: World, action: Action): World
    requires Enabled(w, action)
  {
    match action
    case Ask(node) =>
      w.(callers := w.callers[w.next := Caller(node, true, None, None, false)],
         handles := w.handles[w.next := Local(w.next)], next := w.next + 1)
    case EndLocal(h, payload) =>
      NoHandle(w, h).(outcome := w.outcome[w.handles[h].caller := OutcomeOf(payload)])
    case Register(h) => DoRegister(w, h)
    case FillSlot(h) =>
      var c := w.handles[h].caller;
      PutHandle(w, h, Encoded(w.handles[h].wire))
        .(callers := w.callers[c := w.callers[c].(slot := Some(w.handles[h].wire.corr))])
    case Forward(h) => PutHandle(w, h, Encoded(w.handles[h].wire))
    case Send(h, to) => NewPacket(NoHandle(w, h), Command(to, w.handles[h].wire))
    case SendFails(h) => NoHandle(w, h)
    case Dispatch(p) =>
      var packet := w.packets[p];
      PutHandle(NoPacket(w, p), w.next, Remote(packet.to, packet.wire)).(next := w.next + 1)
    case EndRemote(h, payload) =>
      var handle := w.handles[h];
      if handle.wire.origin == handle.node then Deliver(NoHandle(w, h), handle.wire, payload)
      else NewPacket(NoHandle(w, h), Reply(handle.wire.origin, handle.wire.corr, payload))
    case DeliverReply(p, decodes) =>
      Deliver(NoPacket(w, p), WireOf(w.packets[p]), Read(w.packets[p].payload, decodes))
    case Lose(p) => NoPacket(w, p)
    case Duplicate(p) => NewPacket(w, w.packets[p])
    case EndAsk(c) => DoEndAsk(w, c)
    case StandDown(n) => Evicted(w, n, map[])
  }

  ghost predicate IsRun(worlds: seq<World>, actions: seq<Action>) {
    && |worlds| == |actions| + 1
    && forall k :: 0 <= k < |actions| ==>
         Enabled(worlds[k], actions[k]) && worlds[k + 1] == Do(worlds[k], actions[k])
  }

  // ---- Every sender is in one place -----------------------------------------------------

  /** The node it names has handed this correlation out. */
  predicate IsMinted(w: World, wire: Wire) {
    wire.corr < Correlation(wire.origin, NodeOf(w, wire.origin).counter)
  }

  ghost predicate HandleHolds(w: World, h: nat)
    requires h in w.handles
  {
    && h < w.next
    && match w.handles[h]
       case Local(c) => h == c && c in w.callers && c !in w.outcome && w.callers[c].wire.None?
       case Registering(c, wire) => h == c && c in w.callers && w.callers[c].wire == Some(wire) && w.callers[c].slot.None?
       case Encoded(wire) => IsMinted(w, wire)
       case Remote(_, wire) => IsMinted(w, wire)
  }

  function WireOf(packet: Packet): Wire {
    match packet
    case Command(_, wire) => wire
    case Reply(to, corr, _) => Wire(to, corr)
  }

  ghost predicate PacketHolds(w: World, p: nat)
    requires p in w.packets
  {
    p < w.next && IsMinted(w, WireOf(w.packets[p]))
  }

  /** A row's sender is unspent; the ask that owns it can deregister it, unless it ended too early. */
  ghost predicate RowHolds(w: World, wire: Wire)
    requires HasRow(w, wire)
  {
    var c := NodeOf(w, wire.origin).waiting[wire.corr];
    && c in w.callers && c !in w.outcome
    && w.callers[c].wire == Some(wire)
    && (w.callers[c].asking ==> w.callers[c].slot == Some(wire.corr) || IsRegistering(w, c))
    && (!w.callers[c].asking ==> w.callers[c].late)
  }

  /** An unspent sender is in the caller's first handle until that is encoded, and then in its row. */
  ghost predicate CallerHolds(w: World, c: nat)
    requires c in w.callers
  {
    var caller := w.callers[c];
    && c < w.next
    && (caller.slot.Some? ==> caller.wire == Some(Wire(caller.home, caller.slot.value)))
    && (caller.wire.Some? ==> caller.wire.value.origin == caller.home && IsMinted(w, caller.wire.value))
    && (c !in w.outcome ==> if caller.wire.None? then LocalOf(w, c, c) else RowOf(w, caller.wire.value, c))
  }

  ghost predicate SenderInv(w: World) {
    && (forall h :: h in w.handles ==> HandleHolds(w, h))
    && (forall p :: p in w.packets ==> PacketHolds(w, p))
    && (forall wire :: HasRow(w, wire) ==> RowHolds(w, wire))
    && (forall c :: c in w.callers ==> CallerHolds(w, c))
    && (forall c :: c in w.outcome ==> c in w.callers)
  }

  ghost predicate TablesBounded(w: World) {
    forall n :: n in w.nodes ==> |w.nodes[n].waiting| <= WAITING_CAPACITY
  }

  // Wires move from handle to packet, from packet to handle, or out of sight.

  ghost predicate OnlyWiresMoved(w: World, w': World) {
    && w'.callers == w.callers && w'.nodes == w.nodes && w'.outcome == w.outcome
    && w.next <= w'.next
    && (forall h :: h in w'.handles ==> HandleMoved(w, w', h))
    && (forall h :: h in w.handles ==> HandleStays(w, w', h))
    && (forall p :: p in w'.packets ==> PacketHolds(w', p))
  }

  ghost predicate HandleMoved(w: World, w': World, h: nat)
    requires h in w'.handles
  {
    && h < w'.next
    && ((h in w.handles && w.handles[h] == w'.handles[h]) ||
        ((w'.handles[h].Encoded? || w'.handles[h].Remote?) && IsMinted(w, w'.handles[h].wire)))
  }

  ghost predicate HandleStays(w: World, w': World, h: nat)
    requires h in w.handles
  {
    w.handles[h].Local? || w.handles[h].Registering? ==> h in w'.handles && w'.handles[h] == w.handles[h]
  }

  lemma WiresMoveRow(w: World, w': World, wire: Wire)
    requires OnlyWiresMoved(w, w') && HasRow(w, wire) && RowHolds(w, wire)
    ensures HasRow(w', wire) && RowHolds(w', wire)
  {
    var c := NodeOf(w, wire.origin).waiting[wire.corr];
    assert c in w.handles ==> HandleStays(w, w', c);
  }

  lemma WiresMoveCaller(w: World, w': World, c: nat)
    requires OnlyWiresMoved(w, w') && c in w.callers && CallerHolds(w, c)
    ensures CallerHolds(w', c)
  {
    assert c in w.handles ==> HandleStays(w, w', c);
  }

  /** Moving wires about leaves every sender where it is. */
  lemma WiresMoveKeepsSenders(w: World, w': World)
    requires SenderInv(w) && OnlyWiresMoved(w, w')
    ensures SenderInv(w')
  {
    forall h | h in w'.handles
      ensures HandleHolds(w', h)
    {
      assert HandleMoved(w, w', h);
      assert h in w.handles ==> HandleHolds(w, h);
    }
    forall wire | HasRow(w', wire)
      ensures RowHolds(w', wire)
    {
      assert HasRow(w, wire) && RowHolds(w, wire);
      WiresMoveRow(w, w', wire);
    }
    forall c | c in w'.callers
      ensures CallerHolds(w', c)
    {
      WiresMoveCaller(w, w', c);
    }
  }

  lemma EncodedMoves(w: World, h: nat, action: Action)
    requires SenderInv(w) && Enabled(w, action)
    requires action == Forward(h) || action == SendFails(h) || (action.Send? && action.h == h)
    ensures OnlyWiresMoved(w, Do(w, action))
  {
    var w' := Do(w, action);
    assert HandleHolds(w, h);
    forall k | k in w'.handles
      ensures HandleMoved(w, w', k)
    {
      assert k in w.handles ==> HandleHolds(w, k);
    }
    forall p | p in w'.packets
      ensures PacketHolds(w', p)
    {
      assert p in w.packets ==> PacketHolds(w, p);
    }
  }

  lemma PacketMoves(w: World, p: nat, action: Action)
    requires SenderInv(w) && Enabled(w, action)
    requires action == Dispatch(p) || action == Lose(p) || action == Duplicate(p)
    ensures OnlyWiresMoved(w, Do(w, action))
  {
    var w' := Do(w, action);
    assert PacketHolds(w, p);
    assert w.next in w.handles ==> HandleHolds(w, w.next);
    forall k | k in w'.handles
      ensures HandleMoved(w, w', k)
    {
      assert k in w.handles ==> HandleHolds(w, k);
    }
    forall q | q in w'.packets
      ensures PacketHolds(w', q)
    {
      assert q in w.packets ==> PacketHolds(w, q);
    }
  }

  lemma NewPacketKeepsSenders(w: World, packet: Packet)
    requires SenderInv(w) && IsMinted(w, WireOf(packet))
    ensures SenderInv(NewPacket(w, packet))
  {
    var w' := NewPacket(w, packet);
    forall h | h in w'.handles
      ensures HandleMoved(w, w', h)
    {
      assert HandleHolds(w, h);
    }
    forall p | p in w'.packets
      ensures PacketHolds(w', p)
    {
      assert p in w.packets ==> PacketHolds(w, p);
    }
    WiresMoveKeepsSenders(w, w');
  }

  lemma NoHandleKeepsSenders(w: World, h: nat)
    requires SenderInv(w) && h in w.handles && w.handles[h].Remote?
    ensures SenderInv(NoHandle(w, h))
  {
    var w' := NoHandle(w, h);
    forall k | k in w'.handles
      ensures HandleMoved(w, w', k)
    {
      assert HandleHolds(w, k);
    }
    forall p | p in w'.packets
      ensures PacketHolds(w', p)
    {
      assert PacketHolds(w, p);
    }
    WiresMoveKeepsSenders(w, w');
  }

  // A sender is spent: the callers in `spent` lose their place and get an outcome.

  /** `w'` is `w` with some unspent callers settled, and with them their rows or local handles gone. */
  ghost predicate Settled(w: World, w': World, spent: set<nat>) {
    && w'.callers == w.callers && w'.packets == w.packets && w'.next == w.next
    && w'.outcome.Keys == w.outcome.Keys + spent && spent <= w.callers.Keys
    && (forall h :: h in w'.handles ==>
          h in w.handles && w'.handles[h] == w.handles[h] && !(w.handles[h].Local? && w.handles[h].caller in spent))
    && (forall h :: h in w.handles && h !in w'.handles ==> w.handles[h].Local? && w.handles[h].caller in spent)
    && (forall n :: NodeOf(w', n).counter == NodeOf(w, n).counter)
    && (forall wire :: HasRow(w', wire) ==> SameRow(w, w', wire))
    && (forall wire :: HasRow(w, wire) ==> RowKept(w, w', wire, spent))
  }

  predicate SameRow(w: World, w': World, wire: Wire)
    requires HasRow(w', wire)
  {
    HasRow(w, wire) && NodeOf(w', wire.origin).waiting[wire.corr] == NodeOf(w, wire.origin).waiting[wire.corr]
  }

  /** A row is gone exactly when its sender is spent. */
  predicate RowKept(w: World, w': World, wire: Wire, spent: set<nat>)
    requires HasRow(w, wire)
  {
    HasRow(w', wire) <==> NodeOf(w, wire.origin).waiting[wire.corr] !in spent
  }

  lemma SettledCaller(w: World, w': World, spent: set<nat>, c: nat)
    requires Settled(w, w', spent) && c in w.callers && CallerHolds(w, c)
    ensures CallerHolds(w', c)
  {
    if c !in w'.outcome {
      if w.callers[c].wire.Some? {
        assert RowKept(w, w', w.callers[c].wire.value, spent);
        assert SameRow(w, w', w.callers[c].wire.value);
      }
    }
  }

  lemma SettledRow(w: World, w': World, spent: set<nat>, wire: Wire)
    requires Settled(w, w', spent) && HasRow(w', wire) && HasRow(w, wire) && RowHolds(w, wire)
    ensures RowHolds(w', wire)
  {
    assert SameRow(w, w', wire) && RowKept(w, w', wire, spent);
  }

  lemma SettledKeepsSenders(w: World, w': World, spent: set<nat>)
    requires SenderInv(w) && Settled(w, w', spent)
    ensures SenderInv(w')
  {
    forall h | h in w'.handles
      ensures HandleHolds(w', h)
    {
      assert HandleHolds(w, h);
    }
    forall wire | HasRow(w', wire)
      ensures RowHolds(w', wire)
    {
      assert SameRow(w, w', wire);
      SettledRow(w, w', spent, wire);
    }
    forall c | c in w'.callers
      ensures CallerHolds(w', c)
    {
      SettledCaller(w, w', spent, c);
    }
    forall p | p in w'.packets
      ensures PacketHolds(w', p)
    {
      assert PacketHolds(w, p);
    }
  }

  /** Two rows never hold the same caller's sender. */
  lemma RowsDiffer(w: World, wire1: Wire, wire2: Wire)
    requires SenderInv(w) && HasRow(w, wire1) && HasRow(w, wire2)
    ensures NodeOf(w, wire1.origin).waiting[wire1.corr] == NodeOf(w, wire2.origin).waiting[wire2.corr]
            ==> wire1 == wire2
  {
    assert RowHolds(w, wire1) && RowHolds(w, wire2);
  }

  lemma NoLocalWithRow(w: World, wire: Wire, h: nat)
    requires SenderInv(w) && HasRow(w, wire) && h in w.handles
    ensures w.handles[h] != Local(NodeOf(w, wire.origin).waiting[wire.corr])
  {
    assert RowHolds(w, wire) && HandleHolds(w, h);
  }

  /** `w'` is `w` with some of one node's rows taken out and their senders used or dropped. */
  ghost predicate RowsTaken(w: World, w': World, n: nat, kept: map<nat, nat>) {
    && kept.Keys <= NodeOf(w, n).waiting.Keys
    && (forall k :: k in kept ==> kept[k] == NodeOf(w, n).waiting[k])
    && w' == w.(nodes := w.nodes[n := NodeOf(w, n).(waiting := kept)], outcome := w'.outcome)
    && w'.outcome.Keys == w.outcome.Keys + Gone(NodeOf(w, n).waiting, kept)
  }

  lemma GoneIsUnspent(w: World, n: nat, kept: map<nat, nat>, c: nat)
    requires SenderInv(w) && c in Gone(NodeOf(w, n).waiting, kept)
    ensures c in w.callers && c !in w.outcome && !LocalOf(w, c, c)
  {
    var k :| k in NodeOf(w, n).waiting && k !in kept && NodeOf(w, n).waiting[k] == c;
    assert HasRow(w, Wire(n, k)) && RowHolds(w, Wire(n, k));
    assert c in w.handles ==> HandleHolds(w, c);
  }

  lemma TakenRowKept(w: World, w': World, n: nat, kept: map<nat, nat>, wire: Wire)
    requires SenderInv(w) && RowsTaken(w, w', n, kept) && HasRow(w, wire)
    ensures RowKept(w, w', wire, Gone(NodeOf(w, n).waiting, kept))
  {
    var waiting := NodeOf(w, n).waiting;
    var c := NodeOf(w, wire.origin).waiting[wire.corr];
    if c in Gone(waiting, kept) {
      var k :| k in waiting && k !in kept && waiting[k] == c;
      RowsDiffer(w, wire, Wire(n, k));
    }
  }

  lemma RowsTakenKeepsSenders(w: World, w': World, n: nat, kept: map<nat, nat>)
    requires SenderInv(w) && RowsTaken(w, w', n, kept)
    ensures SenderInv(w')
  {
    var spent := Gone(NodeOf(w, n).waiting, kept);
    forall c | c in spent
      ensures c in w.callers && !LocalOf(w, c, c)
    {
      GoneIsUnspent(w, n, kept, c);
    }
    forall h | h in w.handles
      ensures !(w.handles[h].Local? && w.handles[h].caller in spent)
    {
      assert HandleHolds(w, h);
      assert w.handles[h].Local? ==> LocalOf(w, h, h);
    }
    forall wire | HasRow(w, wire)
      ensures RowKept(w, w', wire, spent)
    {
      TakenRowKept(w, w', n, kept, wire);
    }
    SettledKeepsSenders(w, w', spent);
  }

  lemma DeliverTakes(w: World, wire: Wire, payload: Option<Payload>)
    requires HasRow(w, wire)
    ensures RowsTaken(w, Deliver(w, wire, payload), wire.origin, NodeOf(w, wire.origin).waiting - {wire.corr})
  {
    var waiting: map<nat, nat> := NodeOf(w, wire.origin).waiting;
    var kept := waiting - {wire.corr};
    assert Gone(waiting, kept) == {waiting[wire.corr]};
  }

  lemma DeliverKeepsSenders(w: World, wire: Wire, payload: Option<Payload>)
    requires SenderInv(w)
    ensures SenderInv(Deliver(w, wire, payload))
  {
    if HasRow(w, wire) {
      DeliverTakes(w, wire, payload);
      RowsTakenKeepsSenders(w, Deliver(w, wire, payload), wire.origin,
                            NodeOf(w, wire.origin).waiting - {wire.corr});
    }
  }

  lemma EndLocalKeepsSenders(w: World, h: nat, payload: Option<Payload>)
    requires SenderInv(w) && Enabled(w, EndLocal(h, payload))
    ensures SenderInv(Do(w, EndLocal(h, payload)))
  {
    var w' := Do(w, EndLocal(h, payload));
    var c := w.handles[h].caller;
    assert HandleHolds(w, h);
    forall k | k in w'.handles
      ensures w.handles[k] != Local(c)
    {
      assert HandleHolds(w, k);
    }
    forall wire | HasRow(w, wire)
      ensures RowKept(w, w', wire, {c})
    {
      NoLocalWithRow(w, wire, h);
    }
    SettledKeepsSenders(w, w', {c});
  }

  lemma EvictedKeepsSenders(w: World, n: nat, kept: map<nat, nat>)
    requires SenderInv(w) && kept.Keys <= NodeOf(w, n).waiting.Keys
    requires forall k :: k in kept ==> kept[k] == NodeOf(w, n).waiting[k]
    ensures SenderInv(Evicted(w, n, kept))
  {
    RowsTakenKeepsSenders(w, Evicted(w, n, kept), n, kept);
  }

  lemma RepliesKeepSenders(w: World, action: Action)
    requires SenderInv(w) && Enabled(w, action) && (action.EndRemote? || action.DeliverReply?)
    ensures SenderInv(Do(w, action))
  {
    match action
    case EndRemote(h, payload) =>
      var handle := w.handles[h];
      assert HandleHolds(w, h);
      NoHandleKeepsSenders(w, h);
      if handle.wire.origin == handle.node {
        DeliverKeepsSenders(NoHandle(w, h), handle.wire, payload);
      } else {
        NewPacketKeepsSenders(NoHandle(w, h), Reply(handle.wire.origin, handle.wire.corr, payload));
      }
    case DeliverReply(p, decodes) =>
      PacketMoves(w, p, Lose(p));
      WiresMoveKeepsSenders(w, NoPacket(w, p));
      DeliverKeepsSenders(NoPacket(w, p), WireOf(w.packets[p]), Read(w.packets[p].payload, decodes));
  }

  // Asking, encoding and giving up.

  lemma AskKeepsSenders(w: World, node: nat)
    requires SenderInv(w)
    ensures SenderInv(Do(w, Ask(node)))
  {
    var w' := Do(w, Ask(node));
    assert w.next in w.callers ==> CallerHolds(w, w.next);
    assert w.next in w.handles ==> HandleHolds(w, w.next);
    forall h | h in w'.handles
      ensures HandleHolds(w', h)
    {
      assert h in w.handles ==> HandleHolds(w, h);
    }
    forall wire | HasRow(w', wire)
      ensures RowHolds(w', wire)
    {
      assert HasRow(w, wire) && RowHolds(w, wire);
    }
    forall c | c in w'.callers
      ensures CallerHolds(w', c)
    {
      assert c in w.callers ==> CallerHolds(w, c);
    }
    forall p | p in w'.packets
      ensures PacketHolds(w', p)
    {
      assert PacketHolds(w, p);
    }
  }

  lemma FillSlotKeepsSenders(w: World, h: nat)
    requires SenderInv(w) && Enabled(w, FillSlot(h))
    ensures SenderInv(Do(w, FillSlot(h)))
  {
    var w' := Do(w, FillSlot(h));
    assert HandleHolds(w, h);
    assert CallerHolds(w, w.handles[h].caller);
    forall k | k in w'.handles
      ensures HandleHolds(w', k)
    {
      assert HandleHolds(w, k);
    }
    forall other | HasRow(w', other)
      ensures RowHolds(w', other)
    {
      assert HasRow(w, other) && RowHolds(w, other);
    }
    forall c | c in w'.callers
      ensures CallerHolds(w', c)
    {
      assert CallerHolds(w, c);
    }
    forall p | p in w'.packets
      ensures PacketHolds(w', p)
    {
      assert PacketHolds(w, p);
    }
  }

  /** The ask ends: its row goes with it, unless its handle was only half encoded. */
  lemma EndAskKeepsSenders(w: World, c: nat)
    requires SenderInv(w) && Enabled(w, EndAsk(c))
    ensures SenderInv(Do(w, EndAsk(c)))
  {
    var caller := w.callers[c];
    var ended := caller.(asking := false, slot := None, late := IsRegistering(w, c));
    assert CallerHolds(w, c);
    var w1 := if caller.slot.None? then w else Deliver(w, Wire(caller.home, caller.slot.value), None);
    if caller.slot.Some? {
      DeliverKeepsSenders(w, Wire(caller.home, caller.slot.value), None);
    }
    RowsOfAnAsk(w1, c);
    GivingUpKeepsSenders(w1, c, ended);
    EndAskIsGivingUp(w, c, ended, w1);
  }

  lemma EndAskIsGivingUp(w: World, c: nat, ended: Caller, w1: World)
    requires c in w.callers && ended == w.callers[c].(asking := false, slot := None, late := ended.late)
    requires ended.late == IsRegistering(w, c)
    requires w1 == match w.callers[c].slot
                   case None => w
                   case Some(corr) => Deliver(w, Wire(ended.home, corr), None)
    ensures DoEndAsk(w, c) == w1.(callers := w1.callers[c := ended])
  {
  }

  /** A row whose ask still runs is named by the slot, unless the slot is about to be filled. */
  lemma RowsOfAnAsk(w: World, c: nat)
    requires SenderInv(w) && c in w.callers && w.callers[c].asking
    requires w.callers[c].slot.Some? ==> !HasRow(w, Wire(w.callers[c].home, w.callers[c].slot.value))
    ensures forall wire :: RowOf(w, wire, c) ==> IsRegistering(w, c)
  {
    forall wire | RowOf(w, wire, c)
      ensures IsRegistering(w, c)
    {
      assert RowHolds(w, wire) && CallerHolds(w, c);
    }
  }

  lemma GivingUpKeepsSenders(w: World, c: nat, ended: Caller)
    requires SenderInv(w) && c in w.callers
    requires ended.home == w.callers[c].home && ended.wire == w.callers[c].wire && ended.slot.None? && !ended.asking
    requires forall wire :: RowOf(w, wire, c) ==> ended.late
    ensures SenderInv(w.(callers := w.callers[c := ended]))
  {
    var w' := w.(callers := w.callers[c := ended]);
    forall k | k in w'.handles
      ensures HandleHolds(w', k)
    {
      assert HandleHolds(w, k);
    }
    forall wire | HasRow(w', wire)
      ensures RowHolds(w', wire)
    {
      assert HasRow(w, wire) && RowHolds(w, wire);
      assert RowOf(w, wire, c) || NodeOf(w, wire.origin).waiting[wire.corr] != c;
    }
    forall d | d in w'.callers
      ensures CallerHolds(w', d)
    {
      assert CallerHolds(w, d);
    }
    forall p | p in w'.packets
      ensures PacketHolds(w', p)
    {
      assert PacketHolds(w, p);
    }
  }

  // Registering mints a wire, adds the row, and then trims the table.

  lemma InsertedRow(w: World, h: nat, wire: Wire)
    requires SenderInv(w) && Enabled(w, Register(h)) && HasRow(Inserted(w, h), wire)
    ensures RowHolds(Inserted(w, h), wire)
  {
    assert HandleHolds(w, h) && CallerHolds(w, h);
    if HasRow(w, wire) {
      assert RowHolds(w, wire);
      assert CallerHolds(w, NodeOf(w, wire.origin).waiting[wire.corr]);
    }
  }

  lemma InsertedCaller(w: World, h: nat, c: nat)
    requires SenderInv(w) && Enabled(w, Register(h)) && c in w.callers
    ensures CallerHolds(Inserted(w, h), c)
  {
    assert HandleHolds(w, h) && CallerHolds(w, c);
  }

  lemma InsertedKeepsSenders(w: World, h: nat)
    requires SenderInv(w) && Enabled(w, Register(h))
    ensures SenderInv(Inserted(w, h))
  {
    var w' := Inserted(w, h);
    assert HandleHolds(w, h);
    forall k | k in w'.handles
      ensures HandleHolds(w', k)
    {
      assert HandleHolds(w, k);
    }
    forall wire | HasRow(w', wire)
      ensures RowHolds(w', wire)
    {
      InsertedRow(w, h, wire);
    }
    forall c | c in w'.callers
      ensures CallerHolds(w', c)
    {
      InsertedCaller(w, h, c);
    }
    forall p | p in w'.packets
      ensures PacketHolds(w', p)
    {
      assert PacketHolds(w, p);
    }
  }

  lemma RegisterKeepsSenders(w: World, h: nat)
    requires SenderInv(w) && Enabled(w, Register(h))
    ensures SenderInv(Do(w, Register(h)))
  {
    InsertedKeepsSenders(w, h);
    var home := w.callers[w.handles[h].caller].home;
    EvictedKeepsSenders(Inserted(w, h), home, Trimmed(NodeOf(Inserted(w, h), home).waiting));
  }

  lemma StepKeepsSenders(w: World, action: Action)
    requires SenderInv(w) && Enabled(w, action)
    ensures SenderInv(Do(w, action))
  {
    match action
    case Ask(node) => AskKeepsSenders(w, node);
    case EndLocal(h, payload) => EndLocalKeepsSenders(w, h, payload);
    case Register(h) => RegisterKeepsSenders(w, h);
    case FillSlot(h) => FillSlotKeepsSenders(w, h);
    case EndRemote(_, _) => RepliesKeepSenders(w, action);
    case DeliverReply(_, _) => RepliesKeepSenders(w, action);
    case EndAsk(c) => EndAskKeepsSenders(w, c);
    case StandDown(n) => EvictedKeepsSenders(w, n, map[]);
    case Forward(h) => EncodedMoves(w, h, action); WiresMoveKeepsSenders(w, Do(w, action));
    case Send(h, _) => EncodedMoves(w, h, action); WiresMoveKeepsSenders(w, Do(w, action));
    case SendFails(h) => EncodedMoves(w, h, action); WiresMoveKeepsSenders(w, Do(w, action));
    case Dispatch(p) => PacketMoves(w, p, action); WiresMoveKeepsSenders(w, Do(w, action));
    case Lose(p) => PacketMoves(w, p, action); WiresMoveKeepsSenders(w, Do(w, action));
    case Duplicate(p) => PacketMoves(w, p, action); WiresMoveKeepsSenders(w, Do(w, action));
  }
}
