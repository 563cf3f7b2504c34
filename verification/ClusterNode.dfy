/**
 The waiting table and the reply handle as the objects they are: `ClusterNode` in
 `src/cluster/node.rs`, `ReplyTo` in `src/reply.rs`, `Cancelled` in `src/runtime.rs`. Their methods
 are specified by the steps of the run model, so what holds of every run holds of them.
 */
module ClusterNode {
  import opened Wrappers
  import opened Ordered
  import opened ReplyRouting

  /** The one-shot channels of the callers in this process, by caller. */
  class Channels {
    var settled: map<nat, Outcome>   // what went through, or that the sender was dropped
    var listening: set<nat>          // receivers still there

    constructor ()
      ensures settled == map[] && listening == {}
    {
      settled := map[];
      listening := {};
    }
  }

  class ClusterNode {
    const local: nat
    const channels: Channels
    var counter: nat
    var correlations: nat
    var waiting: map<nat, nat>

    /** This node's half of a run: its table, its correlation counter and its callers' outcomes. */
    ghost function View(): World
      reads this, channels
    {
      Alone(local, Node(correlations, waiting), channels.settled)
    }

    constructor (local: nat, channels: Channels)
      ensures this.local == local && this.channels == channels
      ensures counter == 0 && correlations == 0 && waiting == map[]
    {
      this.local, this.channels := local, channels;
      counter, correlations, waiting := 0, 0, map[];
    }

    /** Never the same id twice. */
    method NextMessageId() returns (id: nat)
      modifies this`counter
      ensures id == Correlation(local, old(counter)) && counter == old(counter) + 1
    {
      id := Correlation(local, counter);
      counter := counter + 1;
    }

    method Register(c: nat) returns (correlation: nat)
      modifies this`waiting, this`correlations, channels`settled
      ensures correlation == Correlation(local, old(correlations))
      ensures View() == Registered(old(View()), local, c)
    {
      correlation := Correlation(local, correlations);
      correlations := correlations + 1;
      waiting := waiting[correlation := c];
      ghost var full := waiting;
      NoneGone(full, channels.settled);
      RegisteredView(local, Node(old(correlations), old(waiting)), channels.settled, c, full);
      while |waiting| > WAITING_CAPACITY
        invariant Trimmed(waiting) == Trimmed(full)
        invariant waiting.Keys <= full.Keys && forall k :: k in waiting ==> waiting[k] == full[k]
        invariant channels.settled == Drop(old(channels.settled), Gone(full, waiting))
        invariant correlations == old(correlations) + 1
        decreases |waiting|
      {
        NonEmptyHasLowest(waiting.Keys);
        var low :| low in waiting && forall k :: k in waiting ==> low <= k;
        OneFewer(full, waiting, low, old(channels.settled));
        channels.settled := channels.settled[waiting[low] := Dropped];
        waiting := waiting - {low};
      }
    }

    /** `None` is the far end saying it will never answer; an answer that does not decode drops the sender too. */
    method DeliverReply(correlation: nat, payload: Option<Payload>, decodes: bool)
      modifies this`waiting, channels`settled
      ensures View() == Deliver(old(View()), Wire(local, correlation), Read(payload, decodes))
    {
      if correlation in waiting {
        var c := waiting[correlation];
        waiting := waiting - {correlation};
        match payload
        case Some(bytes) =>
          if decodes {
            channels.settled := channels.settled[c := Answered(bytes)];
          } else {
            channels.settled := channels.settled[c := Dropped];
          }
        case None => channels.settled := channels.settled[c := Dropped];
      }
    }

    method Forget(correlation: nat)
      modifies this`waiting, channels`settled
      ensures View() == Deliver(old(View()), Wire(local, correlation), None)
    {
      if correlation in waiting {
        channels.settled := channels.settled[waiting[correlation] := Dropped];
        waiting := waiting - {correlation};
      }
    }

    /** Fail every caller still waiting. */
    method AbandonWaiting()
      modifies this`waiting, channels`settled
      ensures View() == Evicted(old(View()), local, map[])
    {
      channels.settled := Drop(channels.settled, Gone(waiting, map[]));
      waiting := map[];
    }

    /** To the caller's own table if it is on this node, and otherwise into a message for its node. */
    method RouteReply(origin: nat, correlation: nat, payload: Option<Payload>) returns (message: Option<Packet>)
      modifies this`waiting, channels`settled
      ensures origin == local ==> message == None && View() == Deliver(old(View()), Wire(local, correlation), payload)
      ensures origin != local ==> message == Some(Reply(origin, correlation, payload)) && View() == old(View())
    {
      if origin == local {
        DeliverReply(correlation, payload, true);
        return None;
      }
      return Some(Reply(origin, correlation, payload));
    }
  }

  lemma NoneGone(full: map<nat, nat>, settled: map<nat, Outcome>)
    ensures ReplyRouting.Drop(settled, Gone(full, full)) == settled
  {
    assert Gone(full, full) == {};
  }

  ghost function Alone(local: nat, node: Node, settled: map<nat, Outcome>): World {
    World(map[], map[], map[local := node], map[], settled, 0)
  }

  lemma AddedView(local: nat, node: Node, settled: map<nat, Outcome>, c: nat)
    ensures Added(Alone(local, node, settled), local, c) ==
            Alone(local, Node(node.counter + 1, node.waiting[Correlation(local, node.counter) := c]), settled)
  {
  }

  lemma EvictedView(local: nat, node: Node, settled: map<nat, Outcome>, kept: map<nat, nat>)
    ensures Evicted(Alone(local, node, settled), local, kept) ==
            Alone(local, node.(waiting := kept), ReplyRouting.Drop(settled, Gone(node.waiting, kept)))
  {
  }

  lemma RegisteredView(local: nat, node: Node, settled: map<nat, Outcome>, c: nat, full: map<nat, nat>)
    requires full == node.waiting[Correlation(local, node.counter) := c]
    ensures Registered(Alone(local, node, settled), local, c) ==
            Alone(local, Node(node.counter + 1, Trimmed(full)), ReplyRouting.Drop(settled, Gone(full, Trimmed(full))))
  {
    AddedView(local, node, settled, c);
    EvictedView(local, Node(node.counter + 1, full), settled, Trimmed(full));
  }

  lemma TrimOne(waiting: map<nat, nat>, low: nat)
    requires |waiting| > WAITING_CAPACITY && IsLowest(waiting.Keys, low)
    ensures |waiting - {low}| < |waiting| && Trimmed(waiting - {low}) == Trimmed(waiting)
  {
    assert IsLowest(waiting.Keys, Lowest(waiting.Keys));
    assert low == Lowest(waiting.Keys);
    assert (waiting - {low}).Keys == waiting.Keys - {low};
    assert |waiting.Keys - {low}| == |waiting.Keys| - 1;
  }

  lemma GoneOne(full: map<nat, nat>, waiting: map<nat, nat>, rest: map<nat, nat>, low: nat)
    requires low in waiting && waiting.Keys <= full.Keys && rest.Keys == waiting.Keys - {low}
    ensures Gone(full, rest) == Gone(full, waiting) + {full[low]}
  {
    forall c | c in Gone(full, rest)
      ensures c in Gone(full, waiting) + {full[low]}
    {
      var k :| k in full && k !in rest && full[k] == c;
    }
    forall c | c in Gone(full, waiting)
      ensures c in Gone(full, rest)
    {
      var k :| k in full && k !in waiting && full[k] == c;
    }
    assert low in full && low !in rest;
  }

  lemma DropOne(settled: map<nat, Outcome>, gone: set<nat>, c: nat)
    ensures ReplyRouting.Drop(settled, gone + {c}) == ReplyRouting.Drop(settled, gone)[c := Dropped]
  {
  }

  /** One turn of the eviction loop. */
  lemma OneFewer(full: map<nat, nat>, waiting: map<nat, nat>, low: nat, settled: map<nat, Outcome>)
    requires |waiting| > WAITING_CAPACITY && IsLowest(waiting.Keys, low)
    requires waiting.Keys <= full.Keys && forall k :: k in waiting ==> waiting[k] == full[k]
    ensures |waiting - {low}| < |waiting| && Trimmed(waiting - {low}) == Trimmed(waiting)
    ensures ReplyRouting.Drop(settled, Gone(full, waiting - {low})) ==
            ReplyRouting.Drop(settled, Gone(full, waiting))[waiting[low] := Dropped]
  {
    TrimOne(waiting, low);
    GoneOne(full, waiting, waiting - {low}, low);
    DropOne(settled, Gone(full, waiting), full[low]);
  }

  // ---- The handle ---------------------------------------------------------------------------------

  datatype Inner =
    | LocalEnd(tx: Option<nat>)                                // the sender, until it is taken
    | RemoteEnd(router: ClusterNode, wire: Wire, armed: bool)  // who asked, until it is disarmed

  datatype EncodeError = NoRouter | AlreadyUsed

  datatype ReplyDropped = ReplyDropped

  /** How to stop waiting, shared between a handle and the `ask` that awaits it. */
  class Deregister {
    var correlation: Option<nat>

    constructor ()
      ensures correlation == None
    {
      correlation := None;
    }

    /** The `ask` is over, however it ended. */
    method Cancelled(node: ClusterNode)
      modifies this, node`waiting, node.channels`settled
      ensures correlation == None
      ensures old(correlation).None? ==> node.View() == old(node.View())
      ensures old(correlation).Some? ==>
                node.View() == Deliver(old(node.View()), Wire(node.local, old(correlation).value), None)
    {
      if correlation.Some? {
        node.Forget(correlation.value);
      }
      correlation := None;
    }
  }

  class ReplyTo {
    var inner: Inner
    const deregister: Deregister

    /** Answering, passing on and dropping each leave a handle with nothing left to do. */
    predicate Spent()
      reads this
    {
      if inner.LocalEnd? then inner.tx.None? else !inner.armed
    }

    constructor FromSender(c: nat)
      ensures inner == LocalEnd(Some(c)) && fresh(deregister) && deregister.correlation == None
    {
      inner := LocalEnd(Some(c));
      deregister := new Deregister();
    }

    constructor Decode(router: ClusterNode, wire: Wire)
      ensures inner == RemoteEnd(router, wire, true) && fresh(deregister)
    {
      inner := RemoteEnd(router, wire, true);
      deregister := new Deregister();
    }

    /**
     The sender is used up even when nobody listens any more; a spent handle answers nobody. An answer for
     another host that will not encode becomes the news that there is none.
     */
    method Send(channels: Channels, value: Payload, encodes: bool) returns (r: Result<(), ReplyDropped>, message: Option<Packet>)
      requires inner.RemoteEnd? ==> inner.router.channels == channels
      modifies this, channels`settled
      modifies if inner.RemoteEnd? then {inner.router} else {}
      ensures old(inner).LocalEnd? ==> inner == LocalEnd(None)
      ensures old(inner).RemoteEnd? ==> inner == old(inner).(armed := false)
      ensures old(Spent()) ==> r == Err(ReplyDropped) && message == None && channels.settled == old(channels.settled)
      ensures old(Spent()) && old(inner).RemoteEnd? ==> inner.router.View() == old(inner.router.View())
      ensures !old(Spent()) && old(inner).LocalEnd? ==>
                && message == None && (r.Ok? <==> old(inner.tx.value) in channels.listening)
                && channels.settled == old(channels.settled)[old(inner.tx.value) := Answered(value)]
      ensures !old(Spent()) && old(inner).RemoteEnd? ==> r.Ok? && Routed(old(inner.router.View()), Read(Some(value), encodes), message)
    {
      message := None;
      match inner
      case LocalEnd(tx) =>
        inner := LocalEnd(None);
        if tx.None? {
          return Err(ReplyDropped), None;
        }
        channels.settled := channels.settled[tx.value := Answered(value)];
        r := if tx.value in channels.listening then Ok(()) else Err(ReplyDropped);
      case RemoteEnd(router, wire, armed) =>
        inner := RemoteEnd(router, wire, false);
        if !armed {
          return Err(ReplyDropped), None;
        }
        message := router.RouteReply(wire.origin, wire.corr, if encodes then Some(value) else None);
        r := Ok(());
    }

    /** The answer, or that there is none, is at the caller's table or in a message on its way there. */
    ghost predicate Routed(before: World, payload: Option<Payload>, message: Option<Packet>)
      requires inner.RemoteEnd?
      reads this, inner.router, inner.router.channels
    {
      var wire := inner.wire;
      if wire.origin == inner.router.local then message == None && inner.router.View() == Deliver(before, wire, payload)
      else message == Some(Reply(wire.origin, wire.corr, payload)) && inner.router.View() == before
    }

    /** Dropped: whoever is waiting is told, unless this handle already did what it could. */
    method Drop(channels: Channels) returns (message: Option<Packet>)
      requires inner.RemoteEnd? ==> inner.router.channels == channels
      modifies this, channels`settled
      modifies if inner.RemoteEnd? then {inner.router} else {}
      ensures old(inner).LocalEnd? ==> inner == LocalEnd(None)
      ensures old(inner).RemoteEnd? ==> inner == old(inner).(armed := false)
      ensures old(Spent()) ==> message == None && channels.settled == old(channels.settled)
      ensures old(Spent()) && old(inner).RemoteEnd? ==> inner.router.View() == old(inner.router.View())
      ensures !old(Spent()) && old(inner).LocalEnd? ==>
                message == None && channels.settled == old(channels.settled)[old(inner.tx.value) := Dropped]
      ensures !old(Spent()) && old(inner).RemoteEnd? ==> Routed(old(inner.router.View()), None, message)
    {
      message := None;
      match inner
      case LocalEnd(tx) =>
        inner := LocalEnd(None);
        if tx.Some? {
          channels.settled := channels.settled[tx.value := Dropped];
        }
      case RemoteEnd(router, wire, armed) =>
        inner := RemoteEnd(router, wire, false);
        if armed {
          message := router.RouteReply(wire.origin, wire.corr, None);
        }
    }

    /**
     Encoding a local handle moves its sender into the table and says how to take it out again; a
     remote one keeps pointing at whoever asked, and is no longer responsible for them.
     */
    method Serialize(router: ClusterNode?) returns (r: Result<Wire, EncodeError>)
      modifies this, deregister
      modifies if router != null then {router} else {}
      modifies if router != null then {router.channels} else {}
      ensures router == null ==> r == Err(NoRouter) && inner == old(inner)
      ensures router != null && old(inner).LocalEnd? ==> inner == LocalEnd(None)
      ensures r.Ok? ==> Spent()
      ensures router != null && old(inner) == LocalEnd(None) ==>
                r == Err(AlreadyUsed) && router.View() == old(router.View())
      ensures router != null && old(inner).LocalEnd? && old(inner).tx.Some? ==>
                && r == Ok(Wire(router.local, Correlation(router.local, old(router.correlations))))
                && router.View() == Registered(old(router.View()), router.local, old(inner).tx.value)
                && deregister.correlation == Some(r.value.corr)
      ensures router != null && old(inner).RemoteEnd? ==>
                r == Ok(old(inner).wire) && inner == old(inner).(armed := false) && router.View() == old(router.View())
      ensures !(old(inner).LocalEnd? && r.Ok?) ==> deregister.correlation == old(deregister.correlation)
    {
      if router == null {
        return Err(NoRouter);
      }
      match inner
      case LocalEnd(tx) =>
        if tx.None? {
          return Err(AlreadyUsed);
        }
        inner := LocalEnd(None);
        var correlation := router.Register(tx.value);
        deregister.correlation := Some(correlation);
        r := Ok(Wire(router.local, correlation));
      case RemoteEnd(_, wire, _) =>
        inner := inner.(armed := false);
        r := Ok(wire);
    }
  }

  /**
   Encoding a handle a second time. A local one refuses; a remote one does not look at whether it is
   still armed, so it puts a second token for one caller on its way.
   */
  method SerializeTwice(handle: ReplyTo, router: ClusterNode)
    returns (first: Result<Wire, EncodeError>, second: Result<Wire, EncodeError>)
    modifies handle, handle.deregister, router, router.channels
    ensures second.Ok? <==> old(handle.inner).RemoteEnd?
    ensures old(handle.inner).RemoteEnd? ==> first == second == Ok(old(handle.inner).wire)
    ensures old(handle.inner).LocalEnd? ==> second == Err(AlreadyUsed)
  {
    first := handle.Serialize(router);
    second := handle.Serialize(router);
  }
}
