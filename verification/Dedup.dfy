/**
 Effectively-once processing (`src/cluster/delivery.rs`, and `dispatch` in `src/system.rs`): the
 receiver remembers the last ids it accepted and drops a redelivery of any of them.
 */
module Dedup {
  /** The last `capacity` of these. */
  function Recent(accepted: seq<nat>, capacity: nat): seq<nat> {
    if |accepted| <= capacity then accepted else accepted[|accepted| - capacity..]
  }

  /** The simple form: reject exactly the last `capacity` accepted ids. */
  function Accepting(accepted: seq<nat>, capacity: nat, id: nat): seq<nat> {
    if id in Recent(accepted, capacity) then accepted else accepted + [id]
  }

  function AcceptingAll(ids: seq<nat>, capacity: nat): seq<nat> {
    if ids == [] then [] else Accepting(AcceptingAll(ids[..|ids| - 1], capacity), capacity, ids[|ids| - 1])
  }

  /** Two acceptances of one id are more than `capacity` acceptances apart. */
  ghost predicate Spaced(accepted: seq<nat>, capacity: nat) {
    forall i, j :: 0 <= i < j < |accepted| && accepted[i] == accepted[j] ==> j - i > capacity
  }

  lemma AcceptingKeepsSpaced(accepted: seq<nat>, capacity: nat, id: nat)
    requires Spaced(accepted, capacity)
    ensures Spaced(Accepting(accepted, capacity, id), capacity)
  {
    forall i | 0 <= i < |accepted| && |accepted| - i <= capacity
      ensures accepted[i] in Recent(accepted, capacity)
    {
      LateIsRecent(accepted, capacity, i);
    }
  }

  lemma LateIsRecent(accepted: seq<nat>, capacity: nat, i: nat)
    requires i < |accepted| <= i + capacity
    ensures accepted[i] in Recent(accepted, capacity)
  {
    var recent := Recent(accepted, capacity);
    assert recent[i - (|accepted| - |recent|)] == accepted[i];
  }

  lemma {:induction false} EveryRunIsSpaced(ids: seq<nat>, capacity: nat)
    ensures Spaced(AcceptingAll(ids, capacity), capacity)
  {
    if ids != [] {
      EveryRunIsSpaced(ids[..|ids| - 1], capacity);
      AcceptingKeepsSpaced(AcceptingAll(ids[..|ids| - 1], capacity), capacity, ids[|ids| - 1]);
    }
  }

  /** Between two acceptances of one id, `capacity` other ids were accepted, all different. */
  lemma BetweenTwoAcceptances(ids: seq<nat>, capacity: nat, i: nat, j: nat)
    returns (others: seq<nat>)
    requires var accepted := AcceptingAll(ids, capacity); i < j < |accepted| && accepted[i] == accepted[j]
    ensures var accepted := AcceptingAll(ids, capacity);
            j - i > capacity && others == accepted[i + 1..i + 1 + capacity]
    ensures AcceptingAll(ids, capacity)[i] !in others
    ensures NoDuplicates(others)
  {
    EveryRunIsSpaced(ids, capacity);
    var accepted := AcceptingAll(ids, capacity);
    others := accepted[i + 1..i + 1 + capacity];
    forall a | 0 <= a < |others|
      ensures others[a] != accepted[i]
    {
      assert others[a] == accepted[i + 1 + a];
    }
    forall a, b | 0 <= a < b < |others|
      ensures others[a] != others[b]
    {
      assert others[a] == accepted[i + 1 + a] && others[b] == accepted[i + 1 + b];
    }
  }

  ghost predicate NoDuplicates(q: seq<nat>) {
    forall i, j :: 0 <= i < j < |q| ==> q[i] != q[j]
  }

  lemma PoppedIsTheRest(q: seq<nat>)
    requires NoDuplicates(q) && q != []
    ensures forall x :: x in q[1..] <==> x in q && x != q[0]
  {
    assert q == [q[0]] + q[1..];
  }

  class Dedup {
    var seen: set<nat>
    var order: seq<nat>
    const capacity: nat
    ghost var accepted: seq<nat>

    /** Set and queue agree, the queue has no duplicates and is bounded, and it is the recent past. */
    ghost predicate Valid()
      reads this
    {
      && capacity > 0
      && order == Recent(accepted, capacity) && |order| <= capacity
      && (forall id :: id in seen <==> id in order)
      && NoDuplicates(order)
    }

    /** A window of zero is raised to one. */
    constructor WithCapacity(capacity: nat)
      ensures Valid() && accepted == []
      ensures this.capacity == if capacity > 0 then capacity else 1
    {
      seen, order, accepted := {}, [], [];
      this.capacity := if capacity > 0 then capacity else 1;
    }

    method AcceptId(id: nat) returns (isNew: bool)
      requires Valid()
      modifies this
      ensures Valid() && accepted == Accepting(old(accepted), capacity, id)
      ensures isNew <==> id !in Recent(old(accepted), capacity)
    {
      if id in seen {
        return false;
      }
      seen := seen + {id};
      order := order + [id];
      if |order| > capacity {
        PoppedIsTheRest(order);
        var evicted := order[0];
        order := order[1..];
        seen := seen - {evicted};
      }
      accepted := accepted + [id];
      isNew := true;
    }
  }

  // ---- Dispatch -------------------------------------------------------------------------------------------

  datatype Message = Command(typeName: string, id: nat) | Reply

  /** What the receiver of the message's type meets, in the order it looks. */
  datatype Reception = Reception(
    decodes: bool,    // the payload is that type's command
    running: bool,    // an instance is already at its address
    builds: bool,     // and if not, one can be built
    present: bool,    // it is there when looked up again
    open: bool        // and its mailbox takes the command
  )

  /** What arrives, and what the node was like at that moment. */
  datatype Arrival = Arrival(serving: bool, types: set<string>, message: Message, reception: Reception)

  datatype Fate =
    | Answered          // a reply, handed to whoever waits for it
    | NotServing
    | Repeat            // dropped, and reported as a success
    | UnknownShardType
    | Undecodable
    | BuildRefused
    | NoActor
    | MailboxClosed
    | Delivered

  /** The receiver registered for a type: decode, find or build the instance, tell it. */
  function Received(r: Reception): Fate {
    if !r.decodes then Undecodable
    else if !r.running && !r.builds then BuildRefused
    else if !r.present then NoActor
    else if !r.open then MailboxClosed
    else Delivered
  }

  /** Each accepted id, and what became of it after it was recorded. */
  datatype Inbox = Inbox(accepted: seq<nat>, fates: seq<Fate>)

  const NOTHING_YET := Inbox([], [])

  function FateOf(inbox: Inbox, capacity: nat, a: Arrival): Fate {
    match a.message
    case Reply => Answered
    case Command(typeName, id) =>
      if !a.serving then NotServing
      else if id in Recent(inbox.accepted, capacity) then Repeat
      else if typeName !in a.types then UnknownShardType
      else Received(a.reception)
  }

  /** The fates of a command whose id was recorded. */
  predicate IsAcceptance(fate: Fate) {
    fate != Answered && fate != NotServing && fate != Repeat
  }

  function Dispatched(inbox: Inbox, capacity: nat, a: Arrival): Inbox {
    var fate := FateOf(inbox, capacity, a);
    if IsAcceptance(fate) then Inbox(inbox.accepted + [a.message.id], inbox.fates + [fate]) else inbox
  }

  /** The inbox after the first `n` arrivals. */
  function InboxAt(arrivals: seq<Arrival>, capacity: nat, n: nat): Inbox
    requires n <= |arrivals|
  {
    if n == 0 then NOTHING_YET else Dispatched(InboxAt(arrivals, capacity, n - 1), capacity, arrivals[n - 1])
  }

  ghost predicate InboxInv(inbox: Inbox, capacity: nat) {
    |inbox.fates| == |inbox.accepted| && Spaced(inbox.accepted, capacity)
  }

  lemma {:induction false} RunKeepsInbox(arrivals: seq<Arrival>, capacity: nat, n: nat)
    requires n <= |arrivals|
    ensures InboxInv(InboxAt(arrivals, capacity, n), capacity)
  {
    if n > 0 {
      RunKeepsInbox(arrivals, capacity, n - 1);
      var message := arrivals[n - 1].message;
      if message.Command? {
        AcceptingKeepsSpaced(InboxAt(arrivals, capacity, n - 1).accepted, capacity, message.id);
      }
    }
  }

  /** Over any arrivals, one message id is delivered at most once per window of accepted ids. */
  lemma AtMostOncePerWindow(arrivals: seq<Arrival>, capacity: nat, j: nat, k: nat)
    requires var inbox := InboxAt(arrivals, capacity, |arrivals|);
             && j < k < |inbox.accepted| && inbox.accepted[j] == inbox.accepted[k]
             && |inbox.fates| == |inbox.accepted| && inbox.fates[j] == Delivered && inbox.fates[k] == Delivered
    ensures k - j > capacity
  {
    RunKeepsInbox(arrivals, capacity, |arrivals|);
  }

  // A repeat is reported as a success. Was its command delivered? (`Mailbox` says whether it was handled.)

  function FateAt(arrivals: seq<Arrival>, capacity: nat, k: nat): Fate
    requires k < |arrivals|
  {
    FateOf(InboxAt(arrivals, capacity, k), capacity, arrivals[k])
  }

  predicate IsCommand(a: Arrival, id: nat) {
    a.message.Command? && a.message.id == id
  }

  /** Everything past the dedup window goes well. */
  predicate Takes(a: Arrival) {
    && a.message.Command? && a.message.typeName in a.types
    && a.reception.decodes && (a.reception.running || a.reception.builds)
    && a.reception.present && a.reception.open
  }

  lemma OneMoreRecent(accepted: seq<nat>, capacity: nat, added: nat, id: nat)
    requires id in Recent(accepted + [added], capacity)
    ensures id == added || id in Recent(accepted, capacity)
  {
    var longer := accepted + [added];
    var recent := Recent(longer, capacity);
    var i :| 0 <= i < |recent| && recent[i] == id;
    var at := i + |longer| - |recent|;
    assert longer[at] == id;
    if at < |accepted| {
      LateIsRecent(accepted, capacity, at);
    }
  }

  predicate Accepts(arrivals: seq<Arrival>, capacity: nat, i: nat, id: nat)
    requires i < |arrivals|
  {
    IsCommand(arrivals[i], id) && IsAcceptance(FateAt(arrivals, capacity, i))
  }

  lemma RecentBefore(arrivals: seq<Arrival>, capacity: nat, n: nat, id: nat)
    requires 0 < n <= |arrivals| && id in Recent(InboxAt(arrivals, capacity, n).accepted, capacity)
    ensures Accepts(arrivals, capacity, n - 1, id) ||
            id in Recent(InboxAt(arrivals, capacity, n - 1).accepted, capacity)
  {
    if IsAcceptance(FateAt(arrivals, capacity, n - 1)) {
      OneMoreRecent(InboxAt(arrivals, capacity, n - 1).accepted, capacity, arrivals[n - 1].message.id, id);
    }
  }

  lemma AcceptsOrKeeps(arrivals: seq<Arrival>, capacity: nat, n: nat, id: nat) returns (accepts: bool)
    requires 0 < n <= |arrivals| && id in Recent(InboxAt(arrivals, capacity, n).accepted, capacity)
    ensures accepts <==> Accepts(arrivals, capacity, n - 1, id)
    ensures !accepts ==> id in Recent(InboxAt(arrivals, capacity, n - 1).accepted, capacity)
  {
    RecentBefore(arrivals, capacity, n, id);
    accepts := Accepts(arrivals, capacity, n - 1, id);
  }

  /** `j` is where the id was last let through before `n`. */
  ghost predicate IsLastAcceptance(arrivals: seq<Arrival>, capacity: nat, j: nat, n: nat, id: nat)
    requires n <= |arrivals|
  {
    j < n && Accepts(arrivals, capacity, j, id) && forall i :: j < i < n ==> !Accepts(arrivals, capacity, i, id)
  }

  lemma NothingRecentAtFirst(arrivals: seq<Arrival>, capacity: nat, id: nat)
    ensures id !in Recent(InboxAt(arrivals, capacity, 0).accepted, capacity)
  {
  }

  lemma JustAccepted(arrivals: seq<Arrival>, capacity: nat, j: nat, id: nat)
    requires j < |arrivals| && Accepts(arrivals, capacity, j, id)
    ensures IsLastAcceptance(arrivals, capacity, j, j + 1, id)
  {
  }

  lemma LaterLastAcceptance(arrivals: seq<Arrival>, capacity: nat, j: nat, n: nat, id: nat)
    requires n < |arrivals| && IsLastAcceptance(arrivals, capacity, j, n, id) && !Accepts(arrivals, capacity, n, id)
    ensures IsLastAcceptance(arrivals, capacity, j, n + 1, id)
  {
  }

  /** An id in the window was accepted by some arrival, and has not been accepted since. */
  lemma {:induction false} LastAcceptance(arrivals: seq<Arrival>, capacity: nat, n: nat, id: nat) returns (j: nat)
    requires n <= |arrivals| && id in Recent(InboxAt(arrivals, capacity, n).accepted, capacity)
    ensures IsLastAcceptance(arrivals, capacity, j, n, id)
    decreases n
  {
    NothingRecentAtFirst(arrivals, capacity, id);
    var accepts := AcceptsOrKeeps(arrivals, capacity, n, id);
    if accepts {
      j := n - 1;
      JustAccepted(arrivals, capacity, j, id);
    } else {
      j := LastAcceptance(arrivals, capacity, n - 1, id);
      LaterLastAcceptance(arrivals, capacity, j, n - 1, id);
    }
  }

  /**
   Behind every repeat there is one arrival that was let through, after which the id was only ever
   dropped or refused for quorum. It was delivered if and only if it named a registered type, decoded,
   found or built its instance, and was taken by its mailbox.
   */
  lemma ARepeatWasDeliveredIffItsFirstArrivalWasTaken(arrivals: seq<Arrival>, capacity: nat, k: nat)
    returns (j: nat)
    requires k < |arrivals| && FateAt(arrivals, capacity, k) == Repeat
    ensures j < k && IsCommand(arrivals[j], arrivals[k].message.id) && IsAcceptance(FateAt(arrivals, capacity, j))
    ensures forall i :: j < i <= k && IsCommand(arrivals[i], arrivals[k].message.id) ==>
              FateAt(arrivals, capacity, i) == Repeat || FateAt(arrivals, capacity, i) == NotServing
    ensures FateAt(arrivals, capacity, j) == Delivered <==> Takes(arrivals[j])
  {
    var id := arrivals[k].message.id;
    j := LastAcceptance(arrivals, capacity, k, id);
    assert Accepts(arrivals, capacity, j, id);
    forall i | j < i <= k && IsCommand(arrivals[i], id)
      ensures FateAt(arrivals, capacity, i) == Repeat || FateAt(arrivals, capacity, i) == NotServing
    {
      assert i < k ==> !Accepts(arrivals, capacity, i, id);
    }
  }

  lemma RefusedThenRepeat(inbox: Inbox, capacity: nat, first: Arrival, retry: Arrival)
    requires capacity > 0 && first.serving && retry.serving
    requires first.message.Command? && IsCommand(retry, first.message.id) && !Takes(first)
    requires first.message.id !in Recent(inbox.accepted, capacity)
    ensures IsAcceptance(FateOf(inbox, capacity, first)) && FateOf(inbox, capacity, first) != Delivered
    ensures FateOf(Dispatched(inbox, capacity, first), capacity, retry) == Repeat
  {
    var accepted := inbox.accepted + [first.message.id];
    LateIsRecent(accepted, capacity, |accepted| - 1);
  }

  /** The id is recorded first, so any command refused afterwards is told, on retry, that it succeeded. */
  lemma ARefusedCommandCannotBeRetried(arrivals: seq<Arrival>, capacity: nat, k: nat)
    requires capacity > 0 && k + 1 < |arrivals| && arrivals[k].serving && arrivals[k + 1].serving
    requires arrivals[k].message.Command? && IsCommand(arrivals[k + 1], arrivals[k].message.id)
    requires !Takes(arrivals[k]) && FateAt(arrivals, capacity, k) != Repeat
    ensures IsAcceptance(FateAt(arrivals, capacity, k)) && FateAt(arrivals, capacity, k) != Delivered
    ensures FateAt(arrivals, capacity, k + 1) == Repeat
  {
    RefusedThenRepeat(InboxAt(arrivals, capacity, k), capacity, arrivals[k], arrivals[k + 1]);
  }

  // Quorum comes before everything else a command meets, and leaves no trace.

  /** The window is the last `capacity` acceptances, by position. */
  lemma RecentIsTheLastFew(accepted: seq<nat>, capacity: nat, id: nat)
    ensures id in Recent(accepted, capacity) <==>
            exists p :: 0 <= p < |accepted| && |accepted| <= p + capacity && accepted[p] == id
  {
    var recent := Recent(accepted, capacity);
    if id in recent {
      var i :| 0 <= i < |recent| && recent[i] == id;
      assert accepted[i + |accepted| - |recent|] == id;
    }
    forall p | 0 <= p < |accepted| && |accepted| <= p + capacity
      ensures accepted[p] in recent
    {
      LateIsRecent(accepted, capacity, p);
    }
  }

  /** A command is refused for quorum exactly when the node is not serving; a reply never is. */
  lemma NotServingIffNotServing(arrivals: seq<Arrival>, capacity: nat, k: nat)
    requires k < |arrivals|
    ensures FateAt(arrivals, capacity, k) == NotServing <==> arrivals[k].message.Command? && !arrivals[k].serving
    ensures FateAt(arrivals, capacity, k) == Answered <==> arrivals[k].message.Reply?
    ensures FateAt(arrivals, capacity, k) == Repeat <==>
            && arrivals[k].message.Command? && arrivals[k].serving
            && arrivals[k].message.id in Recent(InboxAt(arrivals, capacity, k).accepted, capacity)
  {
    assert Received(arrivals[k].reception) != NotServing && Received(arrivals[k].reception) != Answered;
  }

  /** So whatever was recorded, and whatever was delivered, arrived while the node was serving. */
  lemma AcceptedOnlyWhileServing(arrivals: seq<Arrival>, capacity: nat, k: nat)
    requires k < |arrivals|
    requires InboxAt(arrivals, capacity, k + 1) != InboxAt(arrivals, capacity, k) ||
             FateAt(arrivals, capacity, k) == Delivered || FateAt(arrivals, capacity, k) == Repeat
    ensures arrivals[k].serving && arrivals[k].message.Command?
  {
    NotServingIffNotServing(arrivals, capacity, k);
  }

  function Without(arrivals: seq<Arrival>, k: nat): seq<Arrival>
    requires k < |arrivals|
  {
    arrivals[..k] + arrivals[k + 1..]
  }

  lemma {:induction false} SameSoFar(arrivals: seq<Arrival>, capacity: nat, k: nat, n: nat)
    requires n <= k < |arrivals|
    ensures InboxAt(Without(arrivals, k), capacity, n) == InboxAt(arrivals, capacity, n)
  {
    if n > 0 {
      SameSoFar(arrivals, capacity, k, n - 1);
    }
  }

  /**
   A command refused for quorum might as well not have come: without it every later arrival, its own retry
   among them, meets the same inbox and the same fate.
   */
  lemma {:induction false} ARefusalForQuorumLeavesNoTrace(arrivals: seq<Arrival>, capacity: nat, k: nat, n: nat)
    requires k < n <= |arrivals| && arrivals[k].message.Command? && !arrivals[k].serving
    ensures InboxAt(Without(arrivals, k), capacity, n - 1) == InboxAt(arrivals, capacity, n)
    ensures n < |arrivals| ==> FateAt(Without(arrivals, k), capacity, n - 1) == FateAt(arrivals, capacity, n)
    decreases n
  {
    if n == k + 1 {
      SameSoFar(arrivals, capacity, k, k);
    } else {
      ARefusalForQuorumLeavesNoTrace(arrivals, capacity, k, n - 1);
      assert Without(arrivals, k)[n - 2] == arrivals[n - 1];
    }
    assert n < |arrivals| ==> Without(arrivals, k)[n - 1] == arrivals[n];
  }

  const GOOD := Reception(true, false, true, true, true)

  function First(types: set<string>, reception: Reception): Arrival {
    Arrival(true, types, Command("t", 0), reception)
  }

  /** All five refusals happen, and to each of them the retry is a success. */
  lemma FiveWaysToBeRefused(capacity: nat)
    requires capacity > 0
    ensures Refused(First({}, GOOD), capacity, UnknownShardType)
    ensures Refused(First({"t"}, GOOD.(decodes := false)), capacity, Undecodable)
    ensures Refused(First({"t"}, GOOD.(builds := false)), capacity, BuildRefused)
    ensures Refused(First({"t"}, GOOD.(present := false)), capacity, NoActor)
    ensures Refused(First({"t"}, GOOD.(open := false)), capacity, MailboxClosed)
  {
  }

  /** The first arrival meets this fate, and the retry, with everything in order by then, is a repeat. */
  predicate Refused(first: Arrival, capacity: nat, fate: Fate) {
    var arrivals := [first, First({"t"}, GOOD)];
    FateAt(arrivals, capacity, 0) == fate && FateAt(arrivals, capacity, 1) == Repeat
  }

  class Dispatcher {
    const seen: Dedup
    ghost var inbox: Inbox

    ghost predicate Valid()
      reads this, seen
    {
      seen.Valid() && inbox.accepted == seen.accepted
    }

    constructor (seen: Dedup)
      requires seen.Valid() && seen.accepted == []
      ensures this.seen == seen && Valid() && inbox == NOTHING_YET
    {
      this.seen := seen;
      inbox := NOTHING_YET;
    }

    /** Quorum, then the window, then the type's receiver; only the first two leave no trace of the id. */
    method Dispatch(a: Arrival) returns (r: Fate)
      requires Valid()
      modifies this, seen
      ensures Valid() && inbox == Dispatched(old(inbox), seen.capacity, a)
      ensures r == FateOf(old(inbox), seen.capacity, a)
    {
      if a.message.Reply? {
        return Answered;
      }
      if !a.serving {
        return NotServing;
      }
      var isNew := seen.AcceptId(a.message.id);
      if !isNew {
        return Repeat;
      }
      if a.message.typeName !in a.types {
        r := UnknownShardType;
      } else {
        r := Receive(a.reception);
      }
      inbox := Inbox(seen.accepted, inbox.fates + [r]);
    }

    /** Decoding comes first, as the command says which instance it is for. */
    method Receive(reception: Reception) returns (r: Fate)
      ensures r == Received(reception)
      ensures r == Delivered <==>
                && reception.decodes && (reception.running || reception.builds)
                && reception.present && reception.open
    {
      if !reception.decodes {
        return Undecodable;
      }
      if !reception.running {
        if !reception.builds {
          return BuildRefused;
        }
      }
      if !reception.present {
        return NoActor;
      }
      if !reception.open {
        return MailboxClosed;
      }
      r := Delivered;
    }
  }
}
