/**
 The event bus of `events/bus.rs`: a locked map of subscriptions, the
 synchronous fan-out `try_publish`, and the three critical sections of the
 asynchronous `publish` (claim, commit, refund) with the unlocked send between
 them.

 A slot keeps a map entry together with the channel it shares with its reader,
 because publishers and readers go on using the channel after the entry has
 been removed from the map.
 */
module EventBus {
  import opened Wrappers
  import opened Envelopes
  import Coalescing

  type SubId = nat

  datatype Policy = Disconnect | Backpressure | DropNewest

  datatype Channel =
    | Mpsc(capacity: nat, queue: seq<Envelope>, open: bool, policy: Policy)
    | Coalesce(pending: Coalescing.Queue)

  /** The stream and sequence of a delivered envelope. */
  datatype Mark = Mark(streamId: StreamId, sequence: nat)

  /** `wants` is `matches_event` of the subscription's topic; `notify` says the one-shot notice is unused. */
  datatype Entry = Entry(
    wants: Envelope -> bool,
    remaining: Option<nat>,
    inFlight: nat,
    last: Option<Mark>,
    notify: bool)

  datatype Slot = Slot(entry: Option<Entry>, chan: Channel, notices: seq<Option<Mark>>)

  datatype Tally = Tally(delivered: nat, dropped: nat, coalesced: nat, disconnected: seq<SubId>)

  function NoTally(): Tally { Tally(0, 0, 0, []) }

  /** How one subscription's outcome enters the publish result. */
  datatype Counted = Uncounted | AsDelivered | AsDropped | AsCoalesced | AsDisconnected

  function Count(t: Tally, id: SubId, c: Counted): Tally
  {
    match c
    case Uncounted => t
    case AsDelivered => t.(delivered := t.delivered + 1)
    case AsDropped => t.(dropped := t.dropped + 1)
    case AsCoalesced => t.(coalesced := t.coalesced + 1)
    case AsDisconnected => t.(disconnected := t.disconnected + [id])
  }

  function MarkOf(env: Envelope): Mark { Mark(env.streamId, env.sequence) }

  predicate Live(s: Slot) { s.entry.Some? }

  predicate Matches(s: Slot, env: Envelope) { s.entry.Some? && s.entry.value.wants(env) }

  predicate Room(c: Channel) { c.Mpsc? && c.open && |c.queue| < c.capacity }

  /** What waits on the channel for its reader. */
  function Content(c: Channel): seq<Envelope> { if c.Mpsc? then c.queue else c.pending.items }

  /** The reader has not dropped its end. */
  predicate Open(c: Channel) { if c.Mpsc? then c.open else !c.pending.receiverDropped }

  function Accept(c: Channel, env: Envelope): Channel
    requires c.Mpsc?
  {
    c.(queue := c.queue + [env])
  }

  /** Taking an entry out of the map also closes a coalescing queue. */
  function Remove(s: Slot): Slot
  {
    s.(entry := None, chan := if s.chan.Coalesce? then Coalesce(Coalescing.Close(s.chan.pending)) else s.chan)
  }

  /** Bookkeeping of one delivery under the lock: the quota is a saturating counter. */
  function Spend(e: Entry, env: Envelope): Entry
  {
    e.(last := Some(MarkOf(env)),
       remaining := if e.remaining == Some(0) || e.remaining.None? then e.remaining else Some(e.remaining.value - 1))
  }

  /** `disconnect_slow_consumer`: the notice names the last delivered envelope and fires at most once. */
  function FireNotice(s: Slot): Slot
  {
    if s.entry.Some? && s.entry.value.notify then
      s.(notices := s.notices + [s.entry.value.last], entry := Some(s.entry.value.(notify := false)))
    else s
  }

  /**
   What visiting one subscription in a fan-out loop does: its slot, how it counts, and
   whether to remove it afterwards.
   */
  datatype Visit = Visit(slot: Slot, counted: Counted, remove: bool)

  function After(v: Visit): Slot { if v.remove then Remove(v.slot) else v.slot }

  function VisitCoalesce(s: Slot, env: Envelope): Visit
    requires Live(s) && s.chan.Coalesce?
  {
    var q := s.chan.pending;
    var s1 := s.(chan := Coalesce(Coalescing.Push(q, env)));
    match Coalescing.PushOutcome(q, env)
    case Pushed =>
      var e := Spend(s.entry.value, env);
      Visit(s1.(entry := Some(e)), AsDelivered, e.remaining == Some(0))
    case Replaced => Visit(s1, AsCoalesced, false)
    case Dropped => Visit(s1, AsDropped, false)
    case ReceiverGone => Visit(s1, Uncounted, true)
  }

  /** One round of the `try_publish` loop. */
  function VisitSync(s: Slot, env: Envelope): Visit
  {
    if !Matches(s, env) then Visit(s, Uncounted, false)
    else if s.chan.Coalesce? then VisitCoalesce(s, env)
    else if Room(s.chan) then
      var e := Spend(s.entry.value, env);
      Visit(s.(entry := Some(e), chan := Accept(s.chan, env)), AsDelivered, e.remaining == Some(0))
    else if !s.chan.open then Visit(s, Uncounted, true)
    else if s.chan.policy == Disconnect then Visit(FireNotice(s), AsDisconnected, true)
    else Visit(s, AsDropped, false)
  }

  /** The asynchronous path claims a slot of this subscription. */
  predicate Claims(s: Slot, env: Envelope)
  {
    Matches(s, env) && s.chan.Mpsc? && s.entry.value.remaining != Some(0)
  }

  /** One round of the claim loop of `publish`. */
  function VisitClaim(s: Slot, env: Envelope): Visit
  {
    if !Matches(s, env) then Visit(s, Uncounted, false)
    else if s.chan.Coalesce? then VisitCoalesce(s, env)
    else if !Claims(s, env) then Visit(s, Uncounted, false)
    else
      var e := s.entry.value;
      Visit(s.(entry := Some(e.(inFlight := e.inFlight + 1,
                                remaining := if e.remaining.Some? then Some(e.remaining.value - 1) else None))),
            Uncounted, false)
  }

  datatype Outcome = Delivered | Dropped | SlowConsumer | Closed

  /** Progress of the send to the first claimed subscription that is still uncommitted. */
  datatype Head = Fresh | Waiting | Sent(outcome: Outcome)

  /** `try_send`, and what a full queue means under each policy. */
  function FirstTry(c: Channel): Head
    requires c.Mpsc?
  {
    if Room(c) then Sent(Delivered)
    else if !c.open then Sent(Closed)
    else match c.policy
      case Backpressure => Waiting
      case DropNewest => Sent(Dropped)
      case Disconnect => Sent(SlowConsumer)
  }

  /** The awaited `send` completes when there is room or the receiver is gone. */
  function Resume(c: Channel): Head
    requires c.Mpsc?
  {
    if Room(c) then Sent(Delivered) else if !c.open then Sent(Closed) else Waiting
  }

  function AfterSend(c: Channel, env: Envelope, h: Head): Channel
    requires c.Mpsc?
  {
    if h == Sent(Delivered) then Accept(c, env) else c
  }

  /** Give a claimed slot back: a dropped envelope, or a cancelled publish. */
  function Refund(s: Slot): Slot
  {
    if s.entry.None? then s
    else
      var e := s.entry.value;
      s.(entry := Some(e.(inFlight := if e.inFlight == 0 then 0 else e.inFlight - 1,
                          remaining := if e.remaining.Some? then Some(e.remaining.value + 1) else None)))
  }

  predicate Exhausted(e: Entry) { e.remaining == Some(0) && e.inFlight == 0 }

  function Settle(e: Entry, env: Envelope): Entry
  {
    e.(last := Some(MarkOf(env)), inFlight := if e.inFlight == 0 then 0 else e.inFlight - 1)
  }

  /** The commit of one outcome under the lock. */
  function Commit(s: Slot, env: Envelope, outcome: Outcome): Slot
  {
    match outcome
    case Delivered =>
      if s.entry.None? then s
      else
        var e := Settle(s.entry.value, env);
        if Exhausted(e) then Remove(s.(entry := Some(e))) else s.(entry := Some(e))
    case Dropped => Refund(s)
    case SlowConsumer => Remove(FireNotice(s))
    case Closed => Remove(s)
  }

  function CommitCounted(outcome: Outcome): Counted
  {
    match outcome
    case Delivered => AsDelivered
    case Dropped => AsDropped
    case SlowConsumer => AsDisconnected
    case Closed => Uncounted
  }

  // ---- The whole map ----

  predicate Unique(ids: seq<SubId>) { forall i, j :: 0 <= i < j < |ids| ==> ids[i] != ids[j] }

  /** An iteration order of the map: every live subscription once. */
  ghost predicate Lists(order: seq<SubId>, slots: map<SubId, Slot>)
  {
    Unique(order) && forall id :: id in order <==> id in slots && Live(slots[id])
  }

  /** The fan-out does not depend on the order in which the map is visited. */
  function FanOut(slots: map<SubId, Slot>, env: Envelope): map<SubId, Slot>
  {
    map id | id in slots :: After(VisitSync(slots[id], env))
  }

  function FanOutTally(order: seq<SubId>, slots: map<SubId, Slot>, env: Envelope): Tally
    requires forall id :: id in order ==> id in slots
  {
    if order == [] then NoTally()
    else
      var id := order[|order| - 1];
      Count(FanOutTally(order[..|order| - 1], slots, env), id, VisitSync(slots[id], env).counted)
  }

  function ClaimAll(slots: map<SubId, Slot>, env: Envelope): map<SubId, Slot>
  {
    map id | id in slots :: After(VisitClaim(slots[id], env))
  }

  function ClaimTally(order: seq<SubId>, slots: map<SubId, Slot>, env: Envelope): Tally
    requires forall id :: id in order ==> id in slots
  {
    if order == [] then NoTally()
    else
      var id := order[|order| - 1];
      Count(ClaimTally(order[..|order| - 1], slots, env), id, VisitClaim(slots[id], env).counted)
  }

  /** The claimed subscriptions, in visiting order. */
  function Claimed(order: seq<SubId>, slots: map<SubId, Slot>, env: Envelope): seq<SubId>
    requires forall id :: id in order ==> id in slots
  {
    if order == [] then []
    else
      var rest := Claimed(order[..|order| - 1], slots, env);
      var id := order[|order| - 1];
      if Claims(slots[id], env) then rest + [id] else rest
  }

  // ---- What the counts of a publish count ----

  /** The subscription is asked, its reader is there, and every place on its channel is taken. */
  ghost predicate FullFor(s: Slot, env: Envelope)
  {
    && Matches(s, env) && Open(s.chan)
    && |Content(s.chan)| >= (if s.chan.Mpsc? then s.chan.capacity else s.chan.pending.capacity)
  }

  ghost predicate KeyWaits(c: Channel, env: Envelope) { c.Coalesce? && Coalescing.KeyQueued(c.pending, env) }

  /** The envelope is a new item at the end of the channel. */
  ghost predicate Took(s: Slot, s': Slot, env: Envelope) { Content(s'.chan) == Content(s.chan) + [env] }

  /** The envelope took the place of the first one with its key. */
  ghost predicate Overwrote(s: Slot, s': Slot, env: Envelope)
  {
    && Matches(s, env) && Open(s.chan) && s.chan.Coalesce? && s'.entry == s.entry
    && exists i :: 0 <= i < |Content(s.chan)| && TookPlace(s, s', env, i)
  }

  ghost predicate TookPlace(s: Slot, s': Slot, env: Envelope, i: nat)
    requires s.chan.Coalesce? && i < |Content(s.chan)|
  {
    var items, path := Content(s.chan), s.chan.pending.keyPath;
    && Coalescing.SameKey(items[i], env, path) && Content(s'.chan) == items[i := env]
    && forall j :: 0 <= j < i ==> !Coalescing.SameKey(items[j], env, path)
  }

  /** There was no place for it, and nothing has changed. */
  ghost predicate Lost(s: Slot, s': Slot, env: Envelope)
  {
    FullFor(s, env) && !KeyWaits(s.chan, env) && !(s.chan.Mpsc? && s.chan.policy == Disconnect) && s' == s
  }

  /** There was no place for it, and the subscription is gone. */
  ghost predicate CutOff(s: Slot, s': Slot, env: Envelope)
  {
    FullFor(s, env) && s.chan.Mpsc? && s.chan.policy == Disconnect && s'.entry.None? && s'.chan == s.chan
  }

  /** Exactly one of these, or the subscription was not asked, or its reader is gone and the entry is removed. */
  ghost predicate OneFate(s: Slot, s': Slot, env: Envelope, counted: Counted)
  {
    && (counted == AsDelivered <==> Took(s, s', env))
    && (counted == AsCoalesced <==> Overwrote(s, s', env))
    && (counted == AsDropped <==> Lost(s, s', env))
    && (counted == AsDisconnected <==> CutOff(s, s', env))
    && (counted == Uncounted ==>
          if !Matches(s, env) then s' == s else !Open(s.chan) && s'.entry.None? && Content(s'.chan) == Content(s.chan))
  }

  lemma CoalesceFate(s: Slot, env: Envelope)
    requires Matches(s, env) && s.chan.Coalesce?
    ensures var v := VisitCoalesce(s, env); OneFate(s, After(v), env, v.counted)
  {
    var v := VisitCoalesce(s, env);
    Coalescing.PushMeans(s.chan.pending, env);
    if v.counted == AsCoalesced {
      var i :| 0 <= i < |s.chan.pending.items| && Coalescing.OverwritesFirst(s.chan.pending, env, i);
      assert TookPlace(s, After(v), env, i);
    }
    assert |Content(s.chan) + [env]| == |Content(s.chan)| + 1;
  }

  lemma SyncFate(s: Slot, env: Envelope)
    ensures var v := VisitSync(s, env); OneFate(s, After(v), env, v.counted)
  {
    if Matches(s, env) && s.chan.Coalesce? {
      CoalesceFate(s, env);
    } else {
      assert |Content(s.chan) + [env]| == |Content(s.chan)| + 1;
    }
  }

  /** The chosen ids, in the order of the list. */
  ghost function Keep(order: seq<SubId>, chosen: set<SubId>): seq<SubId>
  {
    if order == [] then []
    else
      var id := order[|order| - 1];
      Keep(order[..|order| - 1], chosen) + (if id in chosen then [id] else [])
  }

  ghost function TookAmong(ids: set<SubId>, before: map<SubId, Slot>, after: map<SubId, Slot>, env: Envelope)
      : set<SubId>
    requires before.Keys == after.Keys
  {
    set id | id in ids && id in before && Took(before[id], after[id], env)
  }

  ghost function LostAmong(ids: set<SubId>, before: map<SubId, Slot>, after: map<SubId, Slot>, env: Envelope)
      : set<SubId>
    requires before.Keys == after.Keys
  {
    set id | id in ids && id in before && Lost(before[id], after[id], env)
  }

  ghost function OverwroteAmong(ids: set<SubId>, before: map<SubId, Slot>, after: map<SubId, Slot>, env: Envelope)
      : set<SubId>
    requires before.Keys == after.Keys
  {
    set id | id in ids && id in before && Overwrote(before[id], after[id], env)
  }

  ghost function CutOffAmong(ids: set<SubId>, before: map<SubId, Slot>, after: map<SubId, Slot>, env: Envelope)
      : set<SubId>
    requires before.Keys == after.Keys
  {
    set id | id in ids && id in before && CutOff(before[id], after[id], env)
  }

  /** The result of a publish counts what happened to the subscriptions `ids`, from their slots before and after. */
  ghost predicate Reports(t: Tally, order: seq<SubId>, ids: set<SubId>, before: map<SubId, Slot>,
                          after: map<SubId, Slot>, env: Envelope)
    requires before.Keys == after.Keys
  {
    && t.delivered == |TookAmong(ids, before, after, env)|
    && t.dropped == |LostAmong(ids, before, after, env)|
    && t.coalesced == |OverwroteAmong(ids, before, after, env)|
    && t.disconnected == Keep(order, CutOffAmong(ids, before, after, env))
  }

  /** One more subscription joins the report. */
  lemma ReportGrows(t: Tally, order: seq<SubId>, ids: set<SubId>, id: SubId, counted: Counted,
                    before: map<SubId, Slot>, after: map<SubId, Slot>, env: Envelope)
    requires before.Keys == after.Keys && id in before && id !in order && forall x :: x in ids ==> x in order
    requires Reports(t, order, ids, before, after, env) && OneFate(before[id], after[id], env, counted)
    ensures Reports(Count(t, id, counted), order + [id], ids + {id}, before, after, env)
  {
    var more := ids + {id};
    assert (order + [id])[..|order|] == order;
    KeepSame(order, CutOffAmong(ids, before, after, env), CutOffAmong(more, before, after, env));
    TookGrows(ids, id, before, after, env);
    LostGrows(ids, id, before, after, env);
    OverwroteGrows(ids, id, before, after, env);
  }

  lemma TookGrows(ids: set<SubId>, id: SubId, before: map<SubId, Slot>, after: map<SubId, Slot>, env: Envelope)
    requires before.Keys == after.Keys && id in before && id !in ids
    ensures |TookAmong(ids + {id}, before, after, env)| ==
            |TookAmong(ids, before, after, env)| + (if Took(before[id], after[id], env) then 1 else 0)
  {
    Grows(TookAmong(ids, before, after, env), TookAmong(ids + {id}, before, after, env), id,
          Took(before[id], after[id], env));
  }

  lemma LostGrows(ids: set<SubId>, id: SubId, before: map<SubId, Slot>, after: map<SubId, Slot>, env: Envelope)
    requires before.Keys == after.Keys && id in before && id !in ids
    ensures |LostAmong(ids + {id}, before, after, env)| ==
            |LostAmong(ids, before, after, env)| + (if Lost(before[id], after[id], env) then 1 else 0)
  {
    Grows(LostAmong(ids, before, after, env), LostAmong(ids + {id}, before, after, env), id,
          Lost(before[id], after[id], env));
  }

  lemma OverwroteGrows(ids: set<SubId>, id: SubId, before: map<SubId, Slot>, after: map<SubId, Slot>, env: Envelope)
    requires before.Keys == after.Keys && id in before && id !in ids
    ensures |OverwroteAmong(ids + {id}, before, after, env)| ==
            |OverwroteAmong(ids, before, after, env)| + (if Overwrote(before[id], after[id], env) then 1 else 0)
  {
    Grows(OverwroteAmong(ids, before, after, env), OverwroteAmong(ids + {id}, before, after, env), id,
          Overwrote(before[id], after[id], env));
  }

  lemma Grows(a: set<SubId>, b: set<SubId>, id: SubId, there: bool)
    requires id !in a && b == if there then a + {id} else a
    ensures |b| == if there then |a| + 1 else |a|
  {
  }

  lemma {:induction false} KeepSame(order: seq<SubId>, a: set<SubId>, b: set<SubId>)
    requires forall id :: id in order ==> (id in a <==> id in b)
    ensures Keep(order, a) == Keep(order, b)
  {
    if order != [] {
      var init := order[..|order| - 1];
      assert order == init + [order[|order| - 1]];
      KeepSame(init, a, b);
    }
  }

  lemma {:induction false} FanOutReports(order: seq<SubId>, slots: map<SubId, Slot>, env: Envelope)
    requires Unique(order) && forall id :: id in order ==> id in slots
    ensures Reports(FanOutTally(order, slots, env), order, Members(order), slots, FanOut(slots, env), env)
  {
    if order != [] {
      var init, id := order[..|order| - 1], order[|order| - 1];
      assert order == init + [id] && id !in init && Members(order) == Members(init) + {id};
      FanOutReports(init, slots, env);
      SyncFate(slots[id], env);
      ReportGrows(FanOutTally(init, slots, env), init, Members(init), id, VisitSync(slots[id], env).counted,
                  slots, FanOut(slots, env), env);
    }
  }

  ghost function Members(order: seq<SubId>): set<SubId> { set id | id in order }

  /** The subscriptions that the first phase of `publish` finishes: those with a coalescing queue. */
  ghost function Coalescers(order: seq<SubId>, slots: map<SubId, Slot>): set<SubId>
  {
    set id | id in order && id in slots && slots[id].chan.Coalesce?
  }

  lemma {:induction false} ClaimReports(order: seq<SubId>, slots: map<SubId, Slot>, env: Envelope)
    requires Unique(order) && forall id :: id in order ==> id in slots
    ensures Reports(ClaimTally(order, slots, env), order, Coalescers(order, slots), slots, ClaimAll(slots, env), env)
  {
    if order != [] {
      var init, id := order[..|order| - 1], order[|order| - 1];
      var t, ids := ClaimTally(init, slots, env), Coalescers(init, slots);
      assert order == init + [id] && id !in init;
      ClaimReports(init, slots, env);
      if slots[id].chan.Coalesce? {
        assert Coalescers(order, slots) == ids + {id};
        if Matches(slots[id], env) { CoalesceFate(slots[id], env); } else { SyncFate(slots[id], env); }
        ReportGrows(t, init, ids, id, VisitClaim(slots[id], env).counted, slots, ClaimAll(slots, env), env);
      } else {
        assert Coalescers(order, slots) == ids;
        assert order[..|init|] == init;
      }
    }
  }

  lemma {:induction false} ClaimedIsFilter(order: seq<SubId>, slots: map<SubId, Slot>, env: Envelope)
    requires Unique(order) && forall id :: id in order ==> id in slots
    ensures Unique(Claimed(order, slots, env))
    ensures forall id :: id in Claimed(order, slots, env) <==> id in order && Claims(slots[id], env)
  {
    if order != [] {
      var init, id := order[..|order| - 1], order[|order| - 1];
      assert order == init + [id] && id !in init;
      ClaimedIsFilter(init, slots, env);
    }
  }

  /** The claims come in visiting order. */
  lemma {:induction false} ClaimedInOrder(order: seq<SubId>, slots: map<SubId, Slot>, env: Envelope,
                                          claims: set<SubId>)
    requires forall id :: id in order ==> id in slots && (id in claims <==> Claims(slots[id], env))
    ensures Claimed(order, slots, env) == Keep(order, claims)
  {
    if order != [] {
      assert order == order[..|order| - 1] + [order[|order| - 1]];
      ClaimedInOrder(order[..|order| - 1], slots, env, claims);
    }
  }

  // ---- Fan-out loops ----

  /** The map while a fan-out loop is under way, and the entries it will remove. */
  ghost function Visited(slots: map<SubId, Slot>, done: seq<SubId>, visit: Slot -> Visit): map<SubId, Slot>
  {
    map id | id in slots :: if id in done then visit(slots[id]).slot else slots[id]
  }

  ghost predicate Doomed(ids: seq<SubId>, slots: map<SubId, Slot>, done: seq<SubId>, visit: Slot -> Visit)
  {
    forall id :: id in ids <==> id in done && id in slots && visit(slots[id]).remove
  }

  ghost function WithoutThese(slots: map<SubId, Slot>, ids: seq<SubId>): map<SubId, Slot>
  {
    map id | id in slots :: if id in ids then Remove(slots[id]) else slots[id]
  }

  lemma VisitedNext(slots: map<SubId, Slot>, order: seq<SubId>, i: nat, visit: Slot -> Visit)
    requires Unique(order) && i < |order| && order[i] in slots
    ensures order[..i + 1] == order[..i] + [order[i]]
    ensures Visited(slots, order[..i], visit)[order[i]] == slots[order[i]]
    ensures Visited(slots, order[..i + 1], visit) ==
            Visited(slots, order[..i], visit)[order[i] := visit(slots[order[i]]).slot]
  {
    assert order[..i + 1] == order[..i] + [order[i]] && order[i] !in order[..i];
  }

  /** Removing at the end is the same as removing on the spot. */
  lemma RemovedAtTheEnd(slots: map<SubId, Slot>, order: seq<SubId>, doomed: seq<SubId>, visit: Slot -> Visit)
    requires Lists(order, slots) && Doomed(doomed, slots, order, visit)
    requires forall id :: id in slots && !Live(slots[id]) ==> visit(slots[id]) == Visit(slots[id], Uncounted, false)
    ensures WithoutThese(Visited(slots, order, visit), doomed) == map id | id in slots :: After(visit(slots[id]))
  {
  }

  ghost function SyncVisitor(env: Envelope): Slot -> Visit { (s: Slot) => VisitSync(s, env) }

  ghost function ClaimVisitor(env: Envelope): Slot -> Visit { (s: Slot) => VisitClaim(s, env) }

  lemma SyncRemovals(slots: map<SubId, Slot>, order: seq<SubId>, doomed: seq<SubId>, env: Envelope)
    requires Lists(order, slots) && Doomed(doomed, slots, order, SyncVisitor(env))
    ensures WithoutThese(Visited(slots, order, SyncVisitor(env)), doomed) == FanOut(slots, env)
  {
    RemovedAtTheEnd(slots, order, doomed, SyncVisitor(env));
  }

  lemma ClaimRemovals(slots: map<SubId, Slot>, order: seq<SubId>, doomed: seq<SubId>, env: Envelope)
    requires Lists(order, slots) && Doomed(doomed, slots, order, ClaimVisitor(env))
    ensures WithoutThese(Visited(slots, order, ClaimVisitor(env)), doomed) == ClaimAll(slots, env)
  {
    RemovedAtTheEnd(slots, order, doomed, ClaimVisitor(env));
  }

  class Bus {
    var slots: map<SubId, Slot>
    var nextId: SubId

    constructor ()
      ensures slots == map[] && nextId == 1
    {
      slots, nextId := map[], 1;
    }

    method Subscribe(wants: Envelope -> bool, limit: Option<nat>, chan: Channel) returns (id: SubId)
      modifies this
      ensures id == old(nextId) && nextId == old(nextId) + 1
      ensures slots == old(slots)[id := Slot(Some(Entry(wants, limit, 0, None, true)), chan, [])]
    {
      id := nextId;
      nextId := nextId + 1;
      slots := slots[id := Slot(Some(Entry(wants, limit, 0, None, true)), chan, [])];
    }

    method Unsubscribe(id: SubId) returns (found: bool)
      modifies this`slots
      ensures found <==> id in old(slots) && Live(old(slots)[id])
      ensures slots == if found then old(slots)[id := Remove(old(slots)[id])] else old(slots)
    {
      found := id in slots && slots[id].entry.Some?;
      if found {
        slots := slots[id := Remove(slots[id])];
      }
    }

    /** Second loop of a fan-out: entries are removed only after every subscription has been visited. */
    method RemoveAll(ids: seq<SubId>)
      requires forall id :: id in ids ==> id in slots
      modifies this`slots
      ensures slots == WithoutThese(old(slots), ids)
    {
      for i := 0 to |ids|
        invariant slots == WithoutThese(old(slots), ids[..i])
      {
        assert ids[..i + 1] == ids[..i] + [ids[i]];
        slots := slots[ids[i] := Remove(slots[ids[i]])];
      }
      assert ids[..|ids|] == ids;
    }

    method TryPublish(env: Envelope, order: seq<SubId>) returns (result: Tally)
      requires Lists(order, slots)
      modifies this`slots
      ensures slots == FanOut(old(slots), env)
      ensures result == FanOutTally(order, old(slots), env)
      ensures Reports(result, order, Members(order), old(slots), slots, env)
    {
      ghost var visit := SyncVisitor(env);
      result := NoTally();
      var toRemove: seq<SubId> := [];
      for i := 0 to |order|
        invariant slots == Visited(old(slots), order[..i], visit)
        invariant Doomed(toRemove, old(slots), order[..i], visit)
        invariant result == FanOutTally(order[..i], old(slots), env)
      {
        var id := order[i];
        VisitedNext(old(slots), order, i, visit);
        var v := VisitSync(slots[id], env);
        slots := slots[id := v.slot];
        if v.remove {
          toRemove := toRemove + [id];
        }
        result := Count(result, id, v.counted);
      }
      assert order[..|order|] == order;
      SyncRemovals(old(slots), order, toRemove, env);
      RemoveAll(toRemove);
      FanOutReports(order, old(slots), env);
    }

    /** The locked first phase of `publish`. */
    method Claim(env: Envelope, order: seq<SubId>) returns (todo: seq<SubId>, result: Tally)
      requires Lists(order, slots)
      modifies this`slots
      ensures slots == ClaimAll(old(slots), env)
      ensures todo == Claimed(order, old(slots), env)
      ensures result == ClaimTally(order, old(slots), env)
    {
      ghost var visit := ClaimVisitor(env);
      result, todo := NoTally(), [];
      var toRemove: seq<SubId> := [];
      for i := 0 to |order|
        invariant slots == Visited(old(slots), order[..i], visit)
        invariant Doomed(toRemove, old(slots), order[..i], visit)
        invariant todo == Claimed(order[..i], old(slots), env)
        invariant result == ClaimTally(order[..i], old(slots), env)
      {
        var id := order[i];
        VisitedNext(old(slots), order, i, visit);
        var v := VisitClaim(slots[id], env);
        if Claims(slots[id], env) {
          todo := todo + [id];
        }
        slots := slots[id := v.slot];
        if v.remove {
          toRemove := toRemove + [id];
        }
        result := Count(result, id, v.counted);
      }
      assert order[..|order|] == order;
      ClaimRemovals(old(slots), order, toRemove, env);
      RemoveAll(toRemove);
    }

    /** The unlocked send to one claimed subscription; a waiting send is polled with `waited`. */
    method Send(id: SubId, env: Envelope, waited: bool) returns (head: Head)
      requires id in slots && slots[id].chan.Mpsc?
      modifies this`slots
      ensures head == if waited then Resume(old(slots)[id].chan) else FirstTry(old(slots)[id].chan)
      ensures slots == old(slots)[id := old(slots)[id].(chan := AfterSend(old(slots)[id].chan, env, head))]
    {
      var s := slots[id];
      head := if waited then Resume(s.chan) else FirstTry(s.chan);
      slots := slots[id := s.(chan := AfterSend(s.chan, env, head))];
    }

    method CommitOne(id: SubId, env: Envelope, outcome: Outcome, tally: Tally) returns (result: Tally)
      requires id in slots
      modifies this`slots
      ensures slots == old(slots)[id := Commit(old(slots)[id], env, outcome)]
      ensures result == Count(tally, id, CommitCounted(outcome))
    {
      slots := slots[id := Commit(slots[id], env, outcome)];
      result := Count(tally, id, CommitCounted(outcome));
    }

    /** Drop of a guard that is still active. */
    method DropGuard(id: SubId)
      requires id in slots
      modifies this`slots
      ensures slots == old(slots)[id := Refund(old(slots)[id])]
    {
      slots := slots[id := Refund(slots[id])];
    }
  }
}
