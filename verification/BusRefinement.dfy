/**
 The asynchronous publish refines the synchronous one (`events/bus.rs`): run
 without interference it claims first, commits later, and still ends where one
 `try_publish` ends.
 */
module BusRefinement {
  import opened Wrappers
  import opened Envelopes
  import opened EventBus
  import opened BusRuns

  /** No outstanding claim, no exhausted quota and no full Backpressure queue among the matching subscriptions. */
  ghost predicate Quiet(w: World, env: Envelope)
  {
    forall id :: id in w.cells && Matches(w.cells[id].slot, env) && w.cells[id].slot.chan.Mpsc? ==>
      QuietCell(w.cells[id])
  }

  ghost predicate QuietCell(c: Cell)
    requires Live(c.slot) && c.slot.chan.Mpsc?
  {
    c.slot.entry.value.inFlight == 0 && c.slot.entry.value.remaining != Some(0) && !FirstTry(c.slot.chan).Waiting?
  }

  lemma UnclaimedCellAgrees(c: Cell, env: Envelope)
    requires Matches(c.slot, env) && c.slot.chan.Mpsc? ==> QuietCell(c)
    requires !Claims(c.slot, env)
    ensures ClaimCell(c, env) == SyncCell(c, env)
    ensures VisitClaim(c.slot, env).counted == VisitSync(c.slot, env).counted != AsDisconnected
  {
  }

  lemma ClaimedCellAgrees(c: Cell, env: Envelope)
    requires Claims(c.slot, env) && QuietCell(c)
    ensures ClaimCell(c, env).slot.chan == c.slot.chan
    ensures VisitClaim(c.slot, env).counted == Uncounted
    ensures Finishes(ClaimCell(c, env), env, SyncCell(c, env), VisitSync(c.slot, env).counted)
  {
  }

  /** The send-and-commit rounds that finish a publish with `n` claims. */
  function Rounds(p: PubId, n: nat): seq<Action>
  {
    if n == 0 then [] else [Send(p), BusRuns.Commit(p)] + Rounds(p, n - 1)
  }

  /** Sending and committing without waiting turns cell `c` into `c'` and counts as `n`. */
  ghost predicate Finishes(c: Cell, env: Envelope, c': Cell, n: Counted)
  {
    && c.slot.chan.Mpsc?
    && var head := FirstTry(c.slot.chan);
    head.Sent? && c' == CommitCell(SendCell(c, env, head), env, head.outcome) && n == CommitCounted(head.outcome)
  }

  /** Half way: the first `k` claims of `p` are finished, the others are as the claim left them. */
  ghost predicate Midway(w: World, from: map<SubId, Cell>, to: map<SubId, Cell>, p: PubId, env: Envelope,
                         todo: seq<SubId>,
                         k: nat, tally: Tally, pubs: map<PubId, Publisher>)
    requires k <= |todo| && from.Keys == to.Keys
  {
    && w.pubs == pubs[p := Sending(env, todo[k..], Fresh, tally)]
    && w.cells == map id | id in from :: if id in todo[k..] then from[id] else to[id]
  }

  lemma OneRound(w: World, from: map<SubId, Cell>, to: map<SubId, Cell>, p: PubId, env: Envelope, todo: seq<SubId>,
                 k: nat, tally: Tally, n: Counted, pubs: map<PubId, Publisher>)
    requires k < |todo| && Unique(todo) && todo[k] in from && from.Keys == to.Keys
    requires Finishes(from[todo[k]], env, to[todo[k]], n)
    requires Midway(w, from, to, p, env, todo, k, tally, pubs)
    ensures var w' := Next(Next(w, Send(p)), BusRuns.Commit(p));
            Midway(w', from, to, p, env, todo, k + 1, Count(tally, todo[k], n), pubs)
  {
    var id := todo[k];
    assert todo[k..] == [id] + todo[k + 1..] && id !in todo[k + 1..];
    var w' := RoundEffect(w, p, to[id], n);
    assert todo[k..][1..] == todo[k + 1..];
    assert w'.cells == w.cells[id := to[id]];
  }

  /** One undisturbed round of send and commit, in any world. */
  lemma RoundEffect(w: World, p: PubId, c': Cell, n: Counted) returns (w': World)
    requires p in w.pubs && w.pubs[p].Sending? && w.pubs[p].head == Fresh && w.pubs[p].todo != []
    requires w.pubs[p].todo[0] in w.cells && Finishes(w.cells[w.pubs[p].todo[0]], w.pubs[p].env, c', n)
    ensures w' == Next(Next(w, Send(p)), BusRuns.Commit(p))
    ensures var q, id := w.pubs[p], w.pubs[p].todo[0];
            && w'.cells == w.cells[id := c']
            && w'.pubs == w.pubs[p := Sending(q.env, q.todo[1..], Fresh, Count(q.tally, id, n))]
  {
    var w1 := Next(w, Send(p));
    assert Enabled(w1, BusRuns.Commit(p));
    w' := Next(w1, BusRuns.Commit(p));
    assert w1.cells[w.pubs[p].todo[0] := c'] == w.cells[w.pubs[p].todo[0] := c'];
  }

  lemma RunTwo(w: World, a: Action, b: Action, rest: seq<Action>)
    ensures Run(w, [a, b] + rest) == Run(Next(Next(w, a), b), rest)
  {
    var acts := [a, b] + rest;
    assert acts[1..][1..] == rest && acts[1..][0] == b;
  }

  function CountAll(t: Tally, ids: seq<SubId>, notes: map<SubId, Counted>): Tally
    requires forall id :: id in ids ==> id in notes
    decreases |ids|
  {
    if ids == [] then t else CountAll(Count(t, ids[0], notes[ids[0]]), ids[1..], notes)
  }

  ghost predicate AllFinish(from: map<SubId, Cell>, to: map<SubId, Cell>, env: Envelope, todo: seq<SubId>,
                            notes: map<SubId, Counted>)
  {
    && from.Keys == to.Keys == notes.Keys
    && forall id :: id in todo ==> id in from && Finishes(from[id], env, to[id], notes[id])
  }

  lemma RoundOf(w: World, from: map<SubId, Cell>, to: map<SubId, Cell>, p: PubId, env: Envelope, todo: seq<SubId>,
                k: nat, tally: Tally, n: Counted, pubs: map<PubId, Publisher>) returns (w': World)
    requires k < |todo| && Unique(todo) && todo[k] in from && from.Keys == to.Keys
    requires Finishes(from[todo[k]], env, to[todo[k]], n)
    requires Midway(w, from, to, p, env, todo, k, tally, pubs)
    ensures Run(w, Rounds(p, |todo| - k)) == Run(w', Rounds(p, |todo| - (k + 1)))
    ensures Midway(w', from, to, p, env, todo, k + 1, Count(tally, todo[k], n), pubs)
  {
    OneRound(w, from, to, p, env, todo, k, tally, n, pubs);
    RunTwo(w, Send(p), BusRuns.Commit(p), Rounds(p, |todo| - (k + 1)));
    w' := Next(Next(w, Send(p)), BusRuns.Commit(p));
  }

  lemma CountNext(t: Tally, ids: seq<SubId>, k: nat, notes: map<SubId, Counted>)
    requires k < |ids| && forall id :: id in ids ==> id in notes
    ensures CountAll(t, ids[k..], notes) == CountAll(Count(t, ids[k], notes[ids[k]]), ids[k + 1..], notes)
  {
    assert ids[k..][0] == ids[k] && ids[k..][1..] == ids[k + 1..];
  }

  lemma {:induction false} AllRounds(w: World, from: map<SubId, Cell>, to: map<SubId, Cell>, p: PubId, env: Envelope,
                                     todo: seq<SubId>, k: nat, tally: Tally, notes: map<SubId, Counted>,
                                     pubs: map<PubId, Publisher>) returns (w': World, total: Tally)
    requires k <= |todo| && Unique(todo) && AllFinish(from, to, env, todo, notes)
    requires Midway(w, from, to, p, env, todo, k, tally, pubs)
    ensures w' == Run(w, Rounds(p, |todo| - k)) && total == CountAll(tally, todo[k..], notes)
    ensures Midway(w', from, to, p, env, todo, |todo|, total, pubs)
    decreases |todo| - k
  {
    if k < |todo| {
      assert todo[k] in todo;
      var n := notes[todo[k]];
      var w1 := RoundOf(w, from, to, p, env, todo, k, tally, n, pubs);
      w', total := AllRounds(w1, from, to, p, env, todo, k + 1, Count(tally, todo[k], n), notes, pubs);
      CountNext(tally, todo, k, notes);
    } else {
      NothingLeft(w, p, tally, todo, notes);
      w', total := w, tally;
    }
  }

  lemma NothingLeft(w: World, p: PubId, tally: Tally, todo: seq<SubId>, notes: map<SubId, Counted>)
    ensures CountAll(tally, todo[|todo|..], notes) == tally && Run(w, Rounds(p, 0)) == w
  {
  }

  lemma {:induction false} CountLast(t: Tally, ids: seq<SubId>, id: SubId, notes: map<SubId, Counted>)
    requires id in notes && forall i :: i in ids ==> i in notes
    ensures CountAll(t, ids + [id], notes) == Count(CountAll(t, ids, notes), id, notes[id])
    decreases |ids|
  {
    if ids != [] {
      CountLast(Count(t, ids[0], notes[ids[0]]), ids[1..], id, notes);
      assert (ids + [id])[1..] == ids[1..] + [id];
    }
  }

  /** Counting anything but a disconnect can be done early. */
  lemma {:induction false} CountEarly(t: Tally, ids: seq<SubId>, id: SubId, n: Counted, notes: map<SubId, Counted>)
    requires n != AsDisconnected && forall i :: i in ids ==> i in notes
    ensures CountAll(Count(t, id, n), ids, notes) == Count(CountAll(t, ids, notes), id, n)
    decreases |ids|
  {
    if ids != [] {
      CountEarly(Count(t, ids[0], notes[ids[0]]), ids[1..], id, n, notes);
      assert Count(Count(t, id, n), ids[0], notes[ids[0]]) == Count(Count(t, ids[0], notes[ids[0]]), id, n);
    }
  }

  ghost function SyncNotes(w: World, env: Envelope): map<SubId, Counted>
  {
    map id | id in w.cells :: VisitSync(w.cells[id].slot, env).counted
  }

  /** Counting at the claim and then at the commits gives the counts of the synchronous loop, in the same order. */
  lemma {:induction false} TalliesAgree(order: seq<SubId>, w: World, slots: map<SubId, Slot>, env: Envelope)
    requires Quiet(w, env) && slots == Slots(w) && forall id :: id in order ==> id in w.cells
    ensures forall id :: id in Claimed(order, slots, env) ==> id in w.cells
    ensures CountAll(ClaimTally(order, slots, env), Claimed(order, slots, env), SyncNotes(w, env)) ==
            FanOutTally(order, slots, env)
  {
    if order != [] {
      var init, id := order[..|order| - 1], order[|order| - 1];
      TalliesAgree(init, w, slots, env);
      var notes := SyncNotes(w, env);
      if Claims(slots[id], env) {
        ClaimedCellAgrees(w.cells[id], env);
        CountLast(ClaimTally(init, slots, env), Claimed(init, slots, env), id, notes);
      } else {
        UnclaimedCellAgrees(w.cells[id], env);
        CountEarly(ClaimTally(init, slots, env), Claimed(init, slots, env), id, notes[id], notes);
      }
    }
  }

  ghost function ClaimedCells(w: World, env: Envelope): map<SubId, Cell>
  {
    map id | id in w.cells :: ClaimCell(w.cells[id], env)
  }

  ghost function SyncedCells(w: World, env: Envelope): map<SubId, Cell>
  {
    map id | id in w.cells :: SyncCell(w.cells[id], env)
  }

  lemma ClaimLeavesTheRest(w: World, env: Envelope, order: seq<SubId>, todo: seq<SubId>)
    requires Quiet(w, env) && Lists(order, Slots(w)) && todo == Claimed(order, Slots(w), env)
    ensures Unique(todo) && AllFinish(ClaimedCells(w, env), SyncedCells(w, env), env, todo, SyncNotes(w, env))
    ensures forall id :: id in w.cells && id !in todo ==> ClaimedCells(w, env)[id] == SyncedCells(w, env)[id]
  {
    ClaimedIsFilter(order, Slots(w), env);
    forall id | id in w.cells
      ensures if id in todo then Finishes(ClaimedCells(w, env)[id], env, SyncedCells(w, env)[id], SyncNotes(w, env)[id])
              else ClaimedCells(w, env)[id] == SyncedCells(w, env)[id]
    {
      if id in todo { ClaimedCellAgrees(w.cells[id], env); } else { UnclaimedCellAgrees(w.cells[id], env); }
    }
  }

  lemma StartsMidway(w: World, p: PubId, env: Envelope, order: seq<SubId>, todo: seq<SubId>)
    requires p !in w.pubs && Lists(order, Slots(w)) && todo == Claimed(order, Slots(w), env)
    requires forall id :: id in w.cells && id !in todo ==> ClaimedCells(w, env)[id] == SyncedCells(w, env)[id]
    ensures Midway(Next(w, Claim(p, env, order)), ClaimedCells(w, env), SyncedCells(w, env), p, env, todo, 0,
                   ClaimTally(order, Slots(w), env), w.pubs)
  {
    assert todo[0..] == todo;
    var w1 := Next(w, Claim(p, env, order));
    assert w1.cells == ClaimedCells(w, env);
  }

  lemma EndsSynced(w: World, from: map<SubId, Cell>, to: map<SubId, Cell>, p: PubId, env: Envelope,
                   todo: seq<SubId>, tally: Tally, notes: map<SubId, Counted>, pubs: map<PubId, Publisher>)
    requires Unique(todo) && AllFinish(from, to, env, todo, notes) && Midway(w, from, to, p, env, todo, 0, tally, pubs)
    ensures var w' := Run(w, Rounds(p, |todo|));
            w'.cells == to && w'.pubs == pubs[p := Sending(env, [], Fresh, CountAll(tally, todo, notes))]
  {
    var w', total := AllRounds(w, from, to, p, env, todo, 0, tally, notes, pubs);
    assert todo[0..] == todo;
    AllTheWay(w', from, to, p, env, todo, total, pubs);
  }

  lemma AllTheWay(w: World, from: map<SubId, Cell>, to: map<SubId, Cell>, p: PubId, env: Envelope, todo: seq<SubId>,
                  tally: Tally, pubs: map<PubId, Publisher>)
    requires from.Keys == to.Keys && Midway(w, from, to, p, env, todo, |todo|, tally, pubs)
    ensures w.cells == to && w.pubs == pubs[p := Sending(env, [], Fresh, tally)]
  {
    assert todo[|todo|..] == [];
  }

  lemma Prepare(w: World, p: PubId, env: Envelope, order: seq<SubId>, todo: seq<SubId>)
      returns (w1: World, from: map<SubId, Cell>, to: map<SubId, Cell>, notes: map<SubId, Counted>)
    requires Quiet(w, env) && p !in w.pubs && Lists(order, Slots(w)) && todo == Claimed(order, Slots(w), env)
    ensures w1 == Next(w, Claim(p, env, order)) && to == SyncedCells(w, env) && notes == SyncNotes(w, env)
    ensures Unique(todo) && AllFinish(from, to, env, todo, notes)
    ensures Midway(w1, from, to, p, env, todo, 0, ClaimTally(order, Slots(w), env), w.pubs)
  {
    ClaimLeavesTheRest(w, env, order, todo);
    StartsMidway(w, p, env, order, todo);
    w1, from, to, notes := Next(w, Claim(p, env, order)), ClaimedCells(w, env), SyncedCells(w, env), SyncNotes(w, env);
  }

  /**
   An undisturbed asynchronous publish ends with the same subscriptions, queues,
   notices and histories as one synchronous publish, and with its result.
   */
  lemma AsyncAloneIsSync(w: World, p: PubId, env: Envelope, order: seq<SubId>)
    requires Quiet(w, env) && p !in w.pubs && Lists(order, Slots(w))
    ensures var todo := Claimed(order, Slots(w), env);
            var w' := Run(Next(w, Claim(p, env, order)), Rounds(p, |todo|));
            && w'.cells == Next(w, TryPublish(env)).cells
            && w'.pubs == w.pubs[p := Sending(env, [], Fresh, FanOutTally(order, Slots(w), env))]
  {
    var todo := Claimed(order, Slots(w), env);
    var w1, from, to, notes := Prepare(w, p, env, order, todo);
    EndsSynced(w1, from, to, p, env, todo, ClaimTally(order, Slots(w), env), notes, w.pubs);
    TalliesAgree(order, w, Slots(w), env);
  }

  // ---- The object takes these steps ----

  /** The slots after a step, as the method of the bus that takes it leaves them. */
  ghost function BusEffect(w: World, a: Action): map<SubId, Slot>
    requires Enabled(w, a)
  {
    var slots := Slots(w);
    match a
    case Subscribe(wants, limit, chan) => slots[w.nextId := Slot(Some(Entry(wants, limit, 0, None, true)), chan, [])]
    case Unsubscribe(id) => slots[id := Remove(slots[id])]
    case TryPublish(env) => FanOut(slots, env)
    case Claim(_, env, _) => ClaimAll(slots, env)
    case Send(p) =>
      var q, id := w.pubs[p], w.pubs[p].todo[0];
      var head := if q.head.Waiting? then Resume(slots[id].chan) else FirstTry(slots[id].chan);
      slots[id := slots[id].(chan := AfterSend(slots[id].chan, q.env, head))]
    case Commit(p) =>
      var q, id := w.pubs[p], w.pubs[p].todo[0];
      slots[id := EventBus.Commit(slots[id], q.env, q.head.outcome)]
    case Cancel(_) => slots
    case DropGuard(p) => slots[w.pubs[p].todo[0] := Refund(slots[w.pubs[p].todo[0]])]
    case Pop(id) => slots[id := PopCell(w.cells[id]).slot]
    case DropReceiver(id) => slots[id := DropReceiverCell(w.cells[id]).slot]
  }

  /** Every step changes the map exactly as the bus method it stands for. */
  lemma StepsAreBusMethods(w: World, a: Action)
    requires Enabled(w, a)
    ensures Slots(Step(w, a)) == BusEffect(w, a)
  {
    forall id | id in BusEffect(w, a)
      ensures id in Step(w, a).cells && Step(w, a).cells[id].slot == BusEffect(w, a)[id]
    {
    }
  }

  /** The object holds the map and the counter of the world. */
  ghost predicate Shows(bus: Bus, w: World)
    reads bus
  {
    bus.slots == Slots(w) && bus.nextId == w.nextId
  }

  /** A step that a bus method takes; the others are the reader's own, and the cancellation of a future. */
  predicate Locked(a: Action) { !a.Pop? && !a.DropReceiver? && !a.Cancel? }

  predicate OfPublisher(a: Action) { a.Send? || a.Commit? || a.DropGuard? }

  /**
   Any locked step of any run, taken by the object: from the map and the publisher's
   own state it reaches the map of the next world, and for a publisher's step
   the publisher's next state.
   */
  method Take(bus: Bus, a: Action, q: Publisher, order: seq<SubId>, ghost w: World) returns (q': Publisher)
    requires Locked(a) && Enabled(w, a) && Shows(bus, w)
    requires a.TryPublish? ==> Lists(order, bus.slots)
    requires OfPublisher(a) ==> w.pubs[a.p] == q
    modifies bus
    ensures Shows(bus, Step(w, a))
    ensures a.Claim? || OfPublisher(a) ==> Step(w, a).pubs == w.pubs[a.p := q']
    ensures !a.Claim? && !OfPublisher(a) ==> Step(w, a).pubs == w.pubs && q' == q
  {
    StepsAreBusMethods(w, a);
    q' := q;
    match a
    case Subscribe(wants, limit, chan) => var _ := bus.Subscribe(wants, limit, chan);
    case Unsubscribe(id) => var _ := bus.Unsubscribe(id);
    case TryPublish(env) => var _ := bus.TryPublish(env, order);
    case Claim(_, env, visits) =>
      var todo, tally := bus.Claim(env, visits);
      q' := Sending(env, todo, Fresh, tally);
    case Send(_) =>
      var head := bus.Send(q.todo[0], q.env, q.head.Waiting?);
      q' := q.(head := head);
    case Commit(_) =>
      var tally := bus.CommitOne(q.todo[0], q.env, q.head.outcome, q.tally);
      q' := Sending(q.env, q.todo[1..], Fresh, tally);
    case DropGuard(_) =>
      bus.DropGuard(q.todo[0]);
      q' := Cancelled(q.env, q.todo[1..]);
  }

  /** Where an undisturbed publish stands after `k` rounds. */
  ghost predicate Underway(w: World, slots: map<SubId, Slot>, from: map<SubId, Cell>, to: map<SubId, Cell>,
                           env: Envelope, todo: seq<SubId>, k: nat, tally: Tally)
    requires k <= |todo| && from.Keys == to.Keys
  {
    Slots(w) == slots && Midway(w, from, to, 0, env, todo, k, tally, map[])
  }

  lemma RoundOnSlots(w: World, from: map<SubId, Cell>, to: map<SubId, Cell>, env: Envelope, todo: seq<SubId>, k: nat,
                     tally: Tally, n: Counted) returns (w': World)
    requires k < |todo| && Unique(todo) && todo[k] in from && from.Keys == to.Keys
    requires Finishes(from[todo[k]], env, to[todo[k]], n) && Midway(w, from, to, 0, env, todo, k, tally, map[])
    ensures todo[k] in w.cells && w.cells[todo[k]].slot.chan.Mpsc?
    ensures var s := w.cells[todo[k]].slot; var head := FirstTry(s.chan);
            && head.Sent? && n == CommitCounted(head.outcome)
            && Slots(w') ==
               Slots(w)[todo[k] := EventBus.Commit(s.(chan := AfterSend(s.chan, env, head)), env, head.outcome)]
    ensures Midway(w', from, to, 0, env, todo, k + 1, Count(tally, todo[k], n), map[])
  {
    assert todo[k..][0] == todo[k] && w.pubs[0].todo[0] == todo[k];
    OneRound(w, from, to, 0, env, todo, k, tally, n, map[]);
    w' := RoundEffect(w, 0, to[todo[k]], n);
    assert Slots(w') == Slots(w)[todo[k] := to[todo[k]].slot];
  }

  ghost function WorldOf(slots: map<SubId, Slot>): World
  {
    World(0, map id | id in slots :: Cell(slots[id], Hist((e: Envelope) => false, None, [], [], [], 0)), map[])
  }

  lemma SlotsOfWorldOf(slots: map<SubId, Slot>)
    ensures Slots(WorldOf(slots)) == slots
  {
  }

  ghost predicate SlotsOf(cells: map<SubId, Cell>, slots: map<SubId, Slot>)
  {
    cells.Keys == slots.Keys && forall id :: id in cells ==> cells[id].slot == slots[id]
  }

  /** The claim puts an undisturbed publish under way, towards the fan-out. */
  lemma Opening(slots: map<SubId, Slot>, env: Envelope, order: seq<SubId>, todo: seq<SubId>)
      returns (w: World, from: map<SubId, Cell>, to: map<SubId, Cell>, notes: map<SubId, Counted>)
    requires Lists(order, slots) && Quiet(WorldOf(slots), env) && todo == Claimed(order, slots, env)
    ensures Unique(todo) && AllFinish(from, to, env, todo, notes) && SlotsOf(to, FanOut(slots, env))
    ensures Underway(w, ClaimAll(slots, env), from, to, env, todo, 0, ClaimTally(order, slots, env))
    ensures CountAll(ClaimTally(order, slots, env), todo, notes) == FanOutTally(order, slots, env)
  {
    var w0 := WorldOf(slots);
    SlotsOfWorldOf(slots);
    w, from, to, notes := Prepare(w0, 0, env, order, todo);
    StepsAreBusMethods(w0, Claim(0, env, order));
    TalliesAgree(order, w0, slots, env);
    SyncedSlots(slots, env);
  }

  lemma SyncedSlots(slots: map<SubId, Slot>, env: Envelope)
    ensures SlotsOf(SyncedCells(WorldOf(slots), env), FanOut(slots, env))
  {
  }

  /** One turn of the send loop of `publish`, when the send need not wait. */
  method SendAndCommit(bus: Bus, id: SubId, env: Envelope, tally: Tally) returns (result: Tally)
    requires id in bus.slots && bus.slots[id].chan.Mpsc? && FirstTry(bus.slots[id].chan).Sent?
    modifies bus
    ensures var s := old(bus.slots)[id]; var head := FirstTry(s.chan);
            && bus.slots ==
               old(bus.slots)[id := EventBus.Commit(s.(chan := AfterSend(s.chan, env, head)), env, head.outcome)]
            && result == Count(tally, id, CommitCounted(head.outcome))
  {
    var head := bus.Send(id, env, false);
    result := bus.CommitOne(id, env, head.outcome, tally);
  }

  /**
   `publish` run undisturbed, on a bus where it need not wait, no claim is
   outstanding and no quota is exhausted: it claims, then sends and commits each
   claim in turn, and leaves the map and returns the counts of `try_publish`.
   */
  method SendToClaimed(bus: Bus, env: Envelope, order: seq<SubId>) returns (result: Tally)
    requires Lists(order, bus.slots) && Quiet(WorldOf(bus.slots), env)
    modifies bus
    ensures bus.slots == FanOut(old(bus.slots), env)
    ensures result == FanOutTally(order, old(bus.slots), env)
  {
    ghost var end, counts := FanOut(bus.slots, env), FanOutTally(order, bus.slots, env);
    ghost var w, from, to, notes := Opening(bus.slots, env, order, Claimed(order, bus.slots, env));
    var todo;
    todo, result := bus.Claim(env, order);
    assert todo[0..] == todo;
    for k := 0 to |todo|
      invariant Unique(todo) && AllFinish(from, to, env, todo, notes)
      invariant Underway(w, bus.slots, from, to, env, todo, k, result)
      invariant CountAll(result, todo[k..], notes) == counts
    {
      assert todo[k] in todo;
      CountNext(result, todo, k, notes);
      w := RoundOnSlots(w, from, to, env, todo, k, result, notes[todo[k]]);
      result := SendAndCommit(bus, todo[k], env, result);
    }
    assert todo[|todo|..] == [];
  }

  /** The result counts, for every subscription, what became of the envelope there. */
  method Publish(bus: Bus, env: Envelope, order: seq<SubId>) returns (result: Tally)
    requires Lists(order, bus.slots) && Quiet(WorldOf(bus.slots), env)
    modifies bus
    ensures bus.slots == FanOut(old(bus.slots), env)
    ensures result == FanOutTally(order, old(bus.slots), env)
    ensures Reports(result, order, Members(order), old(bus.slots), bus.slots, env)
  {
    FanOutReports(order, bus.slots, env);
    result := SendToClaimed(bus, env, order);
  }

  // ---- Cancelling gives everything back ----

  /** The map after a claim of which the first `k` guards have been dropped again. */
  ghost function GivenBack(slots: map<SubId, Slot>, env: Envelope, todo: seq<SubId>, k: nat): map<SubId, Slot>
    requires k <= |todo|
  {
    map id | id in slots :: if id in todo[..k] then slots[id] else After(VisitClaim(slots[id], env))
  }

  /** A publish cancelled while its first send waits drops every guard, and no channel subscription notices. */
  method ClaimAndCancel(bus: Bus, env: Envelope, order: seq<SubId>)
    requires Lists(order, bus.slots)
    modifies bus
    ensures bus.slots.Keys == old(bus.slots).Keys
    ensures forall id :: id in bus.slots && old(bus.slots)[id].chan.Mpsc? ==> bus.slots[id] == old(bus.slots)[id]
  {
    ghost var before := bus.slots;
    ClaimedIsFilter(order, before, env);
    var todo, _ := bus.Claim(env, order);
    assert bus.slots == GivenBack(before, env, todo, 0);
    for k := 0 to |todo|
      invariant bus.slots == GivenBack(before, env, todo, k)
    {
      assert todo[k] in todo;
      bus.DropGuard(todo[k]);
    }
    assert todo[..|todo|] == todo;
  }
}
