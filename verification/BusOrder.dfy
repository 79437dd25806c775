/**
 What a subscriber sees, and in which order, over whole runs of the bus
 (`events/bus.rs`).
 */
module BusOrder {
  import opened Wrappers
  import opened Envelopes
  import opened EventBus
  import opened BusRuns
  import Coalescing

  /** A channel is a FIFO within its capacity; the one-shot notice fires at most once, and the entry leaves with it. */
  ghost predicate ChannelInv(c: Cell)
  {
    && |c.slot.notices| <= 1
    && (c.slot.entry.Some? ==>
          && c.slot.entry.value.wants == c.hist.wants
          && c.slot.entry.value.notify && c.slot.notices == [])
    && (c.slot.chan.Mpsc? ==>
          && c.hist.popped + c.slot.chan.queue == c.hist.sent
          && |c.slot.chan.queue| <= c.slot.chan.capacity
          && 1 <= c.slot.chan.capacity)
    && (c.slot.chan.Coalesce? ==>
          (c.slot.chan.pending.closed <==> c.slot.entry.None? || c.slot.chan.pending.receiverDropped))
  }

  lemma SyncKeepsChannel(c: Cell, env: Envelope)
    requires ChannelInv(c)
    ensures ChannelInv(SyncCell(c, env))
  {
  }

  lemma ClaimKeepsChannel(c: Cell, env: Envelope)
    requires ChannelInv(c)
    ensures ChannelInv(ClaimCell(c, env))
  {
  }

  lemma ReaderKeepsChannel(c: Cell)
    requires ChannelInv(c)
    ensures ChannelInv(PopCell(c)) && ChannelInv(DropReceiverCell(c)) && ChannelInv(c.(slot := Remove(c.slot)))
  {
  }

  lemma SendKeepsChannel(c: Cell, env: Envelope, head: Head)
    requires ChannelInv(c) && c.slot.chan.Mpsc? && (head == Sent(Delivered) ==> Room(c.slot.chan))
    ensures ChannelInv(SendCell(c, env, head))
  {
  }

  lemma CommitKeepsChannel(c: Cell, env: Envelope, outcome: Outcome)
    requires ChannelInv(c)
    ensures ChannelInv(CommitCell(c, env, outcome)) && ChannelInv(c.(slot := Refund(c.slot)))
  {
  }

  ghost predicate AllChannels(w: World)
  {
    forall id :: id in w.cells ==> id < w.nextId && ChannelInv(w.cells[id])
  }

  lemma ChannelStep(w: World, a: Action, id: SubId)
    requires Enabled(w, a) && AllChannels(w) && id in Step(w, a).cells
    ensures id < Step(w, a).nextId && ChannelInv(Step(w, a).cells[id])
  {
    if id in w.cells {
      var c := w.cells[id];
      match a
      case TryPublish(env) => SyncKeepsChannel(c, env);
      case Claim(_, env, _) => ClaimKeepsChannel(c, env);
      case Send(p) => if id == w.pubs[p].todo[0] { SendKeepsChannel(c, w.pubs[p].env, Step(w, a).pubs[p].head); }
      case Commit(p) => CommitKeepsChannel(c, w.pubs[p].env, w.pubs[p].head.outcome);
      case DropGuard(p) => CommitKeepsChannel(c, w.pubs[p].env, Dropped);
      case _ => ReaderKeepsChannel(c);
    }
  }

  /** In every run, mixed or not: FIFO order, bounded queues, at most one notice per subscription. */
  lemma {:induction false} ChannelsAreFifo(w: World, acts: seq<Action>)
    requires AllChannels(w)
    ensures AllChannels(Run(w, acts))
    decreases |acts|
  {
    if acts != [] {
      var a := acts[0];
      if Enabled(w, a) {
        forall id | id in Step(w, a).cells ensures id < Step(w, a).nextId && ChannelInv(Step(w, a).cells[id]) {
          ChannelStep(w, a, id);
        }
      }
      ChannelsAreFifo(Next(w, a), acts[1..]);
    }
  }

  // ---- Ends of a subscription ----

  /**
   In every run a coalescing reader whose subscription is gone gets everything
   that is queued, in order, and then the end; before that it gets no end.
   */
  lemma RemovedReaderDrains(acts: seq<Action>, id: SubId)
    requires id in Run(Start(), acts).cells && Run(Start(), acts).cells[id].slot.chan.Coalesce?
    ensures var s := Run(Start(), acts).cells[id].slot; var q := s.chan.pending;
            && (s.entry.None? ==>
                  Coalescing.Drain(q, |q.items| + 1) ==
                  seq(|q.items|, i requires 0 <= i < |q.items| => Coalescing.Next(q.items[i]))
                  + [Coalescing.Disconnected])
            && (s.entry.Some? && !q.receiverDropped ==> Coalescing.Receive(q) != Coalescing.Disconnected)
  {
    ChannelsAreFifo(Start(), acts);
    var q := Run(Start(), acts).cells[id].slot.chan.pending;
    if q.closed {
      Coalescing.ClosingLosesNothing(q);
      assert Coalescing.Close(q) == q;
    }
  }

  /** The reader's end is dropped. */
  ghost predicate Deaf(w: World, id: SubId) { id in w.cells && !Open(w.cells[id].slot.chan) }

  lemma DeafStep(w: World, a: Action, id: SubId)
    requires AllChannels(w) && Deaf(w, id) && Enabled(w, a)
    ensures Deaf(Step(w, a), id) && Step(w, a).cells[id].hist.sent == w.cells[id].hist.sent
  {
    match a
    case TryPublish(env) => DeafVisit(w.cells[id], env);
    case Claim(_, env, _) => DeafVisit(w.cells[id], env);
    case _ =>
  }

  lemma DeafVisit(c: Cell, env: Envelope)
    requires !Open(c.slot.chan)
    ensures !Open(SyncCell(c, env).slot.chan) && SyncCell(c, env).hist.sent == c.hist.sent
    ensures !Open(ClaimCell(c, env).slot.chan) && ClaimCell(c, env).hist.sent == c.hist.sent
  {
  }

  lemma {:induction false} DeafRun(w: World, acts: seq<Action>, id: SubId)
    requires AllChannels(w) && Deaf(w, id)
    ensures Deaf(Run(w, acts), id) && Run(w, acts).cells[id].hist.sent == w.cells[id].hist.sent
    decreases |acts|
  {
    if acts != [] {
      ChannelsAreFifo(w, acts[..1]);
      assert Run(w, acts[..1]) == Next(w, acts[0]);
      if Enabled(w, acts[0]) { DeafStep(w, acts[0], id); }
      DeafRun(Next(w, acts[0]), acts[1..], id);
    }
  }

  /**
   Once its receiver is dropped a subscription is sent nothing more, and the
   next synchronous publish that it wants removes it.
   */
  lemma DroppedReceiverGetsNothing(before: seq<Action>, id: SubId, after: seq<Action>, env: Envelope)
    requires id in Run(Start(), before).cells
    ensures var w := Run(Start(), before); var w' := Run(Step(w, DropReceiver(id)), after);
            && id in w'.cells && w'.cells[id].hist.sent == w.cells[id].hist.sent
            && (w'.cells[id].slot.entry.Some? && w'.cells[id].hist.wants(env) ==>
                  Step(w', TryPublish(env)).cells[id].slot.entry.None?)
  {
    ChannelsAreFifo(Start(), before);
    var w := Run(Start(), before);
    var w1 := Step(w, DropReceiver(id));
    forall x | x in w1.cells ensures x < w1.nextId && ChannelInv(w1.cells[x]) { ChannelStep(w, DropReceiver(id), x); }
    DeafRun(w1, after, id);
    ChannelsAreFifo(w1, after);
    var c := Run(w1, after).cells[id];
    assert ChannelInv(c);
    SyncFate(c.slot, env);
  }

  // ---- Gap-free prefix ----

  function LastMark(s: seq<Envelope>): Option<Mark> { if s == [] then None else Some(MarkOf(s[|s| - 1])) }

  /**
   A `Disconnect` subscriber that only synchronous publishes reach: what was put
   on its channel is a prefix of what was offered, all of it while it is live,
   and a notice names the end of that prefix.
   */
  ghost predicate PrefixInv(c: Cell)
  {
    c.slot.chan.Mpsc? && c.slot.chan.policy == Disconnect ==>
      && c.hist.sent <= c.hist.offered
      && (c.slot.entry.Some? ==>
            && c.slot.entry.value.wants == c.hist.wants
            && c.hist.sent == c.hist.offered
            && c.slot.entry.value.last == LastMark(c.hist.sent)
            && c.slot.entry.value.notify
            && c.slot.notices == [])
      && (c.slot.notices != [] ==> c.slot.notices == [LastMark(c.hist.sent)])
  }

  lemma SyncKeepsPrefix(c: Cell, env: Envelope)
    requires PrefixInv(c)
    ensures PrefixInv(SyncCell(c, env))
  {
  }

  ghost predicate AllPrefixes(w: World)
  {
    forall id :: id in w.cells ==> id < w.nextId && PrefixInv(w.cells[id])
  }

  lemma PrefixStep(w: World, a: Action, id: SubId)
    requires Enabled(w, a) && AllPrefixes(w) && w.pubs == map[] && !a.Claim? && id in Step(w, a).cells
    ensures id < Step(w, a).nextId && PrefixInv(Step(w, a).cells[id])
  {
    if id in w.cells {
      match a
      case TryPublish(env) => SyncKeepsPrefix(w.cells[id], env);
      case _ =>
    }
  }

  lemma {:induction false} PrefixRun(w: World, acts: seq<Action>)
    requires AllPrefixes(w) && w.pubs == map[] && SyncOnly(acts)
    ensures AllPrefixes(Run(w, acts))
    decreases |acts|
  {
    if acts != [] {
      var a := acts[0];
      assert a in acts;
      if Enabled(w, a) {
        forall id | id in Step(w, a).cells ensures id < Step(w, a).nextId && PrefixInv(Step(w, a).cells[id]) {
          PrefixStep(w, a, id);
        }
      }
      PrefixRun(Next(w, a), acts[1..]);
    }
  }

  /** The gap-free prefix theorem, for every run of synchronous publishes, pops, subscribes and unsubscribes. */
  lemma GapFreePrefix(acts: seq<Action>, id: SubId)
    requires SyncOnly(acts) && id in Run(Start(), acts).cells
    requires Run(Start(), acts).cells[id].slot.chan.Mpsc? && Run(Start(), acts).cells[id].slot.chan.policy == Disconnect
    ensures var c := Run(Start(), acts).cells[id];
            && c.hist.popped + c.slot.chan.queue <= c.hist.offered
            && (Live(c.slot) ==> c.hist.popped + c.slot.chan.queue == c.hist.offered)
            && (c.slot.notices == [] || c.slot.notices == [LastMark(c.hist.popped + c.slot.chan.queue)])
            && (Live(c.slot) ==> c.slot.notices == [])
  {
    ChannelsAreFifo(Start(), acts);
    PrefixRun(Start(), acts);
  }
}
