/**
 The way of each envelope through the bus to one reader, for publishers whose
 envelopes are pairwise different: nothing reaches a channel twice under any
 policy, and nothing is lost under Backpressure (`events/bus.rs`).
 */
module BusFlow {
  import opened Wrappers
  import opened Envelopes
  import opened EventBus
  import opened BusRuns
  import Coalescing

  ghost predicate Distinct(s: seq<Envelope>) { forall i, j :: 0 <= i < j < |s| ==> s[i] != s[j] }

  /** What the reader has popped, followed by what waits on its channel. */
  function Flow(c: Cell): seq<Envelope> { c.hist.popped + Content(c.slot.chan) }

  ghost predicate Unsent(q: Publisher, r: SubId) { r in q.todo && !HasLanded(q, r) }

  /** `pending` are the envelopes whose fan-out is still to come. */
  ghost predicate CellFlow(c: Cell, pending: set<Envelope>)
  {
    && (c.slot.entry.Some? ==> c.slot.entry.value.wants == c.hist.wants)
    && Distinct(Flow(c))
    && (forall e :: e in Flow(c) ==> e in c.hist.offered)
    && (forall e :: e in c.hist.offered ==> e !in pending)
  }

  ghost predicate PubFlow(q: Publisher, c: Cell, r: SubId, pending: set<Envelope>)
  {
    && q.env !in pending
    && (Unsent(q, r) ==> q.env in c.hist.offered && q.env !in Flow(c))
  }

  ghost predicate DifferentEnvelopes(pubs: map<PubId, Publisher>)
  {
    forall p, q :: p in pubs && q in pubs && p != q ==> pubs[p].env != pubs[q].env
  }

  ghost predicate FlowInv(w: World, r: SubId, pending: set<Envelope>)
  {
    && WellFormed(w)
    && r in w.cells
    && CellFlow(w.cells[r], pending)
    && DifferentEnvelopes(w.pubs)
    && forall p :: p in w.pubs ==> PubFlow(w.pubs[p], w.cells[r], r, pending)
  }

  ghost function PendingAfter(a: Action, pending: set<Envelope>): set<Envelope>
  {
    if a.Claim? || a.TryPublish? then pending - {a.env} else pending
  }

  ghost predicate FansOutPending(a: Action, pending: set<Envelope>) { a.Claim? || a.TryPublish? ==> a.env in pending }

  // ---- One cell ----

  /** `Flow` may lose envelopes, keep them, or gain `env` once. */
  ghost predicate GainsAtMost(before: seq<Envelope>, after: seq<Envelope>, env: Envelope)
  {
    && (forall e :: e in after ==> e in before || e == env)
    && (env !in before && Distinct(before) ==> Distinct(after))
  }

  lemma PushGains(q: Coalescing.Queue, env: Envelope, popped: seq<Envelope>)
    ensures GainsAtMost(popped + q.items, popped + Coalescing.Push(q, env).items, env)
  {
    var before, after := popped + q.items, popped + Coalescing.Push(q, env).items;
    if Coalescing.PushOutcome(q, env) == Coalescing.Replaced {
      var k := |popped| + Coalescing.Target(q, env);
      assert after == before[k := env];
    } else if Coalescing.PushOutcome(q, env) == Coalescing.Pushed {
      assert after == before + [env];
    }
  }

  lemma SyncGains(c: Cell, env: Envelope)
    ensures Matches(c.slot, env) ==> GainsAtMost(Flow(c), Flow(SyncCell(c, env)), env)
    ensures !Matches(c.slot, env) ==> Flow(SyncCell(c, env)) == Flow(c)
  {
    if c.slot.chan.Coalesce? {
      PushGains(c.slot.chan.pending, env, c.hist.popped);
    } else {
      QueueGains(c, env);
    }
  }

  lemma QueueGains(c: Cell, env: Envelope)
    requires c.slot.chan.Mpsc?
    ensures var flow := Flow(SyncCell(c, env)); flow == Flow(c) || (Matches(c.slot, env) && flow == Flow(c) + [env])
  {
    assert c.hist.popped + (c.slot.chan.queue + [env]) == Flow(c) + [env];
  }

  lemma ClaimGains(c: Cell, env: Envelope)
    ensures Matches(c.slot, env) ==> GainsAtMost(Flow(c), Flow(ClaimCell(c, env)), env)
    ensures !Matches(c.slot, env) || c.slot.chan.Mpsc? ==> Flow(ClaimCell(c, env)) == Flow(c)
  {
    if c.slot.chan.Coalesce? {
      PushGains(c.slot.chan.pending, env, c.hist.popped);
    }
  }

  lemma VisitOffers(c: Cell, env: Envelope)
    ensures SyncCell(c, env).hist.wants == ClaimCell(c, env).hist.wants == c.hist.wants
    ensures SyncCell(c, env).hist.offered == ClaimCell(c, env).hist.offered ==
            if c.hist.wants(env) then c.hist.offered + [env] else c.hist.offered
    ensures Live(SyncCell(c, env).slot) ==>
              Live(c.slot) && SyncCell(c, env).slot.entry.value.wants == c.slot.entry.value.wants
    ensures Live(ClaimCell(c, env).slot) ==>
              Live(c.slot) && ClaimCell(c, env).slot.entry.value.wants == c.slot.entry.value.wants
  {
  }

  /** A visited cell: it was offered the envelope if it wants it, and gained it at most once. */
  lemma VisitKeepsFlow(c: Cell, c': Cell, env: Envelope, pending: set<Envelope>)
    requires CellFlow(c, pending) && env in pending
    requires c' == SyncCell(c, env) || c' == ClaimCell(c, env)
    ensures CellFlow(c', pending - {env})
    ensures forall e :: e in Flow(c') ==> e in Flow(c) || e == env
    ensures forall e :: e in c.hist.offered ==> e in c'.hist.offered
  {
    SyncGains(c, env);
    ClaimGains(c, env);
    VisitOffers(c, env);
  }

  lemma SendKeepsFlow(c: Cell, env: Envelope, head: Head, pending: set<Envelope>)
    requires CellFlow(c, pending) && c.slot.chan.Mpsc? && env in c.hist.offered && env !in Flow(c)
    ensures CellFlow(SendCell(c, env, head), pending)
    ensures forall e :: e in Flow(SendCell(c, env, head)) ==> e in Flow(c) || (e == env && head == Sent(Delivered))
    ensures SendCell(c, env, head).hist.offered == c.hist.offered
  {
    assert c.hist.popped + (c.slot.chan.queue + [env]) == Flow(c) + [env];
  }

  lemma ReaderKeepsFlow(c: Cell, pending: set<Envelope>)
    ensures Flow(PopCell(c)) == Flow(DropReceiverCell(c)) == Flow(c.(slot := Remove(c.slot))) == Flow(c)
    ensures CellFlow(c, pending) ==>
              && CellFlow(PopCell(c), pending) && CellFlow(DropReceiverCell(c), pending)
              && CellFlow(c.(slot := Remove(c.slot)), pending)
    ensures PopCell(c).hist.offered == c.hist.offered
  {
    var q := Content(c.slot.chan);
    if q != [] { assert (c.hist.popped + [q[0]]) + q[1..] == c.hist.popped + q; }
  }

  lemma CommitKeepsFlow(c: Cell, env: Envelope, outcome: Outcome, pending: set<Envelope>)
    ensures Flow(CommitCell(c, env, outcome)) == Flow(c.(slot := Refund(c.slot))) == Flow(c)
    ensures CellFlow(c, pending) ==>
              CellFlow(CommitCell(c, env, outcome), pending) && CellFlow(c.(slot := Refund(c.slot)), pending)
  {
  }

  // ---- One step ----

  lemma CellStep(w: World, a: Action, r: SubId, pending: set<Envelope>)
    requires FlowInv(w, r, pending) && Enabled(w, a) && FansOutPending(a, pending)
    ensures r in Step(w, a).cells && CellFlow(Step(w, a).cells[r], PendingAfter(a, pending))
  {
    var c := w.cells[r];
    match a
    case TryPublish(env) => VisitKeepsFlow(c, SyncCell(c, env), env, pending);
    case Claim(_, env, _) => VisitKeepsFlow(c, ClaimCell(c, env), env, pending);
    case Send(p) =>
      if w.pubs[p].todo[0] == r {
        assert PubFlow(w.pubs[p], c, r, pending);
        SendKeepsFlow(c, w.pubs[p].env, Step(w, a).pubs[p].head, pending);
      }
    case Commit(p) => CommitKeepsFlow(c, w.pubs[p].env, w.pubs[p].head.outcome, pending);
    case DropGuard(p) => CommitKeepsFlow(c, w.pubs[p].env, Dropped, pending);
    case _ => ReaderKeepsFlow(c, pending);
  }

  /** What a step can put into the flow: only the envelope that the acting publisher fans out or sends. */
  lemma FlowGrowth(w: World, a: Action, r: SubId, pending: set<Envelope>, e: Envelope)
    requires FlowInv(w, r, pending) && Enabled(w, a) && FansOutPending(a, pending)
    requires r in Step(w, a).cells && e in Flow(Step(w, a).cells[r]) && e !in Flow(w.cells[r])
    ensures e in pending || (a.Send? && e == w.pubs[a.p].env && HasLanded(Step(w, a).pubs[a.p], r))
  {
    var c := w.cells[r];
    match a
    case TryPublish(env) => VisitKeepsFlow(c, SyncCell(c, env), env, pending);
    case Claim(_, env, _) => VisitKeepsFlow(c, ClaimCell(c, env), env, pending);
    case Send(p) =>
      if w.pubs[p].todo[0] == r {
        assert PubFlow(w.pubs[p], c, r, pending);
        SendKeepsFlow(c, w.pubs[p].env, Step(w, a).pubs[p].head, pending);
      }
    case Commit(p) => CommitKeepsFlow(c, w.pubs[p].env, w.pubs[p].head.outcome, pending);
    case DropGuard(p) => CommitKeepsFlow(c, w.pubs[p].env, Dropped, pending);
    case _ => ReaderKeepsFlow(c, pending);
  }

  lemma OffersGrow(w: World, a: Action, r: SubId, e: Envelope)
    requires Enabled(w, a) && r in w.cells && r < w.nextId && e in w.cells[r].hist.offered
    ensures r in Step(w, a).cells && e in Step(w, a).cells[r].hist.offered
  {
    match a
    case TryPublish(env) => VisitOffers(w.cells[r], env);
    case Claim(_, env, _) => VisitOffers(w.cells[r], env);
    case _ =>
  }

  lemma SameEnvelope(w: World, a: Action, p: PubId)
    requires Enabled(w, a) && p in w.pubs
    ensures p in Step(w, a).pubs && Step(w, a).pubs[p].env == w.pubs[p].env
  {
  }

  lemma ClaimedIsOffered(w: World, a: Action, r: SubId, pending: set<Envelope>)
    requires FlowInv(w, r, pending) && a.Claim? && Enabled(w, a) && r in Step(w, a).pubs[a.p].todo
    ensures r in Step(w, a).cells && a.env in Step(w, a).cells[r].hist.offered
    ensures Flow(Step(w, a).cells[r]) == Flow(w.cells[r])
  {
    ClaimedIsFilter(a.order, Slots(w), a.env);
    assert Claims(w.cells[r].slot, a.env);
    VisitOffers(w.cells[r], a.env);
    ClaimGains(w.cells[r], a.env);
  }

  lemma PubStep(w: World, a: Action, r: SubId, pending: set<Envelope>, p: PubId)
    requires FlowInv(w, r, pending) && Enabled(w, a) && FansOutPending(a, pending)
    requires r in Step(w, a).cells && p in Step(w, a).pubs
    ensures PubFlow(Step(w, a).pubs[p], Step(w, a).cells[r], r, PendingAfter(a, pending))
  {
    var q' := Step(w, a).pubs[p];
    if p in w.pubs {
      SameEnvelope(w, a, p);
      assert PubFlow(w.pubs[p], w.cells[r], r, pending);
      if Unsent(q', r) {
        OffersGrow(w, a, r, q'.env);
        if q'.env in Flow(Step(w, a).cells[r]) {
          FlowGrowth(w, a, r, pending, q'.env);
        }
      }
    } else if Unsent(q', r) {
      ClaimedIsOffered(w, a, r, pending);
    }
  }

  /** Nothing reaches the reader twice, under any policy, cancelled or not. */
  lemma StepKeepsFlow(w: World, a: Action, r: SubId, pending: set<Envelope>)
    requires FlowInv(w, r, pending) && Enabled(w, a) && FansOutPending(a, pending)
    ensures FlowInv(Step(w, a), r, PendingAfter(a, pending))
  {
    StepKeepsWellFormed(w, a);
    CellStep(w, a, r, pending);
    forall p | p in Step(w, a).pubs
      ensures PubFlow(Step(w, a).pubs[p], Step(w, a).cells[r], r, PendingAfter(a, pending))
    {
      PubStep(w, a, r, pending, p);
    }
  }

  // ---- Backpressure loses nothing ----

  /** The subscription of a reader without a limit, under Backpressure, that has not gone away. */
  ghost predicate ReaderOpen(c: Cell)
  {
    && c.slot.entry.Some? && c.slot.entry.value.remaining.None? && c.slot.entry.value.wants == c.hist.wants
    && c.slot.chan.Mpsc? && c.slot.chan.open && c.slot.chan.policy == Backpressure
  }

  /** The reader has the envelope, or finds it on its channel, or an active publisher will send it. */
  ghost predicate Reaches(w: World, r: SubId, e: Envelope)
    requires r in w.cells
  {
    e in Flow(w.cells[r]) || exists p :: p in w.pubs && Unsent(w.pubs[p], r) && w.pubs[p].env == e
  }

  ghost predicate Uncancelled(q: Publisher, r: SubId)
  {
    r in q.todo ==> q.Sending? && (q.todo[0] == r && q.head.Sent? ==> q.head.outcome == Delivered)
  }

  ghost predicate LosslessInv(w: World, r: SubId)
  {
    && r in w.cells && ReaderOpen(w.cells[r])
    && (forall p :: p in w.pubs ==> Uncancelled(w.pubs[p], r))
    && (forall e :: e in w.cells[r].hist.offered ==> Reaches(w, r, e))
  }

  /** Publishes for the reader are asynchronous and run to their end, and the reader stays. */
  ghost predicate Undisturbed(w: World, a: Action, r: SubId)
    requires r in w.cells
  {
    && (a.TryPublish? ==> !w.cells[r].hist.wants(a.env))
    && (a.Cancel? && a.p in w.pubs ==> r !in w.pubs[a.p].todo)
    && a != Unsubscribe(r) && a != DropReceiver(r)
  }

  lemma ReaderStaysOpen(w: World, a: Action, r: SubId)
    requires Enabled(w, a) && r in w.cells && r < w.nextId && ReaderOpen(w.cells[r]) && Undisturbed(w, a, r)
    requires a.Commit? && w.pubs[a.p].todo[0] == r ==> w.pubs[a.p].head.outcome == Delivered
    ensures r in Step(w, a).cells && ReaderOpen(Step(w, a).cells[r])
  {
  }

  lemma PublishersGoOn(w: World, a: Action, r: SubId, p: PubId)
    requires LosslessInv(w, r) && Enabled(w, a) && Undisturbed(w, a, r) && p in Step(w, a).pubs
    ensures Uncancelled(Step(w, a).pubs[p], r)
  {
    if p in w.pubs { assert Uncancelled(w.pubs[p], r); }
  }

  lemma FlowStays(w: World, a: Action, r: SubId, e: Envelope)
    requires WellFormed(w) && r in w.cells && w.cells[r].slot.chan.Mpsc?
    requires Enabled(w, a) && (a.TryPublish? ==> !Matches(w.cells[r].slot, a.env)) && e in Flow(w.cells[r])
    ensures r in Step(w, a).cells && e in Flow(Step(w, a).cells[r])
  {
    var c := w.cells[r];
    match a
    case TryPublish(env) => SyncGains(c, env);
    case Claim(_, env, _) => ClaimGains(c, env);
    case Send(p) => assert c.hist.popped + (c.slot.chan.queue + [w.pubs[p].env]) == Flow(c) + [w.pubs[p].env];
    case Commit(p) => CommitKeepsFlow(c, w.pubs[p].env, w.pubs[p].head.outcome, {});
    case DropGuard(p) => CommitKeepsFlow(c, w.pubs[p].env, Dropped, {});
    case _ => ReaderKeepsFlow(c, {});
  }

  /** A claim stays unsent until its envelope is on the channel. */
  lemma ClaimGoesOn(w: World, a: Action, r: SubId, p: PubId)
    requires WellFormed(w) && LosslessInv(w, r) && Enabled(w, a)
    requires Undisturbed(w, a, r) && p in w.pubs && Unsent(w.pubs[p], r)
    ensures p in Step(w, a).pubs && Step(w, a).pubs[p].env == w.pubs[p].env && r in Step(w, a).cells
    ensures Unsent(Step(w, a).pubs[p], r) || w.pubs[p].env in Flow(Step(w, a).cells[r])
  {
    assert Uncancelled(w.pubs[p], r);
    assert TodoInv(w.cells, w.pubs[p].todo);
    TailOfTodo(w.cells, w.pubs[p].todo);
    if a == Send(p) && w.pubs[p].todo[0] == r {
      var c := w.cells[r];
      assert c.hist.popped + (c.slot.chan.queue + [w.pubs[p].env]) == Flow(c) + [w.pubs[p].env];
    }
  }

  lemma ReachesStep(w: World, a: Action, r: SubId, e: Envelope)
    requires WellFormed(w) && LosslessInv(w, r) && Enabled(w, a) && Undisturbed(w, a, r)
    requires r in Step(w, a).cells && e in Step(w, a).cells[r].hist.offered
    ensures Reaches(Step(w, a), r, e)
  {
    if e in w.cells[r].hist.offered {
      assert Reaches(w, r, e);
      if e in Flow(w.cells[r]) {
        FlowStays(w, a, r, e);
      } else {
        var p :| p in w.pubs && Unsent(w.pubs[p], r) && w.pubs[p].env == e;
        ClaimGoesOn(w, a, r, p);
      }
    } else {
      NewOfferIsClaimed(w, a, r, e);
    }
  }

  lemma NewOfferIsClaimed(w: World, a: Action, r: SubId, e: Envelope)
    requires WellFormed(w) && LosslessInv(w, r) && Enabled(w, a) && Undisturbed(w, a, r)
    requires r in Step(w, a).cells && e in Step(w, a).cells[r].hist.offered && e !in w.cells[r].hist.offered
    ensures a.Claim? && a.env == e && Unsent(Step(w, a).pubs[a.p], r)
  {
    assert a.Claim? || a.TryPublish?;
    VisitOffers(w.cells[r], a.env);
    assert Claims(w.cells[r].slot, a.env);
    ClaimedIsFilter(a.order, Slots(w), a.env);
  }

  /** Under Backpressure every offered envelope reaches the reader, whatever the interleaving. */
  lemma StepKeepsLossless(w: World, a: Action, r: SubId)
    requires WellFormed(w) && LosslessInv(w, r) && Enabled(w, a) && Undisturbed(w, a, r)
    ensures LosslessInv(Step(w, a), r)
  {
    ReaderStaysOpen(w, a, r);
    forall p | p in Step(w, a).pubs ensures Uncancelled(Step(w, a).pubs[p], r) { PublishersGoOn(w, a, r, p); }
    forall e | e in Step(w, a).cells[r].hist.offered ensures Reaches(Step(w, a), r, e) { ReachesStep(w, a, r, e); }
  }
}
