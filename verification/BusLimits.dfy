/**
 When runs that mix `try_publish` with `publish` (`events/bus.rs`) exceed a
 subscription's limit.  A synchronous publish does not look at outstanding
 claims; whether it costs a delivery too many depends on how many of them can
 still deliver.
 */
module BusLimits {
  import opened Wrappers
  import opened Envelopes
  import opened EventBus
  import opened BusRuns
  import opened BusOrder

  // ---- Claims that can still deliver ----

  /** The claim is not cancelled, and its send has not ended in anything but a delivery. */
  ghost predicate CanDeliver(q: Publisher, id: SubId)
  {
    q.Sending? && id in q.todo && (q.todo[0] == id && q.head.Sent? ==> q.head.outcome == Delivered)
  }

  ghost function Deliverable(pubs: map<PubId, Publisher>, id: SubId): set<PubId>
  {
    set p | p in pubs && CanDeliver(pubs[p], id)
  }

  /** The deliveries that are done or can still come from claims. */
  ghost function Potential(w: World, id: SubId): nat
    requires id in w.cells
  {
    w.cells[id].hist.committed + |Deliverable(w.pubs, id)|
  }

  lemma DeliverableAfter(pubs: map<PubId, Publisher>, p: PubId, q: Publisher, id: SubId)
    ensures |Deliverable(pubs[p := q], id)| ==
            |Deliverable(pubs, id)| + One(CanDeliver(q, id)) - One(p in pubs && CanDeliver(pubs[p], id))
  {
    SizesDifferBy(Deliverable(pubs, id), Deliverable(pubs[p := q], id), p);
  }

  lemma DeliverableBetween(pubs: map<PubId, Publisher>, id: SubId)
    ensures |Landed(pubs, id)| <= |Deliverable(pubs, id)| <= |Armed(pubs, id)|
  {
    CardinalityMonotone(Landed(pubs, id), Deliverable(pubs, id));
    CardinalityMonotone(Deliverable(pubs, id), Armed(pubs, id));
  }

  /** The law and the channel discipline, which every run keeps, guarded or not. */
  ghost predicate Mixed(w: World) { Law(w, false) && AllChannels(w) }

  lemma NextKeepsMixed(w: World, a: Action)
    requires Mixed(w)
    ensures Mixed(Next(w, a))
  {
    NextKeepsLaw(w, a, false);
    if Enabled(w, a) {
      forall id | id in Step(w, a).cells ensures id < Step(w, a).nextId && ChannelInv(Step(w, a).cells[id]) {
        ChannelStep(w, a, id);
      }
    }
  }

  // ---- How a step changes the potential ----

  ghost predicate Limited(w: World, id: SubId)
  {
    id in w.cells && w.cells[id].slot.chan.Mpsc? && w.cells[id].hist.limit.Some?
  }

  lemma CellStays(w: World, a: Action, id: SubId)
    requires WellFormed(w) && id in w.cells
    ensures id in Next(w, a).cells && Next(w, a).cells[id].hist.limit == w.cells[id].hist.limit
    ensures Next(w, a).cells[id].slot.chan.Mpsc? == w.cells[id].slot.chan.Mpsc?
  {
    if Enabled(w, a) { StepKeepsKind(w, a, id); }
  }

  /** The synchronous publish puts its envelope on this subscription's channel. */
  ghost predicate Delivers(w: World, env: Envelope, id: SubId)
    requires id in w.cells
  {
    Matches(w.cells[id].slot, env) && Room(w.cells[id].slot.chan)
  }

  lemma SyncPotential(w: World, env: Envelope, id: SubId)
    requires id in w.cells && w.cells[id].slot.chan.Mpsc?
    ensures Potential(Step(w, TryPublish(env)), id) == Potential(w, id) + One(Delivers(w, env, id))
  {
  }

  lemma ClaimPotential(w: World, a: Action, id: SubId)
    requires a.Claim? && Enabled(w, a) && id in w.cells
    requires w.cells[id].slot.chan.Mpsc? && !Live(Step(w, a).cells[id].slot)
    ensures Potential(Step(w, a), id) == Potential(w, id)
  {
    ClaimedIsFilter(a.order, Slots(w), a.env);
    DeliverableAfter(w.pubs, a.p, Step(w, a).pubs[a.p], id);
  }

  lemma PublisherPotential(w: World, a: Action, id: SubId)
    requires (a.Send? || a.Commit? || a.Cancel? || a.DropGuard?) && WellFormed(w) && Enabled(w, a) && id in w.cells
    ensures Potential(Step(w, a), id) <= Potential(w, id)
  {
    var q := w.pubs[a.p];
    assert TodoInv(w.cells, q.todo);
    TailOfTodo(w.cells, q.todo);
    DeliverableAfter(w.pubs, a.p, Step(w, a).pubs[a.p], id);
  }

  lemma ReaderPotential(w: World, a: Action, id: SubId)
    requires (a.Subscribe? || a.Unsubscribe? || a.DropReceiver? || a.Pop?)
    requires Enabled(w, a) && id in w.cells && id < w.nextId
    ensures Potential(Step(w, a), id) == Potential(w, id)
  {
  }

  /** Without synchronous publishes the potential of a removed entry never grows, and a live one is within its limit. */
  lemma AsyncKeepsFit(w: World, a: Action, id: SubId)
    requires Mixed(w) && Limited(w, id) && !a.TryPublish? && Potential(w, id) <= w.cells[id].hist.limit.value
    ensures Limited(Next(w, a), id) && Potential(Next(w, a), id) <= w.cells[id].hist.limit.value
  {
    CellStays(w, a, id);
    if Enabled(w, a) {
      if Live(Step(w, a).cells[id].slot) {
        LiveFits(w, a, id);
      } else if a.Claim? {
        ClaimPotential(w, a, id);
      } else if a.Send? || a.Commit? || a.Cancel? || a.DropGuard? {
        PublisherPotential(w, a, id);
      } else {
        ReaderPotential(w, a, id);
      }
    }
  }

  lemma LiveFits(w: World, a: Action, id: SubId)
    requires Mixed(w) && Enabled(w, a) && Limited(Step(w, a), id) && Live(Step(w, a).cells[id].slot)
    ensures Potential(Step(w, a), id) <= Step(w, a).cells[id].hist.limit.value
  {
    NextKeepsLaw(w, a, false);
    DeliverableBetween(Step(w, a).pubs, id);
    assert CellOk(Step(w, a), id, false);
  }

  lemma SentWithinPotential(w: World, id: SubId)
    requires Mixed(w) && id in w.cells
    ensures |w.cells[id].hist.sent| <= Potential(w, id)
  {
    assert CellOk(w, id, false);
    DeliverableBetween(w.pubs, id);
  }

  // ---- Bringing every deliverable claim home ----

  lemma {:induction false} RunConcat(w: World, a: seq<Action>, b: seq<Action>)
    ensures Run(w, a + b) == Run(Run(w, a), b)
    decreases |a|
  {
    if a == [] {
      assert a + b == b;
    } else {
      assert (a + b)[0] == a[0] && (a + b)[1..] == a[1..] + b;
      RunConcat(Next(w, a[0]), a[1..], b);
    }
  }

  lemma {:induction false} RunKeepsMixed(w: World, acts: seq<Action>)
    requires Mixed(w)
    ensures Mixed(Run(w, acts))
    decreases |acts|
  {
    if acts != [] {
      NextKeepsMixed(w, acts[0]);
      RunKeepsMixed(Next(w, acts[0]), acts[1..]);
    }
  }

  /** The claim of `p` on `id` is still to be sent, and the receiver is there. */
  ghost predicate Unsent(w: World, p: PubId, id: SubId)
  {
    && id in w.cells && w.cells[id].slot.chan.Mpsc? && w.cells[id].slot.chan.open
    && p in w.pubs && CanDeliver(w.pubs[p], id) && !HasLanded(w.pubs[p], id)
  }

  /** Nothing has changed for `id` and its claims, except perhaps how far `p` has got with the others. */
  ghost predicate SameFor(w: World, w': World, p: PubId, id: SubId)
  {
    && id in w.cells && id in w'.cells && p in w.pubs && p in w'.pubs
    && w'.cells[id] == w.cells[id] && w'.pubs == w.pubs[p := w'.pubs[p]]
    && w'.pubs[p].env == w.pubs[p].env
    && CanDeliver(w'.pubs[p], id) == CanDeliver(w.pubs[p], id) && HasLanded(w'.pubs[p], id) == HasLanded(w.pubs[p], id)
  }

  lemma SameSets(w: World, w': World, p: PubId, id: SubId)
    requires SameFor(w, w', p, id)
    ensures Deliverable(w'.pubs, id) == Deliverable(w.pubs, id) && Landed(w'.pubs, id) == Landed(w.pubs, id)
  {
    forall q ensures q in Deliverable(w'.pubs, id) <==> q in Deliverable(w.pubs, id) {}
    forall q ensures q in Landed(w'.pubs, id) <==> q in Landed(w.pubs, id) {}
  }

  /** Popping makes room in any open channel, so the next send ends. */
  lemma PopThenSend(w: World, p: PubId) returns (w': World)
    requires Mixed(w) && Ready(w, p) && w.pubs[p].Sending? && !w.pubs[p].head.Sent?
    ensures w' == Next(Next(w, Pop(w.pubs[p].todo[0])), Send(p))
    ensures var x := w.pubs[p].todo[0]; var head := w'.pubs[p].head;
            && x in w'.cells && w'.cells == w.cells[x := w'.cells[x]]
            && w'.pubs == w.pubs[p := w.pubs[p].(head := head)]
            && head.Sent? && (w.cells[x].slot.chan.open ==> head.outcome == Delivered)
            && w'.cells[x].slot.chan.Mpsc? && w'.cells[x].slot.chan.open == w.cells[x].slot.chan.open
            && w'.cells[x].hist.committed == w.cells[x].hist.committed
            && w'.cells[x].hist.limit == w.cells[x].hist.limit
            && w'.cells[x].hist.offered == w.cells[x].hist.offered
            && w'.cells[x].slot.entry == w.cells[x].slot.entry && w'.cells[x].slot.notices == w.cells[x].slot.notices
            && (head.outcome == Delivered ==> w'.cells[x].hist.sent == w.cells[x].hist.sent + [w.pubs[p].env])
  {
    var x := w.pubs[p].todo[0];
    var w1 := Next(w, Pop(x));
    assert ChannelInv(w.cells[x]);
    assert w.cells[x].slot.chan.open ==> Room(w1.cells[x].slot.chan);
    w' := Next(w1, Send(p));
    assert w'.cells == w.cells[x := w'.cells[x]];
  }

  lemma CommitOther(w: World, p: PubId, id: SubId) returns (w': World)
    requires WellFormed(w) && Unsent(w, p, id) && Ready(w, p) && w.pubs[p].head.Sent? && w.pubs[p].todo[0] != id
    ensures w' == Next(w, BusRuns.Commit(p))
    ensures SameFor(w, w', p, id) && |w'.pubs[p].todo| < |w.pubs[p].todo|
  {
    w' := Next(w, BusRuns.Commit(p));
    assert TodoInv(w.cells, w.pubs[p].todo);
    TailOfTodo(w.cells, w.pubs[p].todo);
  }

  lemma SameForBoth(w: World, w1: World, w2: World, p: PubId, id: SubId)
    requires SameFor(w, w1, p, id) && SameFor(w1, w2, p, id)
    ensures SameFor(w, w2, p, id)
  {
  }

  lemma SendOther(w: World, p: PubId, id: SubId) returns (acts: seq<Action>)
    requires Mixed(w) && Unsent(w, p, id) && w.pubs[p].todo[0] != id
    ensures AsyncOnly(acts) && SyncOnly(acts) && Mixed(Run(w, acts)) && SameFor(w, Run(w, acts), p, id)
    ensures var q := Run(w, acts).pubs[p]; q.Sending? && q.todo == w.pubs[p].todo && q.head.Sent?
  {
    if w.pubs[p].head.Sent? {
      acts := [];
    } else {
      var x := w.pubs[p].todo[0];
      assert TodoInv(w.cells, w.pubs[p].todo);
      acts := [Pop(x), Send(p)];
      var w1 := PopThenSend(w, p);
      RunKeepsMixed(w, acts);
      RunBoth(w, Pop(x), Send(p));
    }
  }

  /** One round of the publisher on an earlier claim: send if it has not, then commit. */
  lemma Advance(w: World, p: PubId, id: SubId) returns (acts: seq<Action>)
    requires Mixed(w) && Unsent(w, p, id) && w.pubs[p].todo[0] != id
    ensures AsyncOnly(acts) && SyncOnly(acts) && Mixed(Run(w, acts)) && SameFor(w, Run(w, acts), p, id)
    ensures |Run(w, acts).pubs[p].todo| < |w.pubs[p].todo|
  {
    var first := SendOther(w, p, id);
    var w1 := Run(w, first);
    assert TodoInv(w1.cells, w1.pubs[p].todo);
    var w2 := CommitOther(w1, p, id);
    SameForBoth(w, w1, w2, p, id);
    RunConcat(w, first, [BusRuns.Commit(p)]);
    acts := first + [BusRuns.Commit(p)];
    RunKeepsMixed(w, acts);
  }

  /** The publisher works through its earlier claims until the next one is on `id`. */
  lemma {:induction false} Reach(w: World, p: PubId, id: SubId) returns (acts: seq<Action>)
    requires Mixed(w) && Unsent(w, p, id)
    ensures AsyncOnly(acts) && SyncOnly(acts) && Mixed(Run(w, acts)) && SameFor(w, Run(w, acts), p, id)
    ensures Run(w, acts).pubs[p].todo[0] == id && !Run(w, acts).pubs[p].head.Sent?
    decreases |w.pubs[p].todo|
  {
    acts := [];
    if w.pubs[p].todo[0] != id {
      var first := Advance(w, p, id);
      var more := Reach(Run(w, first), p, id);
      SameForBoth(w, Run(w, first), Run(Run(w, first), more), p, id);
      RunConcat(w, first, more);
      acts := first + more;
    }
  }

  /** The publisher gets its envelope onto the channel of `id`. */
  lemma Drive(w: World, p: PubId, id: SubId) returns (acts: seq<Action>)
    requires Mixed(w) && Unsent(w, p, id)
    ensures AsyncOnly(acts) && SyncOnly(acts) && Landing(w, Run(w, acts), p, id)
  {
    var first := Reach(w, p, id);
    var w1 := Run(w, first);
    SameSets(w, w1, p, id);
    var w2 := PopThenSend(w1, p);
    LandedNow(w1, w2, p, id);
    acts := first + [Pop(id), Send(p)];
    RunConcat(w, first, [Pop(id), Send(p)]);
    RunBoth(w1, Pop(id), Send(p));
  }

  lemma RunBoth(w: World, a: Action, b: Action)
    ensures Run(w, [a, b]) == Next(Next(w, a), b)
  {
    RunConcat(w, [a], [b]);
    assert [a] + [b] == [a, b];
  }

  /** One more claim on `id` is on the channel; nothing else about it has changed. */
  ghost predicate Landing(w: World, w': World, p: PubId, id: SubId)
  {
    && id in w.cells && id in w'.cells
    && w'.cells[id].slot.chan.Mpsc? && w'.cells[id].slot.chan.open
    && w'.cells[id].hist.committed == w.cells[id].hist.committed && w'.cells[id].hist.limit == w.cells[id].hist.limit
    && w'.cells[id].hist.offered == w.cells[id].hist.offered
    && w'.cells[id].slot.entry == w.cells[id].slot.entry && w'.cells[id].slot.notices == w.cells[id].slot.notices
    && p in w.pubs && w'.cells[id].hist.sent == w.cells[id].hist.sent + [w.pubs[p].env]
    && Deliverable(w'.pubs, id) == Deliverable(w.pubs, id)
    && Landed(w'.pubs, id) == Landed(w.pubs, id) + {p}
  }

  lemma LandedNow(w: World, w': World, p: PubId, id: SubId)
    requires Unsent(w, p, id) && w.pubs[p].todo[0] == id && id in w'.cells
    requires w'.pubs == w.pubs[p := w.pubs[p].(head := Sent(Delivered))]
    requires w'.cells[id].slot.chan.Mpsc? && w'.cells[id].slot.chan.open
    requires w'.cells[id].hist.committed == w.cells[id].hist.committed
    requires w'.cells[id].hist.limit == w.cells[id].hist.limit
    requires w'.cells[id].hist.offered == w.cells[id].hist.offered
    requires w'.cells[id].slot.entry == w.cells[id].slot.entry && w'.cells[id].slot.notices == w.cells[id].slot.notices
    requires w'.cells[id].hist.sent == w.cells[id].hist.sent + [w.pubs[p].env]
    ensures Landing(w, w', p, id)
  {
    forall q ensures q in Deliverable(w'.pubs, id) <==> q in Deliverable(w.pubs, id) {}
    forall q ensures q in Landed(w'.pubs, id) <==> q in Landed(w.pubs, id) || q == p {}
  }

  /** Some continuation delivers everything that can be delivered. */
  lemma {:induction false} DeliverAll(w: World, id: SubId) returns (acts: seq<Action>)
    requires Mixed(w) && id in w.cells && w.cells[id].slot.chan.Mpsc? && w.cells[id].slot.chan.open
    ensures AsyncOnly(acts) && id in Run(w, acts).cells && Run(w, acts).cells[id].slot.chan.Mpsc?
    ensures |Run(w, acts).cells[id].hist.sent| == Potential(w, id)
    ensures Run(w, acts).cells[id].hist.limit == w.cells[id].hist.limit
    decreases |Deliverable(w.pubs, id) - Landed(w.pubs, id)|
  {
    var left := Deliverable(w.pubs, id) - Landed(w.pubs, id);
    if left == {} {
      acts := [];
      AllLanded(w, id);
    } else {
      var p :| p in left;
      var first := Drive(w, p, id);
      RunKeepsMixed(w, first);
      FewerLeft(w, Run(w, first), p, id);
      var more := DeliverAll(Run(w, first), id);
      acts := first + more;
      RunConcat(w, first, more);
    }
  }

  lemma FewerLeft(w: World, w': World, p: PubId, id: SubId)
    requires Landing(w, w', p, id) && p in Deliverable(w.pubs, id) - Landed(w.pubs, id)
    ensures |Deliverable(w'.pubs, id) - Landed(w'.pubs, id)| < |Deliverable(w.pubs, id) - Landed(w.pubs, id)|
  {
    var left := Deliverable(w.pubs, id) - Landed(w.pubs, id);
    assert Deliverable(w'.pubs, id) - Landed(w'.pubs, id) == left - {p};
    SizeWithout(left, p);
  }

  lemma AllLanded(w: World, id: SubId)
    requires Mixed(w) && id in w.cells && Deliverable(w.pubs, id) - Landed(w.pubs, id) == {}
    ensures |w.cells[id].hist.sent| == Potential(w, id)
  {
    forall p | p in Deliverable(w.pubs, id) ensures p in Landed(w.pubs, id) {
      assert p !in Deliverable(w.pubs, id) - Landed(w.pubs, id);
    }
    assert Landed(w.pubs, id) == Deliverable(w.pubs, id);
    assert CellOk(w, id, false);
  }

  // ---- Whole runs ----

  ghost predicate WithinLimit(w: World, id: SubId)
  {
    Limited(w, id) ==> |w.cells[id].hist.sent| <= w.cells[id].hist.limit.value
  }

  /** A synchronous publish fits: it delivers nothing here, or one more than the potential is within the limit. */
  ghost predicate Fits(w: World, a: Action, id: SubId)
  {
    a.TryPublish? && Limited(w, id) && Delivers(w, a.env, id) ==> Potential(w, id) + 1 <= w.cells[id].hist.limit.value
  }

  ghost predicate FittingRun(w: World, acts: seq<Action>, id: SubId)
    decreases |acts|
  {
    acts == [] || (Fits(w, acts[0], id) && FittingRun(Next(w, acts[0]), acts[1..], id))
  }

  ghost predicate Fit(w: World, id: SubId) { Limited(w, id) ==> Potential(w, id) <= w.cells[id].hist.limit.value }

  lemma FitIsWithin(w: World, id: SubId)
    requires Mixed(w) && Fit(w, id)
    ensures WithinLimit(w, id)
  {
    if id in w.cells { SentWithinPotential(w, id); }
  }

  lemma FreshPotential(w: World, a: Action, id: SubId)
    requires Mixed(w) && id !in w.cells && Limited(Next(w, a), id)
    ensures Fit(Next(w, a), id)
  {
    LiveFits(w, a, id);
  }

  lemma NextFits(w: World, a: Action, id: SubId)
    requires Mixed(w) && Fit(w, id)
    ensures Fits(w, a, id) <==> Fit(Next(w, a), id)
  {
    if id !in w.cells {
      if Limited(Next(w, a), id) { FreshPotential(w, a, id); }
    } else {
      CellStays(w, a, id);
      if Limited(w, id) {
        if a.TryPublish? { SyncPotential(w, a.env, id); } else { AsyncKeepsFit(w, a, id); }
      }
    }
  }

  /** No continuation without further synchronous publishes delivers more than the limit. */
  ghost predicate NeverExceeds(w: World, id: SubId)
  {
    forall more :: AsyncOnly(more) ==> WithinLimit(Run(w, more), id)
  }

  lemma {:induction false} FitRunsStayWithin(w: World, more: seq<Action>, id: SubId)
    requires Mixed(w) && Fit(w, id) && AsyncOnly(more)
    ensures WithinLimit(Run(w, more), id)
    decreases |more|
  {
    if more == [] {
      FitIsWithin(w, id);
    } else {
      assert more[0] in more;
      NextKeepsMixed(w, more[0]);
      NextFits(w, more[0], id);
      FitRunsStayWithin(Next(w, more[0]), more[1..], id);
    }
  }

  /** With an open channel, no continuation exceeds the limit exactly when the potential is within it. */
  lemma NeverExceedsIff(w: World, id: SubId)
    requires Mixed(w) && Limited(w, id) && w.cells[id].slot.chan.open
    ensures NeverExceeds(w, id) <==> Potential(w, id) <= w.cells[id].hist.limit.value
  {
    if Fit(w, id) {
      forall more | AsyncOnly(more) ensures WithinLimit(Run(w, more), id) { FitRunsStayWithin(w, more, id); }
    } else {
      var acts := DeliverAll(w, id);
      assert !WithinLimit(Run(w, acts), id);
    }
  }

  lemma {:induction false} MixedRunFrom(w: World, acts: seq<Action>, id: SubId)
    requires Mixed(w) && Fit(w, id)
    ensures (forall k :: 0 <= k <= |acts| ==> NeverExceeds(Run(w, acts[..k]), id)) <==> FittingRun(w, acts, id)
    decreases |acts|
  {
    forall more | AsyncOnly(more) ensures WithinLimit(Run(w, more), id) { FitRunsStayWithin(w, more, id); }
    if acts == [] {
      assert acts[..0] == [];
    } else {
      var w', rest := Next(w, acts[0]), acts[1..];
      NextKeepsMixed(w, acts[0]);
      NextFits(w, acts[0], id);
      forall k | 1 <= k <= |acts| ensures Run(w, acts[..k]) == Run(w', rest[..k - 1]) { RunPrefix(w, acts, k); }
      if Fits(w, acts[0], id) {
        MixedRunFrom(w', rest, id);
        forall j | 0 <= j <= |rest| ensures Run(w, acts[..j + 1]) == Run(w', rest[..j]) {}
      } else {
        CellStays(w, acts[0], id);
        NeverExceedsIff(w', id);
        assert Run(w, acts[..1]) == w';
      }
    }
  }

  /**
   The exact condition for mixed runs: the subscription is never given, and can
   never be given through claims, more envelopes than its limit, exactly when
   every synchronous publish that delivers to it leaves room in the limit for
   the committed deliveries, the claims that can still deliver, and itself.
   */
  lemma MixedRunsWithinLimitIff(acts: seq<Action>, id: SubId)
    ensures (forall k :: 0 <= k <= |acts| ==> NeverExceeds(Run(Start(), acts[..k]), id)) <==>
            FittingRun(Start(), acts, id)
  {
    MixedRunFrom(Start(), acts, id);
  }

  /**
   What the condition asks of the entry: unclaimed quota, or a claim that can
   no longer deliver.  It is weaker than the guard of the quota law.
   */
  lemma FitsMeans(w: World, env: Envelope, id: SubId)
    requires Mixed(w) && Limited(w, id) && Delivers(w, env, id)
    ensures var e := w.cells[id].slot.entry.value;
            && e.remaining.Some?
            && (Fits(w, TryPublish(env), id) <==> |Deliverable(w.pubs, id)| < e.remaining.value + e.inFlight)
            && (e.remaining.value > 0 ==> Fits(w, TryPublish(env), id))
  {
    assert CellOk(w, id, false);
    DeliverableBetween(w.pubs, id);
  }
}
