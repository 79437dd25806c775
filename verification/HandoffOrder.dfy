/**
 The order of the lines a late subscriber receives (`server_events_stream` in
 `http/routes.rs`) when publishing on the stream is serialized: replayed lines
 come first, so a live envelope that fell out of the ring before the snapshot
 comes out of order, and nothing else does.
 */
module HandoffOrder {
  import opened Wrappers
  import opened Envelopes
  import opened EventBus
  import opened BusFlow
  import opened Handoff
  import B = BusRuns
  import Streams

  /** A recorded envelope of the reader's stream. */
  ghost predicate OnIt(h: State, e: Envelope) { Known(h.known, e) && e.streamId == h.stream }

  /** The envelope is recorded and its publish has not returned. */
  ghost predicate UnderWay(h: State, e: Envelope)
  {
    e.streamId == h.stream &&
    ((exists p :: p in h.awaiting && h.awaiting[p] == e) ||
     (exists p :: p in h.w.pubs && h.w.pubs[p].env == e && h.w.pubs[p].todo != []))
  }

  /** Publishing on the stream is serialized, with rising sequences from one; the reader's channel is a plain queue. */
  ghost predicate Serial(h: State, act: Act)
  {
    match act
    case Record(_, env) =>
      env.streamId == h.stream ==>
        && 1 <= env.sequence
        && (forall e :: !UnderWay(h, e))
        && (forall e :: OnIt(h, e) ==> e.sequence < env.sequence)
    case ReaderSubscribes(chan) => chan.Mpsc?
    case _ => true
  }

  ghost predicate SerialRun(h: State, acts: seq<Act>)
    decreases |acts|
  {
    acts == [] || (Serial(h, acts[0]) && SerialRun(Try(h, acts[0]), acts[1..]))
  }

  // ---- Invariant ----

  /** The last envelope is the newest of all that satisfy the test. */
  ghost predicate Tops(ring: seq<Envelope>, e: Envelope)
  {
    ring != [] && (e == ring[|ring| - 1] || e.sequence < ring[|ring| - 1].sequence)
  }

  ghost predicate RingOrder(h: State)
  {
    && Streams.Ascending(h.ring)
    && (forall e :: e in h.ring ==> OnIt(h, e) && 1 <= e.sequence)
    && (forall e :: OnIt(h, e) ==> Tops(h.ring, e))
  }

  /** Whatever is under way is the newest envelope, and still in the ring. */
  ghost predicate WayOrder(h: State)
  {
    forall e :: UnderWay(h, e) ==> h.ring != [] && e == h.ring[|h.ring| - 1]
  }

  ghost predicate CellOrder(h: State, c: B.Cell)
  {
    && c.slot.chan.Mpsc? && c.hist.wants == OnStream(h.stream)
    && (forall e :: e in c.hist.offered ==> e.streamId == h.stream)
    && Streams.Ascending(Flow(c))
  }

  ghost predicate ReaderOrder(h: State)
  {
    h.reader.Some? && h.reader.value in h.w.cells ==> CellOrder(h, h.w.cells[h.reader.value])
  }

  ghost predicate SnapOrder(h: State)
  {
    && (forall id :: id in h.early ==> id in h.known)
    && (h.snapshot.Some? ==> ShotOrder(h, h.snapshot.value))
  }

  /** What was known at the snapshot is older than what came later; the snapshot ends with the newest of it. */
  ghost predicate ShotOrder(h: State, shot: seq<Envelope>)
  {
    && Streams.Ascending(shot) && Streams.Ascending(h.live)
    && (forall e :: e in shot ==> OnIt(h, e) && e.eventId in h.early)
    && (forall e :: OnIt(h, e) && e.eventId in h.early ==> Tops(shot, e))
    && (forall e, f :: OnIt(h, e) && OnIt(h, f) && e.eventId in h.early && f.eventId !in h.early ==>
          e.sequence < f.sequence)
    && (forall e :: UnderWay(h, e) && e.eventId in h.early ==> e in shot)
  }

  ghost predicate OrderInv(h: State) { RingOrder(h) && WayOrder(h) && ReaderOrder(h) && SnapOrder(h) }

  // ---- Recording ----

  lemma RecordedOnIt(h: State, act: Act, e: Envelope)
    requires act.Record? && Enabled(h, act)
    ensures OnIt(Do(h, act), e) <==> OnIt(h, e) || (e == act.env && e.streamId == h.stream)
  {
  }

  lemma RecordedWay(h: State, act: Act, e: Envelope)
    requires act.Record? && Enabled(h, act) && UnderWay(Do(h, act), e)
    ensures UnderWay(h, e) || (e == act.env && e.streamId == h.stream)
  {
    var h' := Do(h, act);
    if p :| p in h'.awaiting && h'.awaiting[p] == e { assert p == act.p || p in h.awaiting; }
  }

  lemma RecordKeepsRing(h: State, act: Act)
    requires RingOrder(h) && act.Record? && Enabled(h, act) && Serial(h, act)
    ensures RingOrder(Do(h, act))
  {
    var h' := Do(h, act);
    forall e
      ensures OnIt(h', e) <==> OnIt(h, e) || (e == act.env && e.streamId == h.stream)
    {
      RecordedOnIt(h, act, e);
    }
    if act.env.streamId == h.stream {
      var kept := h'.ring[..|h'.ring| - 1];
      assert h'.ring == kept + [act.env];
      forall e | e in kept ensures e in h.ring {}
    }
  }

  lemma RecordKeepsWay(h: State, act: Act)
    requires WayOrder(h) && act.Record? && Enabled(h, act) && Serial(h, act)
    ensures WayOrder(Do(h, act))
  {
    forall e | UnderWay(Do(h, act), e) ensures e == act.env || UnderWay(h, e) { RecordedWay(h, act, e); }
  }

  lemma RecordKeepsSnap(h: State, act: Act)
    requires SnapOrder(h) && act.Record? && Enabled(h, act) && Serial(h, act)
    ensures SnapOrder(Do(h, act))
  {
    var h' := Do(h, act);
    if h.snapshot.Some? {
      forall e
        ensures OnIt(h', e) <==> OnIt(h, e) || (e == act.env && e.streamId == h.stream)
      {
        RecordedOnIt(h, act, e);
      }
      forall e | UnderWay(h', e) ensures e == act.env || UnderWay(h, e) { RecordedWay(h, act, e); }
      assert act.env.eventId !in h.early;
    }
  }

  // ---- Bus steps ----

  /** With the same records and nothing new under way, the ring, the way and the snapshot stay in order. */
  lemma SameOrder(h: State, h': State)
    requires RingOrder(h) && WayOrder(h) && SnapOrder(h)
    requires h'.stream == h.stream && h'.known == h.known && h'.ring == h.ring
    requires h'.early == h.early && h'.snapshot == h.snapshot
    requires (forall e :: UnderWay(h', e) ==> UnderWay(h, e)) && (h.snapshot.Some? ==> Streams.Ascending(h'.live))
    ensures RingOrder(h') && WayOrder(h') && SnapOrder(h')
  {
    SameRing(h, h');
    forall e ensures OnIt(h', e) <==> OnIt(h, e) {}
    if h.snapshot.Some? { SameShot(h, h', h.snapshot.value); }
  }

  lemma SameRing(h: State, h': State)
    requires RingOrder(h) && WayOrder(h) && h'.stream == h.stream && h'.known == h.known && h'.ring == h.ring
    requires forall e :: UnderWay(h', e) ==> UnderWay(h, e)
    ensures RingOrder(h') && WayOrder(h')
  {
    forall e ensures OnIt(h', e) <==> OnIt(h, e) {}
  }

  lemma SameShot(h: State, h': State, shot: seq<Envelope>)
    requires ShotOrder(h, shot) && Streams.Ascending(h'.live) && h'.early == h.early
    requires forall e :: OnIt(h', e) <==> OnIt(h, e)
    requires forall e :: UnderWay(h', e) ==> UnderWay(h, e)
    ensures ShotOrder(h', shot)
  {
  }

  lemma ReaderKeepsPlainFlow(w: B.World, a: B.Action, r: SubId)
    requires B.Enabled(w, a) && r in w.cells && r < w.nextId && w.cells[r].slot.chan.Mpsc?
    requires a.Pop? || a.DropReceiver? || a.Unsubscribe?
    ensures r in B.Step(w, a).cells
    ensures var c, c' := w.cells[r], B.Step(w, a).cells[r];
            c'.slot.chan.Mpsc? && c'.hist.wants == c.hist.wants && Flow(c') == Flow(c)
  {
    ReaderKeepsFlow(w.cells[r], {});
  }

  lemma SyncAppends(c: B.Cell, env: Envelope)
    requires c.slot.chan.Mpsc?
    ensures var c' := B.SyncCell(c, env);
            && c'.slot.chan.Mpsc? && c'.hist.wants == c.hist.wants
            && (Flow(c') == Flow(c) || (Matches(c.slot, env) && Flow(c') == Flow(c) + [env]))
  {
    assert c.hist.popped + (c.slot.chan.queue + [env]) == Flow(c) + [env];
  }

  lemma SendAppends(c: B.Cell, env: Envelope, head: Head)
    requires c.slot.chan.Mpsc?
    ensures var c' := B.SendCell(c, env, head);
            && c'.slot.chan.Mpsc? && c'.hist.wants == c.hist.wants
            && (Flow(c') == Flow(c) || Flow(c') == Flow(c) + [env])
  {
    assert c.hist.popped + (c.slot.chan.queue + [env]) == Flow(c) + [env];
  }

  /** A step puts at most one envelope at the end of a plain queue. */
  lemma FlowAppends(w: B.World, a: B.Action, r: SubId)
    requires B.Enabled(w, a) && r in w.cells && r < w.nextId && w.cells[r].slot.chan.Mpsc?
    ensures r in B.Step(w, a).cells
    ensures var c, c' := w.cells[r], B.Step(w, a).cells[r];
            && c'.slot.chan.Mpsc? && c'.hist.wants == c.hist.wants
            && (|| Flow(c') == Flow(c)
                || (a.TryPublish? && Matches(c.slot, a.env) && Flow(c') == Flow(c) + [a.env])
                || (a.Send? && w.pubs[a.p].todo[0] == r && Flow(c') == Flow(c) + [w.pubs[a.p].env]))
  {
    match a
    case TryPublish(env) => SyncAppends(w.cells[r], env);
    case Send(p) => if r == w.pubs[p].todo[0] { SendAppends(w.cells[r], w.pubs[p].env, B.Step(w, a).pubs[p].head); }
    case Pop(_) => ReaderKeepsPlainFlow(w, a, r);
    case DropReceiver(_) => ReaderKeepsPlainFlow(w, a, r);
    case Unsubscribe(_) => ReaderKeepsPlainFlow(w, a, r);
    case _ =>
  }

  lemma BusWay(h: State, act: Act, e: Envelope)
    requires PublishersInv(h) && BusAct(act) && Enabled(h, act) && UnderWay(Do(h, act), e)
    ensures UnderWay(h, e)
  {
    var h' := Do(h, act);
    if p :| p in h'.awaiting && h'.awaiting[p] == e {
      assert p in h.awaiting;
    } else {
      var p :| p in h'.w.pubs && h'.w.pubs[p].env == e && h'.w.pubs[p].todo != [];
      PublisherWay(h, act, p);
    }
  }

  lemma PublisherWay(h: State, act: Act, p: B.PubId)
    requires BusAct(act) && Enabled(h, act) && p in Do(h, act).w.pubs && Do(h, act).w.pubs[p].todo != []
    ensures if p in h.w.pubs then Do(h, act).w.pubs[p].env == h.w.pubs[p].env && h.w.pubs[p].todo != []
            else p in h.awaiting && Do(h, act).w.pubs[p].env == h.awaiting[p]
  {
    if p in h.w.pubs { SameEnvelope(h.w, ActionOf(h, act), p); }
  }

  /** The envelope under way goes to the end of the queue in order. */
  lemma NewestAppends(h: State, flow: seq<Envelope>, e: Envelope)
    requires RingOrder(h) && WayOrder(h) && UnderWay(h, e) && e !in flow
    requires Streams.Ascending(flow) && forall f :: f in flow ==> OnIt(h, f)
    ensures Streams.Ascending(flow + [e])
  {
    forall i | 0 <= i < |flow| ensures flow[i].sequence < e.sequence {
      assert flow[i] in flow && OnIt(h, flow[i]);
      assert Tops(h.ring, flow[i]);
    }
  }

  lemma BusKeepsCellOrder(h: State, act: Act, r: SubId)
    requires Inv(h) && RingOrder(h) && WayOrder(h) && BusAct(act) && Enabled(h, act)
    requires h.reader == Some(r) && r in h.w.cells && CellOrder(h, h.w.cells[r])
    ensures r in Do(h, act).w.cells && CellOrder(h, Do(h, act).w.cells[r])
  {
    FanOutPending(h, act);
    var a, c := ActionOf(h, act), h.w.cells[r];
    var c' := Do(h, act).w.cells[r];
    FlowAppends(h.w, a, r);
    forall e | e in c'.hist.offered ensures e.streamId == h.stream { NewOffers(h.w, a, r, e); }
    if Flow(c') != Flow(c) {
      var e := if a.TryPublish? then a.env else h.w.pubs[a.p].env;
      GainIsNew(h, act, r, e);
      NewestAppends(h, Flow(c), e);
    }
  }

  /** What a step adds to the reader's queue was under way, and is not there yet. */
  lemma GainIsNew(h: State, act: Act, r: SubId, e: Envelope)
    requires Inv(h) && BusAct(act) && Enabled(h, act) && h.reader == Some(r)
    requires r in h.w.cells && CellOrder(h, h.w.cells[r])
    requires var a := ActionOf(h, act);
             || (a.TryPublish? && e == a.env && Matches(h.w.cells[r].slot, e))
             || (a.Send? && e == h.w.pubs[a.p].env && h.w.pubs[a.p].todo[0] == r)
    ensures UnderWay(h, e) && e !in Flow(h.w.cells[r])
  {
    var a, c := ActionOf(h, act), h.w.cells[r];
    if a.TryPublish? {
      assert h.awaiting[act.p] == e && e in Pending(h.awaiting);
      assert c.hist.wants(e);
    } else {
      assert PubFlow(h.w.pubs[a.p], c, r, Pending(h.awaiting));
    }
  }

  lemma BusKeepsOrder(h: State, act: Act)
    requires Inv(h) && OrderInv(h) && BusAct(act) && Enabled(h, act)
    ensures OrderInv(Do(h, act))
  {
    var h' := Do(h, act);
    forall e | UnderWay(h', e) ensures UnderWay(h, e) { BusWay(h, act, e); }
    SameOrder(h, h');
    if h.reader.Some? {
      BusKeepsCellOrder(h, act, h.reader.value);
    }
  }

  // ---- Reader steps ----

  lemma SubscribeKeepsOrder(h: State, act: Act)
    requires Inv(h) && OrderInv(h) && act.ReaderSubscribes? && Enabled(h, act) && Serial(h, act)
    ensures OrderInv(Do(h, act))
  {
    var h' := Do(h, act);
    forall e ensures UnderWay(h', e) <==> UnderWay(h, e) {}
    SameOrder(h, h');
    assert Flow(h'.w.cells[h.w.nextId]) == [];
  }

  lemma SnapshotKeepsOrder(h: State, act: Act)
    requires Inv(h) && OrderInv(h) && act.ReaderSnapshots? && Enabled(h, act)
    ensures OrderInv(Do(h, act))
  {
    WholeRing(h.ring);
    FirstShot(h, Do(h, act));
  }

  lemma FirstShot(h: State, h': State)
    requires OrderInv(h) && h.live == [] && h' == h.(snapshot := Some(h.ring), early := h.known)
    ensures OrderInv(h')
  {
    forall e ensures UnderWay(h', e) <==> UnderWay(h, e) {}
    SameRing(h, h');
    ShotOfRing(h');
  }

  lemma ShotOfRing(h: State)
    requires RingOrder(h) && WayOrder(h) && h.early == h.known && h.live == []
    ensures ShotOrder(h, h.ring)
  {
  }

  /** Sequences start at one, so a replay from zero is the whole ring. */
  lemma {:induction false} WholeRing(ring: seq<Envelope>)
    requires forall e :: e in ring ==> 1 <= e.sequence
    ensures Streams.Newer(ring, 0) == ring
  {
    if ring != [] {
      var init, last := ring[..|ring| - 1], ring[|ring| - 1];
      assert ring == init + [last];
      forall e | e in init ensures e in ring {}
      WholeRing(init);
    }
  }

  lemma LiveStaysAscending(popped: seq<Envelope>, queue: seq<Envelope>, live: seq<Envelope>)
    requires queue != [] && Streams.Ascending(popped + queue) && Streams.Ascending(live)
    requires forall e :: e in live ==> e in popped
    ensures Streams.Ascending(live + [queue[0]])
  {
    var flow := popped + queue;
    assert flow[|popped|] == queue[0];
    forall i | 0 <= i < |live| ensures live[i].sequence < queue[0].sequence {
      assert live[i] in live;
      var j :| 0 <= j < |popped| && popped[j] == live[i];
      assert flow[j] == live[i];
    }
  }

  lemma ReadLiveKeepsOrder(h: State, act: Act)
    requires Inv(h) && OrderInv(h) && act.ReaderReadsLive? && Enabled(h, act)
    ensures OrderInv(Do(h, act))
  {
    var h', r := Do(h, act), h.reader.value;
    var c := h.w.cells[r];
    PopEffect(h.w, r);
    ReaderKeepsPlainFlow(h.w, B.Pop(r), r);
    forall e ensures UnderWay(h', e) <==> UnderWay(h, e) {}
    LiveReadInOrder(h, act);
    SameOrder(h, h');
    assert CellOrder(h', h'.w.cells[r]);
  }

  lemma LiveReadInOrder(h: State, act: Act)
    requires Inv(h) && OrderInv(h) && act.ReaderReadsLive? && Enabled(h, act)
    ensures Streams.Ascending(Do(h, act).live)
  {
    var c := h.w.cells[h.reader.value];
    assert EmissionInv(h, h.snapshot.value, c.hist.popped);
    LiveStaysAscending(c.hist.popped, Content(c.slot.chan), h.live);
  }

  lemma SameRecords(h: State, h': State)
    requires OrderInv(h) && h'.w == h.w && h'.awaiting == h.awaiting && h'.reader == h.reader
    requires h'.stream == h.stream && h'.known == h.known && h'.ring == h.ring
    requires h'.early == h.early && h'.snapshot == h.snapshot && h'.live == h.live
    ensures OrderInv(h')
  {
    forall e ensures UnderWay(h', e) <==> UnderWay(h, e) {}
    SameOrder(h, h');
  }

  lemma LocalStepKeepsOrder(h: State, act: Act)
    requires OrderInv(h) && (act.ReaderReplaysOne? || act.ReaderLooks?) && Enabled(h, act)
    ensures OrderInv(Do(h, act))
  {
    SameRecords(h, Do(h, act));
  }

  lemma DoKeepsOrder(h: State, act: Act)
    requires Inv(h) && OrderInv(h) && Enabled(h, act) && Serial(h, act)
    ensures OrderInv(Do(h, act))
  {
    match act
    case Record(_, _) => RecordKeepsRing(h, act); RecordKeepsWay(h, act); RecordKeepsSnap(h, act);
    case ReaderSubscribes(_) => SubscribeKeepsOrder(h, act);
    case ReaderSnapshots => SnapshotKeepsOrder(h, act);
    case ReaderReplaysOne => LocalStepKeepsOrder(h, act);
    case ReaderLooks => LocalStepKeepsOrder(h, act);
    case ReaderReadsLive => ReadLiveKeepsOrder(h, act);
    case _ => BusKeepsOrder(h, act);
  }

  lemma {:induction false} RunKeepsOrder(h: State, acts: seq<Act>)
    requires Inv(h) && OrderInv(h) && SerialRun(h, acts)
    ensures Inv(Run(h, acts)) && OrderInv(Run(h, acts))
    decreases |acts|
  {
    if acts != [] {
      if Enabled(h, acts[0]) {
        DoKeepsInv(h, acts[0]);
        DoKeepsOrder(h, acts[0]);
      }
      RunKeepsOrder(Try(h, acts[0]), acts[1..]);
    }
  }

  // ---- The order of the lines ----

  /** Every envelope of the list that was recorded before the snapshot is in the snapshot. */
  ghost predicate NoneEvicted(h: State, got: seq<Envelope>)
  {
    h.snapshot.Some? ==> forall e :: e in got && e.eventId in h.early ==> e in h.snapshot.value
  }

  ghost function Popped(h: State): seq<Envelope>
  {
    if h.reader.Some? && h.reader.value in h.w.cells then h.w.cells[h.reader.value].hist.popped else []
  }

  lemma LiveIsOnIt(h: State)
    requires Inv(h) && OrderInv(h) && h.snapshot.Some?
    ensures forall e :: e in h.live ==> OnIt(h, e)
    ensures forall e :: e in h.live <==> e in Popped(h) && e !in h.snapshot.value
    ensures forall e :: e in Popped(h) ==> OnIt(h, e)
  {
    var r := h.reader.value;
    assert EmissionInv(h, h.snapshot.value, h.w.cells[r].hist.popped);
    forall e | e in Popped(h) ensures OnIt(h, e) { assert e in Flow(h.w.cells[r]); }
  }

  lemma InOrder(h: State)
    requires Inv(h) && OrderInv(h) && h.snapshot.Some? && NoneEvicted(h, Popped(h))
    ensures h.done <= |h.snapshot.value| && Streams.Ascending(Emitted(h))
  {
    LiveIsOnIt(h);
    EmittedIsDistinct(h);
    var shot := h.snapshot.value;
    forall x, y | x in shot[..h.done] && y in h.live ensures x.sequence < y.sequence {
      assert x in shot && OnIt(h, x) && x.eventId in h.early;
      assert OnIt(h, y) && y.eventId !in h.early;
    }
  }

  lemma OutOfOrder(h: State, e: Envelope)
    requires Inv(h) && OrderInv(h) && h.snapshot.Some? && e in Popped(h)
    requires e.eventId in h.early && e !in h.snapshot.value
    ensures h.done <= |h.snapshot.value| && !Streams.Ascending(Emitted(h))
  {
    LiveIsOnIt(h);
    ReplayedFirst(h);
    var shot := h.snapshot.value;
    assert OnIt(h, e) && e in h.live;
    EvictedIsOlder(h, shot, e);
    WholeShot(shot, h.live);
    OlderAfterwards(shot, h.live, e);
  }

  lemma WholeShot(shot: seq<Envelope>, live: seq<Envelope>)
    ensures shot[..|shot|] + live == shot + live
  {
  }

  lemma EvictedIsOlder(h: State, shot: seq<Envelope>, e: Envelope)
    requires ShotOrder(h, shot) && OnIt(h, e) && e.eventId in h.early && e !in shot
    ensures shot != [] && e.sequence < shot[|shot| - 1].sequence
  {
    assert Tops(shot, e);
    assert shot[|shot| - 1] in shot;
  }

  /** Nothing is taken from the queue before the whole snapshot is out. */
  lemma ReplayedFirst(h: State)
    requires Inv(h) && h.snapshot.Some? && Popped(h) != []
    ensures h.done == |h.snapshot.value|
  {
    assert EmissionInv(h, h.snapshot.value, Popped(h));
  }

  lemma OlderAfterwards(a: seq<Envelope>, b: seq<Envelope>, e: Envelope)
    requires a != [] && e in b && e.sequence < a[|a| - 1].sequence
    ensures !Streams.Ascending(a + b)
  {
    var j :| 0 <= j < |b| && b[j] == e;
    assert (a + b)[|a| - 1] == a[|a| - 1] && (a + b)[|a| + j] == e;
  }

  // ---- Decided at the snapshot ----

  /** Nothing in the reader's hands or queue was evicted before the snapshot. */
  ghost predicate Complete(h: State)
  {
    h.reader.Some? && h.reader.value in h.w.cells ==> NoneEvicted(h, Flow(h.w.cells[h.reader.value]))
  }

  /** Whatever is evicted after the snapshot does not matter. */
  lemma DoKeepsComplete(h: State, act: Act)
    requires Inv(h) && OrderInv(h) && Enabled(h, act) && h.snapshot.Some? && Complete(h)
    ensures Do(h, act).snapshot == h.snapshot && Complete(Do(h, act))
  {
    if BusAct(act) {
      BusKeepsComplete(h, act);
    } else if act.ReaderReadsLive? {
      ReaderKeepsPlainFlow(h.w, B.Pop(h.reader.value), h.reader.value);
    }
  }

  lemma BusKeepsComplete(h: State, act: Act)
    requires Inv(h) && OrderInv(h) && BusAct(act) && Enabled(h, act) && h.snapshot.Some? && Complete(h)
    ensures Do(h, act).snapshot == h.snapshot && Complete(Do(h, act))
  {
    var r := h.reader.value;
    if r in Do(h, act).w.cells {
      forall e | e in Flow(Do(h, act).w.cells[r]) ensures e in Flow(h.w.cells[r]) || UnderWay(h, e) {
        GainsUnderWay(h, act, r, e);
      }
    }
  }

  lemma GainsUnderWay(h: State, act: Act, r: SubId, e: Envelope)
    requires Inv(h) && OrderInv(h) && BusAct(act) && Enabled(h, act) && h.reader == Some(r) && r in h.w.cells
    requires r in Do(h, act).w.cells && e in Flow(Do(h, act).w.cells[r])
    ensures e in Flow(h.w.cells[r]) || UnderWay(h, e)
  {
    FanOutPending(h, act);
    FlowAppends(h.w, ActionOf(h, act), r);
    if e !in Flow(h.w.cells[r]) { GainIsNew(h, act, r, e); }
  }

  lemma {:induction false} RunKeepsComplete(h: State, acts: seq<Act>)
    requires Inv(h) && OrderInv(h) && SerialRun(h, acts) && h.snapshot.Some? && Complete(h)
    ensures Inv(Run(h, acts)) && OrderInv(Run(h, acts)) && Run(h, acts).snapshot.Some? && Complete(Run(h, acts))
    decreases |acts|
  {
    if acts != [] {
      if Enabled(h, acts[0]) {
        DoKeepsInv(h, acts[0]);
        DoKeepsOrder(h, acts[0]);
        DoKeepsComplete(h, acts[0]);
      }
      RunKeepsComplete(Try(h, acts[0]), acts[1..]);
    }
  }

  lemma SnapshotIsComplete(h: State)
    requires Inv(h) && OrderInv(h) && Enabled(h, ReaderSnapshots) && h.reader.value in h.w.cells
    requires forall e :: e in Content(h.w.cells[h.reader.value].slot.chan) ==> e in h.ring
    ensures Complete(Do(h, ReaderSnapshots))
  {
    WholeRing(h.ring);
    assert h.w.cells[h.reader.value].hist.popped == [];
  }

  lemma CompleteIsInOrder(h: State)
    requires Inv(h) && OrderInv(h) && h.snapshot.Some? && Complete(h)
    ensures h.done <= |h.snapshot.value| && Streams.Ascending(Emitted(h))
  {
    forall e | e in Popped(h) ensures e in Flow(h.w.cells[h.reader.value]) {}
    InOrder(h);
  }

  lemma {:induction false} CompleteRunsInOrder(h: State, after: seq<Act>)
    requires Inv(h) && OrderInv(h) && h.snapshot.Some? && Complete(h) && SerialRun(h, after)
    ensures LinesAscend(Run(h, after))
  {
    RunKeepsComplete(h, after);
    CompleteIsInOrder(Run(h, after));
  }

  /** The lines so far are in order. */
  ghost predicate LinesAscend(h: State)
  {
    (h.snapshot.Some? ==> h.done <= |h.snapshot.value|) && Streams.Ascending(Emitted(h))
  }

  /** A reader still on the bus has an envelope that was recorded before the snapshot and is not in it. */
  ghost predicate Evicted(h: State, e: Envelope)
  {
    && h.snapshot.Some? && Listed(h)
    && e in Flow(h.w.cells[h.reader.value]) && e.eventId in h.early && e !in h.snapshot.value
  }

  lemma LocalStepKeepsEvicted(h: State, act: Act, e: Envelope)
    requires Inv(h) && OrderInv(h) && Evicted(h, e) && (act.ReaderReplaysOne? || act.ReaderLooks?) && Enabled(h, act)
    ensures Inv(Do(h, act)) && OrderInv(Do(h, act)) && Evicted(Do(h, act), e)
  {
    DoKeepsInv(h, act);
    DoKeepsOrder(h, act);
  }

  lemma ReadKeepsEvicted(h: State, e: Envelope)
    requires Inv(h) && OrderInv(h) && Evicted(h, e) && Enabled(h, ReaderReadsLive)
    ensures var h' := Do(h, ReaderReadsLive);
            Inv(h') && OrderInv(h') && Evicted(h', e) && h'.done == h.done && |Queued(h')| < |Queued(h)|
  {
    DoKeepsInv(h, ReaderReadsLive);
    DoKeepsOrder(h, ReaderReadsLive);
    ReaderKeepsPlainFlow(h.w, B.Pop(h.reader.value), h.reader.value);
    PopEffect(h.w, h.reader.value);
  }

  /** What waits on the reader's channel. */
  ghost function Queued(h: State): seq<Envelope>
  {
    if h.reader.Some? && h.reader.value in h.w.cells then Content(h.w.cells[h.reader.value].slot.chan) else []
  }

  /** The snapshot lines still to come. */
  ghost function Unreplayed(h: State): nat
  {
    if h.snapshot.Some? && h.done <= |h.snapshot.value| then |h.snapshot.value| - h.done else 0
  }

  /** The reader replays the rest of the snapshot and then takes the evicted envelope, out of order. */
  lemma {:induction false} ReadOut(h: State, e: Envelope) returns (after: seq<Act>)
    requires Inv(h) && OrderInv(h) && Evicted(h, e)
    ensures SerialRun(h, after) && !LinesAscend(Run(h, after))
    decreases Unreplayed(h), |Queued(h)|, !h.looked
  {
    if e in Popped(h) {
      after := [];
      OutOfOrder(h, e);
    } else {
      var act := NextRead(h, e);
      var more := ReadOut(Do(h, act), e);
      after := [act] + more;
      SerialStep(h, act, more);
    }
  }

  ghost predicate Closer(h: State, h': State)
  {
    || Unreplayed(h') < Unreplayed(h)
    || (Unreplayed(h') == Unreplayed(h) && |Queued(h')| < |Queued(h)|)
    || (Unreplayed(h') == Unreplayed(h) && |Queued(h')| == |Queued(h)| && h'.looked && !h.looked)
  }

  lemma NextRead(h: State, e: Envelope) returns (act: Act)
    requires Inv(h) && OrderInv(h) && Evicted(h, e) && e !in Popped(h)
    ensures Enabled(h, act) && Serial(h, act)
    ensures var h' := Do(h, act); Inv(h') && OrderInv(h') && Evicted(h', e) && Closer(h, h')
  {
    EmittedIsDistinct(h);
    if h.done == |h.snapshot.value| && h.looked {
      act := ReaderReadsLive;
      ReadKeepsEvicted(h, e);
    } else {
      act := if h.done < |h.snapshot.value| then ReaderReplaysOne else ReaderLooks;
      LocalStepKeepsEvicted(h, act, e);
    }
  }

  // ---- A reader that has left the bus ----

  /** The receive loop of the reader will stop before it takes anything. */
  ghost predicate Gone(h: State) { h.snapshot.Some? && h.reader.Some? && !Listed(h) && !h.looked && h.live == [] }

  /** Neither an entry nor a receiver comes back. */
  lemma LeavesForGood(w: B.World, a: B.Action, r: SubId)
    requires B.Enabled(w, a) && r in w.cells && r < w.nextId && r in B.Step(w, a).cells
    ensures var s, s' := w.cells[r].slot, B.Step(w, a).cells[r].slot;
            (s.entry.None? ==> s'.entry.None?) && (!Open(s.chan) ==> !Open(s'.chan))
  {
  }

  lemma DoKeepsGone(h: State, act: Act)
    requires Inv(h) && Gone(h) && Enabled(h, act)
    ensures Gone(Do(h, act))
  {
    if BusAct(act) { LeavesForGood(h.w, ActionOf(h, act), h.reader.value); }
  }

  lemma {:induction false} RunKeepsGone(h: State, acts: seq<Act>)
    requires Inv(h) && OrderInv(h) && SerialRun(h, acts) && Gone(h)
    ensures Inv(Run(h, acts)) && OrderInv(Run(h, acts)) && Gone(Run(h, acts))
    decreases |acts|
  {
    if acts != [] {
      if Enabled(h, acts[0]) {
        DoKeepsInv(h, acts[0]);
        DoKeepsOrder(h, acts[0]);
        DoKeepsGone(h, acts[0]);
      }
      RunKeepsGone(Try(h, acts[0]), acts[1..]);
    }
  }

  /** Its lines are lines of the snapshot. */
  lemma GoneRunsInOrder(h: State, after: seq<Act>)
    requires Inv(h) && OrderInv(h) && Gone(h) && SerialRun(h, after)
    ensures LinesAscend(Run(h, after))
  {
    RunKeepsGone(h, after);
    var h' := Run(h, after);
    EmittedIsDistinct(h');
    assert Emitted(h') == h'.snapshot.value[..h'.done];
  }

  lemma SerialStep(h: State, act: Act, more: seq<Act>)
    requires Enabled(h, act) && Serial(h, act) && SerialRun(Do(h, act), more)
    ensures SerialRun(h, [act] + more) && Run(h, [act] + more) == Run(Do(h, act), more)
  {
    assert ([act] + more)[1..] == more;
  }

  /**
   With serialized publishing, under every policy of a plain queue, all later
   lines come in order whatever happens next exactly when the reader has left
   the bus by the snapshot, or every envelope queued for it is in the ring.
   */
  lemma OrderIsDecidedAtTheSnapshot(stream: StreamId, capacity: nat, before: seq<Act>)
    requires SerialRun(Start(stream, capacity), before)
    requires Enabled(Run(Start(stream, capacity), before), ReaderSnapshots)
    ensures var h := Run(Start(stream, capacity), before); var h' := Do(h, ReaderSnapshots);
            && h.reader.value in h.w.cells
            && ((forall after :: SerialRun(h', after) ==> LinesAscend(Run(h', after))) <==>
                (Listed(h) ==> forall e :: e in Content(h.w.cells[h.reader.value].slot.chan) ==> e in h.ring))
  {
    var h := Run(Start(stream, capacity), before);
    var h' := Do(h, ReaderSnapshots);
    RunKeepsOrder(Start(stream, capacity), before);
    DoKeepsInv(h, ReaderSnapshots);
    DoKeepsOrder(h, ReaderSnapshots);
    if Listed(h) {
      OrderOfListed(h);
    } else {
      forall after | SerialRun(h', after) ensures LinesAscend(Run(h', after)) { GoneRunsInOrder(h', after); }
    }
  }

  lemma OrderOfListed(h: State)
    requires Inv(h) && OrderInv(h) && Enabled(h, ReaderSnapshots) && Listed(h)
    ensures var h' := Do(h, ReaderSnapshots);
            (forall after :: SerialRun(h', after) ==> LinesAscend(Run(h', after))) <==>
            (forall e :: e in Content(h.w.cells[h.reader.value].slot.chan) ==> e in h.ring)
  {
    var h' := Do(h, ReaderSnapshots);
    DoKeepsInv(h, ReaderSnapshots);
    DoKeepsOrder(h, ReaderSnapshots);
    var queue := Content(h.w.cells[h.reader.value].slot.chan);
    if forall e :: e in queue ==> e in h.ring {
      SnapshotIsComplete(h);
      forall after | SerialRun(h', after) ensures LinesAscend(Run(h', after)) { CompleteRunsInOrder(h', after); }
    } else {
      var e :| e in queue && e !in h.ring;
      QueuedIsEvicted(h, e);
      var after := ReadOut(h', e);
    }
  }

  lemma QueuedIsEvicted(h: State, e: Envelope)
    requires Inv(h) && OrderInv(h) && Enabled(h, ReaderSnapshots) && Listed(h)
    requires e in Content(h.w.cells[h.reader.value].slot.chan) && e !in h.ring
    ensures Evicted(Do(h, ReaderSnapshots), e)
  {
    WholeRing(h.ring);
    var c := h.w.cells[h.reader.value];
    assert e in Flow(c) && e in c.hist.offered && Known(h.known, e);
  }

  // ---- A run out of order ----

  ghost predicate Consecutive(stream: StreamId, a: Envelope, b: Envelope)
  {
    a.streamId == b.streamId == stream && 1 <= a.sequence < b.sequence && a.eventId != b.eventId
  }

  /** The reader has `queue` waiting and has seen nothing; nothing is under way but `awaiting`. */
  ghost predicate Waiting(h: State, stream: StreamId, queue: seq<Envelope>, ring: seq<Envelope>,
                          awaiting: map<B.PubId, Envelope>)
  {
    && h.stream == stream && h.capacity == 1 && h.ring == ring && h.awaiting == awaiting && h.w.pubs == map[]
    && h.reader == Some(1) && h.snapshot == None && h.done == 0 && h.replayed == {} && h.live == [] && !h.looked
    && h.w.cells.Keys == {1} && h.w.cells[1].slot.chan == Mpsc(4, queue, true, Disconnect)
    && h.w.cells[1].slot.entry.Some? && h.w.cells[1].slot.entry.value.wants == OnStream(stream)
    && h.w.cells[1].slot.entry.value.remaining == None
  }

  lemma SubscribedFirst(stream: StreamId) returns (h: State)
    ensures var act := ReaderSubscribes(Mpsc(4, [], true, Disconnect));
            Enabled(Start(stream, 1), act) && Serial(Start(stream, 1), act) && h == Do(Start(stream, 1), act)
    ensures Waiting(h, stream, [], [], map[]) && h.known == map[]
  {
    h := Do(Start(stream, 1), ReaderSubscribes(Mpsc(4, [], true, Disconnect)));
  }

  lemma RecordedThere(h: State, p: B.PubId, e: Envelope, queue: seq<Envelope>, ring: seq<Envelope>) returns (h': State)
    requires Waiting(h, e.streamId, queue, ring, map[]) && e.eventId !in h.known && 1 <= e.sequence
    requires forall id :: id in h.known ==> h.known[id].sequence < e.sequence
    ensures Enabled(h, Record(p, e)) && Serial(h, Record(p, e)) && h' == Do(h, Record(p, e))
    ensures Waiting(h', e.streamId, queue, Streams.Recorded(ring, 1, e), map[p := e])
    ensures h'.known == h.known[e.eventId := e]
  {
    h' := Do(h, Record(p, e));
  }

  lemma FannedOutThere(h: State, e: Envelope) returns (h': State)
    requires Waiting(h, e.streamId, [], [e], map[0 := e])
    ensures Enabled(h, FanOutSync(0)) && Serial(h, FanOutSync(0)) && h' == Do(h, FanOutSync(0))
    ensures Waiting(h', e.streamId, [e], [e], map[]) && h'.known == h.known
  {
    h' := Do(h, FanOutSync(0));
    assert [] + [e] == [e];
  }

  lemma TakenThere(h: State, a: Envelope)
    requires h.snapshot.Some? && h.done == |h.snapshot.value| && h.live == [] && a.eventId !in h.replayed
    requires Listed(h) && h.w.cells[h.reader.value].slot.chan == Mpsc(4, [a], true, Disconnect)
    ensures var steps := [ReaderLooks, ReaderReadsLive]; var end := Run(h, steps);
            SerialRun(h, steps) && end.snapshot == h.snapshot && end.done == h.done && end.live == [a]
  {
    var h1 := Do(h, ReaderLooks);
    assert Do(h1, ReaderReadsLive).live == [a];
    SerialStep(h1, ReaderReadsLive, []);
    SerialStep(h, ReaderLooks, [ReaderReadsLive]);
    assert [ReaderLooks] + [ReaderReadsLive] == [ReaderLooks, ReaderReadsLive];
  }

  lemma ReadThere(h: State, stream: StreamId, a: Envelope, b: Envelope)
    requires Waiting(h, stream, [a], [b], map[1 := b]) && a.eventId != b.eventId && 1 <= b.sequence
    ensures var steps := [ReaderSnapshots] + ([ReaderReplaysOne] + [ReaderLooks, ReaderReadsLive]);
            var end := Run(h, steps);
            SerialRun(h, steps) && end.snapshot == Some([b]) && end.done == 1 && end.live == [a]
  {
    WholeRing([b]);
    var h1 := Do(h, ReaderSnapshots);
    assert h1.snapshot == Some([b]);
    var h2 := Do(h1, ReaderReplaysOne);
    assert h2.replayed == {b.eventId};
    TakenThere(h2, a);
    SerialStep(h1, ReaderReplaysOne, [ReaderLooks, ReaderReadsLive]);
    SerialStep(h, ReaderSnapshots, [ReaderReplaysOne] + [ReaderLooks, ReaderReadsLive]);
  }

  /** The reader subscribes, one envelope is published, the next is recorded, and the reader snapshots and reads. */
  function LateReader(a: Envelope, b: Envelope): seq<Act>
  {
    [ReaderSubscribes(Mpsc(4, [], true, Disconnect))] +
    ([Record(0, a)] + ([FanOutSync(0)] + ([Record(1, b)] +
    ([ReaderSnapshots] + ([ReaderReplaysOne] + [ReaderLooks, ReaderReadsLive])))))
  }

  /** With a ring of one its lines come in reverse. */
  lemma LateReaderOutOfOrder(stream: StreamId, a: Envelope, b: Envelope)
    requires Consecutive(stream, a, b)
    ensures var acts := LateReader(a, b); var h := Run(Start(stream, 1), acts);
            SerialRun(Start(stream, 1), acts) && h.snapshot == Some([b]) && h.done == 1 && Emitted(h) == [b, a]
  {
    var steps := [ReaderSnapshots] + ([ReaderReplaysOne] + [ReaderLooks, ReaderReadsLive]);
    var h1 := SubscribedFirst(stream);
    var h2 := RecordedThere(h1, 0, a, [], []);
    assert Streams.Recorded([], 1, a) == [a];
    var h3 := FannedOutThere(h2, a);
    var h4 := RecordedThere(h3, 1, b, [a], [a]);
    assert Streams.Recorded([a], 1, b) == [b];
    ReadThere(h4, stream, a, b);
    SerialStep(h3, Record(1, b), steps);
    SerialStep(h2, FanOutSync(0), [Record(1, b)] + steps);
    SerialStep(h1, Record(0, a), [FanOutSync(0)] + ([Record(1, b)] + steps));
    SerialStep(Start(stream, 1), ReaderSubscribes(Mpsc(4, [], true, Disconnect)),
               [Record(0, a)] + ([FanOutSync(0)] + ([Record(1, b)] + steps)));
  }
}
