/**
 The late-subscriber handoff of `server_events_stream` (`http/routes.rs`):
 subscribe, snapshot the replay ring, emit the snapshot, then emit live events
 that were not in it.  Publishers record an envelope in the ring and fan it out
 later, in any interleaving with the reader and with each other.

 The reader's topic is concrete, unfiltered and names the resource's kind, so
 it wants exactly the envelopes of one stream.
 */
module Handoff {
  import opened Wrappers
  import opened Envelopes
  import opened EventBus
  import opened BusRuns
  import opened BusFlow
  import Streams

  /**
   `known` maps every recorded event id to its envelope; `awaiting` are the
   publishers between record and fan-out; `missed` are the envelopes fanned out
   before the reader subscribed.  `done` counts the snapshot lines emitted,
   `live` lists the live lines, and `early` is `known` as the snapshot saw it.
   `looked` says that the receive loop has found no notice since the last
   envelope it took.
   */
  datatype State = State(
    w: World,
    stream: StreamId,
    capacity: nat,
    ring: seq<Envelope>,
    known: map<EventId, Envelope>,
    awaiting: map<PubId, Envelope>,
    missed: set<Envelope>,
    reader: Option<SubId>,
    snapshot: Option<seq<Envelope>>,
    early: map<EventId, Envelope>,
    done: nat,
    replayed: set<EventId>,
    live: seq<Envelope>,
    looked: bool)

  datatype Act =
    | Record(p: PubId, env: Envelope)
    | FanOutAsync(p: PubId, order: seq<SubId>)
    | FanOutSync(p: PubId)
    | Bus(a: Action)
    | ReaderSubscribes(chan: Channel)
    | ReaderSnapshots
    | ReaderReplaysOne
    | ReaderLooks
    | ReaderReadsLive

  function Start(stream: StreamId, capacity: nat): State
  {
    State(BusRuns.Start(), stream, capacity, [], map[], map[], {}, None, None, map[], 0, {}, [], false)
  }

  function OnStream(stream: StreamId): Envelope -> bool { (e: Envelope) => e.streamId == stream }

  /** The lines the client has received. */
  function Emitted(h: State): seq<Envelope>
    requires h.snapshot.Some? ==> h.done <= |h.snapshot.value|
  {
    if h.snapshot.None? then [] else h.snapshot.value[..h.done] + h.live
  }

  /** The ids of snapshot lines not yet seen live, and the lines so far. */
  datatype Sieve = Sieve(replayed: set<EventId>, lines: seq<Envelope>)

  /** A live envelope is skipped once if the snapshot carried it. */
  function Sift(s: Sieve, e: Envelope): Sieve
  {
    if e.eventId in s.replayed then s.(replayed := s.replayed - {e.eventId}) else s.(lines := s.lines + [e])
  }

  function SiftAll(s: Sieve, received: seq<Envelope>): Sieve
  {
    if received == [] then s else Sift(SiftAll(s, received[..|received| - 1]), received[|received| - 1])
  }

  function Ids(envs: seq<Envelope>): set<EventId> { set e | e in envs :: e.eventId }

  /** The body of the response: the replay loop, then the receive loop. */
  method ResponseBody(replay: seq<Envelope>, received: seq<Envelope>) returns (lines: seq<Envelope>)
    ensures lines == SiftAll(Sieve(Ids(replay), replay), received).lines
  {
    var replayed: set<EventId> := {};
    lines := [];
    for i := 0 to |replay|
      invariant lines == replay[..i] && replayed == Ids(replay[..i])
    {
      assert replay[..i + 1] == replay[..i] + [replay[i]];
      replayed := replayed + {replay[i].eventId};
      lines := lines + [replay[i]];
    }
    assert replay[..|replay|] == replay;
    for i := 0 to |received|
      invariant Sieve(replayed, lines) == SiftAll(Sieve(Ids(replay), replay), received[..i])
    {
      assert received[..i + 1][..i] == received[..i];
      if received[i].eventId in replayed {
        replayed := replayed - {received[i].eventId};
      } else {
        lines := lines + [received[i]];
      }
    }
    assert received[..|received|] == received;
  }

  /** The response body, which owns the receiver, has not been dropped. */
  ghost predicate Connected(h: State)
  {
    h.reader.Some? && h.reader.value in h.w.cells && Open(h.w.cells[h.reader.value].slot.chan)
  }

  /** The entry, which owns the sender of the notice, is on the bus. */
  ghost predicate Listed(h: State) { Connected(h) && h.w.cells[h.reader.value].slot.entry.Some? }

  /**
   The receive loop looks for the notice before it takes an envelope, and stops
   when the notice has fired or its sender is gone with the entry.  The entry can
   still go between the look and the taking.
   */
  ghost predicate Enabled(h: State, act: Act)
  {
    match act
    case Record(p, env) => p !in h.awaiting && p !in h.w.pubs && env.eventId !in h.known
    case FanOutAsync(p, order) => p in h.awaiting && BusRuns.Enabled(h.w, Claim(p, h.awaiting[p], order))
    case FanOutSync(p) => p in h.awaiting
    case Bus(a) => !a.Claim? && !a.TryPublish? && BusRuns.Enabled(h.w, a) && (a.Pop? ==> Some(a.id) != h.reader)
    case ReaderSubscribes(chan) => h.reader.None? && FreshChannel(chan)
    case ReaderSnapshots => h.reader.Some? && h.snapshot.None?
    case ReaderReplaysOne => Connected(h) && h.snapshot.Some? && h.done < |h.snapshot.value|
    case ReaderLooks => Listed(h) && h.snapshot.Some? && h.done == |h.snapshot.value|
    case ReaderReadsLive =>
      && h.looked && Connected(h) && h.snapshot.Some? && h.done == |h.snapshot.value|
      && Content(h.w.cells[h.reader.value].slot.chan) != []
  }

  ghost function FannedOut(h: State, p: PubId, a: Action): State
    requires p in h.awaiting && BusRuns.Enabled(h.w, a)
  {
    h.(w := Step(h.w, a), awaiting := h.awaiting - {p},
       missed := if h.reader.None? then h.missed + {h.awaiting[p]} else h.missed)
  }

  ghost function Do(h: State, act: Act): State
    requires Enabled(h, act)
  {
    match act
    case Record(p, env) =>
      h.(known := h.known[env.eventId := env], awaiting := h.awaiting[p := env],
         ring := if env.streamId == h.stream then Streams.Recorded(h.ring, h.capacity, env) else h.ring)
    case FanOutAsync(p, order) => FannedOut(h, p, Claim(p, h.awaiting[p], order))
    case FanOutSync(p) => FannedOut(h, p, TryPublish(h.awaiting[p]))
    case Bus(a) => h.(w := Step(h.w, a))
    case ReaderSubscribes(chan) =>
      h.(w := Step(h.w, Subscribe(OnStream(h.stream), None, chan)), reader := Some(h.w.nextId))
    case ReaderSnapshots => h.(snapshot := Some(Streams.Newer(h.ring, 0)), early := h.known)
    case ReaderReplaysOne =>
      h.(done := h.done + 1, replayed := h.replayed + {h.snapshot.value[h.done].eventId})
    case ReaderLooks => h.(looked := true)
    case ReaderReadsLive =>
      var r := h.reader.value;
      var e := Content(h.w.cells[r].slot.chan)[0];
      var s := Sift(Sieve(h.replayed, h.live), e);
      h.(w := Step(h.w, Pop(r)), replayed := s.replayed, live := s.lines, looked := false)
  }

  /** A step that is not enabled changes nothing. */
  ghost function Try(h: State, act: Act): State { if Enabled(h, act) then Do(h, act) else h }

  ghost function Run(h: State, acts: seq<Act>): State
    decreases |acts|
  {
    if acts == [] then h else Run(Try(h, acts[0]), acts[1..])
  }

  // ---- Invariant ----

  ghost predicate Known(known: map<EventId, Envelope>, e: Envelope) { e.eventId in known && known[e.eventId] == e }

  ghost predicate AllKnown(known: map<EventId, Envelope>, s: seq<Envelope>) { forall e :: e in s ==> Known(known, e) }

  /** Envelopes recorded but not yet fanned out. */
  ghost function Pending(awaiting: map<PubId, Envelope>): set<Envelope> { set p | p in awaiting :: awaiting[p] }

  ghost predicate PublishersInv(h: State)
  {
    && WellFormed(h.w)
    && DifferentEnvelopes(h.w.pubs)
    && (forall p :: p in h.w.pubs ==> Known(h.known, h.w.pubs[p].env) && h.w.pubs[p].env !in Pending(h.awaiting))
    && (forall p :: p in h.awaiting ==> Known(h.known, h.awaiting[p]) && p !in h.w.pubs)
    && (forall p, q :: p in h.awaiting && q in h.awaiting && p != q ==> h.awaiting[p] != h.awaiting[q])
    && Distinct(h.ring) && AllKnown(h.known, h.ring)
  }

  ghost predicate FeedInv(h: State)
  {
    h.reader.Some? ==>
      && FlowInv(h.w, h.reader.value, Pending(h.awaiting))
      && AllKnown(h.known, h.w.cells[h.reader.value].hist.offered)
  }

  /**
   The snapshot lines go out first; then each popped envelope is a live line, or the second
   sight of a snapshot line.
   */
  ghost predicate ReaderInv(h: State)
  {
    && (h.reader.None? ==> h.snapshot.None?)
    && (h.snapshot.None? ==> h.done == 0 && h.replayed == {} && h.live == [] && !h.looked)
    && (h.reader.Some? && h.reader.value in h.w.cells ==>
          var popped := h.w.cells[h.reader.value].hist.popped;
          if h.snapshot.None? then popped == [] else EmissionInv(h, h.snapshot.value, popped))
  }

  ghost predicate EmissionInv(h: State, snapshot: seq<Envelope>, popped: seq<Envelope>)
  {
    && Distinct(snapshot) && AllKnown(h.known, snapshot)
    && h.done <= |snapshot|
    && (h.done < |snapshot| ==> popped == [] && h.live == [])
    && Distinct(h.live)
    && (forall e :: e in h.live <==> e in popped && e !in snapshot)
    && (forall e :: e in snapshot[..h.done] ==> (e.eventId in h.replayed <==> e !in popped))
    && (forall id :: id in h.replayed ==>
          id in h.known && h.known[id].eventId == id && h.known[id] in snapshot[..h.done])
    && (h.done == |snapshot| ==>
          Sieve(h.replayed, snapshot + h.live) == SiftAll(Sieve(Ids(snapshot), snapshot), popped))
  }

  ghost predicate Inv(h: State) { PublishersInv(h) && FeedInv(h) && ReaderInv(h) }

  // ---- Recording ----

  lemma RecordPending(h: State, act: Act)
    requires act.Record? && Enabled(h, act)
    ensures Pending(Do(h, act).awaiting) == Pending(h.awaiting) + {act.env}
  {
    var h' := Do(h, act);
    assert h'.awaiting[act.p] == act.env;
    forall e | e in Pending(h.awaiting) ensures e in Pending(h'.awaiting) {
      var p :| p in h.awaiting && h.awaiting[p] == e;
      assert h'.awaiting[p] == e;
    }
  }

  lemma RecordRing(h: State, act: Act)
    requires PublishersInv(h) && act.Record? && Enabled(h, act)
    ensures Distinct(Do(h, act).ring) && AllKnown(Do(h, act).known, Do(h, act).ring)
  {
    assert !Known(h.known, act.env) && act.env !in h.ring;
    forall e | e in Do(h, act).ring ensures Known(Do(h, act).known, e) { assert e in h.ring || e == act.env; }
  }

  lemma RecordKeepsPublishers(h: State, act: Act)
    requires PublishersInv(h) && act.Record? && Enabled(h, act)
    ensures PublishersInv(Do(h, act))
  {
    RecordPending(h, act);
    RecordRing(h, act);
    var h' := Do(h, act);
    forall p | p in h.w.pubs ensures Known(h'.known, h.w.pubs[p].env) && h.w.pubs[p].env !in Pending(h'.awaiting) {
      assert Known(h.known, h.w.pubs[p].env);
    }
    forall p | p in h.awaiting
      ensures Known(h'.known, h.awaiting[p]) && h.awaiting[p] != act.env
    {
      assert Known(h.known, h.awaiting[p]);
    }
  }

  lemma RecordKeepsFeed(h: State, act: Act)
    requires PublishersInv(h) && FeedInv(h) && act.Record? && Enabled(h, act)
    ensures FeedInv(Do(h, act))
  {
    if h.reader.Some? {
      RecordPending(h, act);
      var r := h.reader.value;
      var c := h.w.cells[r];
      forall e | e in c.hist.offered ensures e !in Pending(h.awaiting) + {act.env} { assert Known(h.known, e); }
      forall p | p in h.w.pubs ensures PubFlow(h.w.pubs[p], c, r, Pending(h.awaiting) + {act.env}) {
        assert PubFlow(h.w.pubs[p], c, r, Pending(h.awaiting)) && Known(h.known, h.w.pubs[p].env);
      }
    }
  }

  /** More known envelopes do not disturb the reader. */
  lemma RecordKeepsReader(h: State, act: Act)
    requires ReaderInv(h) && act.Record? && Enabled(h, act)
    ensures ReaderInv(Do(h, act))
  {
    if h.reader.Some? && h.snapshot.Some? && h.reader.value in h.w.cells {
      assert forall e :: Known(h.known, e) ==> Known(Do(h, act).known, e);
    }
  }

  // ---- Bus steps ----

  /** The bus part of a fan-out or of any other bus step. */
  ghost predicate BusAct(act: Act) { act.FanOutAsync? || act.FanOutSync? || act.Bus? }

  ghost function ActionOf(h: State, act: Act): Action
    requires BusAct(act) && Enabled(h, act)
  {
    match act
    case FanOutAsync(p, order) => Claim(p, h.awaiting[p], order)
    case FanOutSync(p) => TryPublish(h.awaiting[p])
    case Bus(a) => a
  }

  lemma FanOutPending(h: State, act: Act)
    requires PublishersInv(h) && BusAct(act) && Enabled(h, act)
    ensures Do(h, act).w == Step(h.w, ActionOf(h, act)) && BusRuns.Enabled(h.w, ActionOf(h, act))
    ensures FansOutPending(ActionOf(h, act), Pending(h.awaiting))
    ensures Pending(Do(h, act).awaiting) == PendingAfter(ActionOf(h, act), Pending(h.awaiting))
  {
    if !act.Bus? {
      var h' := Do(h, act);
      assert h.awaiting[act.p] in Pending(h.awaiting);
      forall e | e in Pending(h.awaiting) && e != h.awaiting[act.p] ensures e in Pending(h'.awaiting) {
        var p :| p in h.awaiting && h.awaiting[p] == e;
        assert p in h'.awaiting;
      }
    }
  }

  lemma PublisherAfter(h: State, act: Act, p: PubId)
    requires PublishersInv(h) && BusAct(act) && Enabled(h, act) && p in Do(h, act).w.pubs
    ensures Known(Do(h, act).known, Do(h, act).w.pubs[p].env)
    ensures Do(h, act).w.pubs[p].env !in Pending(Do(h, act).awaiting)
    ensures p !in Do(h, act).awaiting
  {
    FanOutPending(h, act);
    if p in h.w.pubs { SameEnvelope(h.w, ActionOf(h, act), p); }
  }

  lemma BusKeepsPublishers(h: State, act: Act)
    requires PublishersInv(h) && BusAct(act) && Enabled(h, act)
    ensures PublishersInv(Do(h, act))
  {
    FanOutPending(h, act);
    var h', a := Do(h, act), ActionOf(h, act);
    StepKeepsWellFormed(h.w, a);
    forall p | p in h'.w.pubs
      ensures Known(h'.known, h'.w.pubs[p].env) && h'.w.pubs[p].env !in Pending(h'.awaiting) && p !in h'.awaiting
    {
      PublisherAfter(h, act, p);
    }
  }

  lemma OffersAfter(w: World, a: Action, r: SubId, e: Envelope)
    requires BusRuns.Enabled(w, a) && r in w.cells && r < w.nextId
    requires r in Step(w, a).cells && e in Step(w, a).cells[r].hist.offered
    ensures e in w.cells[r].hist.offered || ((a.Claim? || a.TryPublish?) && e == a.env)
  {
    match a
    case TryPublish(env) => VisitOffers(w.cells[r], env);
    case Claim(_, env, _) => VisitOffers(w.cells[r], env);
    case _ =>
  }

  lemma NewOffers(w: World, a: Action, r: SubId, e: Envelope)
    requires BusRuns.Enabled(w, a) && r in w.cells && r < w.nextId && e in Step(w, a).cells[r].hist.offered
    ensures e in w.cells[r].hist.offered || w.cells[r].hist.wants(e)
  {
    match a
    case TryPublish(env) => VisitOffers(w.cells[r], env);
    case Claim(_, env, _) => VisitOffers(w.cells[r], env);
    case _ =>
  }

  lemma BusKeepsFeed(h: State, act: Act)
    requires PublishersInv(h) && FeedInv(h) && BusAct(act) && Enabled(h, act)
    ensures FeedInv(Do(h, act))
  {
    if h.reader.Some? {
      FanOutPending(h, act);
      var h', a, r := Do(h, act), ActionOf(h, act), h.reader.value;
      StepKeepsFlow(h.w, a, r, Pending(h.awaiting));
      forall e | e in h'.w.cells[r].hist.offered ensures Known(h'.known, e) { OffersAfter(h.w, a, r, e); }
    }
  }

  lemma PoppedStays(w: World, a: Action, r: SubId)
    requires BusRuns.Enabled(w, a) && r in w.cells && r < w.nextId && a != Pop(r)
    ensures r in Step(w, a).cells && Step(w, a).cells[r].hist.popped == w.cells[r].hist.popped
  {
  }

  lemma BusKeepsReader(h: State, act: Act)
    requires PublishersInv(h) && FeedInv(h) && ReaderInv(h) && BusAct(act) && Enabled(h, act)
    ensures ReaderInv(Do(h, act))
  {
    if h.reader.Some? {
      FanOutPending(h, act);
      PoppedStays(h.w, ActionOf(h, act), h.reader.value);
      if h.snapshot.Some? { assert EmissionInv(Do(h, act), h.snapshot.value, h.w.cells[h.reader.value].hist.popped); }
    }
  }

  // ---- Reader steps ----

  lemma SubscribeKeepsInv(h: State, act: Act)
    requires Inv(h) && act.ReaderSubscribes? && Enabled(h, act)
    ensures Inv(Do(h, act))
  {
    var h' := Do(h, act);
    var a := Subscribe(OnStream(h.stream), None, act.chan);
    var r := h.w.nextId;
    StepKeepsWellFormed(h.w, a);
    forall p | p in h'.w.pubs ensures PubFlow(h'.w.pubs[p], h'.w.cells[r], r, Pending(h'.awaiting)) {
      assert TodoInv(h.w.cells, h.w.pubs[p].todo);
    }
    assert Flow(h'.w.cells[r]) == [];
  }

  lemma SnapshotKeepsInv(h: State, act: Act)
    requires Inv(h) && act.ReaderSnapshots? && Enabled(h, act)
    ensures Inv(Do(h, act))
  {
    var h' := Do(h, act);
    NewerIsDistinct(h.ring, 0);
    Streams.NewerIsFilter(h.ring, 0);
    assert EmissionInv(h', h'.snapshot.value, []);
  }

  lemma {:induction false} NewerIsDistinct(ring: seq<Envelope>, after: nat)
    requires Distinct(ring)
    ensures Distinct(Streams.Newer(ring, after))
  {
    if ring != [] {
      var init, last := ring[..|ring| - 1], ring[|ring| - 1];
      assert ring == init + [last];
      NewerIsDistinct(init, after);
      Streams.NewerIsFilter(init, after);
      assert last !in init;
    }
  }

  lemma ReplayKeepsInv(h: State, act: Act)
    requires Inv(h) && act.ReaderReplaysOne? && Enabled(h, act)
    ensures Inv(Do(h, act))
  {
    var h' := Do(h, act);
    ReplayOneKeepsEmission(h, h', h.snapshot.value, h.w.cells[h.reader.value].hist.popped);
  }

  lemma ReplayOneKeepsEmission(h: State, h': State, s: seq<Envelope>, popped: seq<Envelope>)
    requires EmissionInv(h, s, popped) && h.done < |s|
    requires h' == h.(done := h.done + 1, replayed := h.replayed + {s[h.done].eventId})
    ensures EmissionInv(h', s, popped)
  {
    assert s[..h'.done] == s[..h.done] + [s[h.done]];
    assert Known(h.known, s[h.done]) && popped == [];
    forall e | e in s[..h'.done] ensures e.eventId in h'.replayed { assert e in s[..h.done] || e == s[h.done]; }
    forall id | id in h'.replayed ensures id in h.known && h.known[id] in s[..h'.done] && h.known[id].eventId == id {
      if id in h.replayed { assert h.known[id] in s[..h.done]; }
    }
    if h'.done == |s| { AllReplayed(h', s); }
  }

  lemma AllReplayed(h: State, s: seq<Envelope>)
    requires AllKnown(h.known, s) && h.done == |s| && h.live == []
    requires forall e :: e in s[..h.done] ==> e.eventId in h.replayed
    requires forall id :: id in h.replayed ==> id in h.known && h.known[id] in s[..h.done]
    requires forall id :: id in h.replayed && id in h.known ==> h.known[id].eventId == id
    ensures Sieve(h.replayed, s + h.live) == Sieve(Ids(s), s)
  {
    assert s[..h.done] == s && s + h.live == s;
    assert h.replayed == Ids(s);
  }

  /** Reading an envelope that the snapshot already carried emits nothing; any other one is new. */
  lemma ReadLiveKeepsEmission(h: State, h': State, s: seq<Envelope>, popped: seq<Envelope>, e: Envelope)
    requires EmissionInv(h, s, popped) && h.done == |s| && Known(h.known, e)
    requires e !in popped && h'.known == h.known && h'.done == h.done
    requires if e.eventId in h.replayed then h'.replayed == h.replayed - {e.eventId} && h'.live == h.live
             else h'.replayed == h.replayed && h'.live == h.live + [e]
    ensures EmissionInv(h', s, popped + [e])
  {
    assert s[..h.done] == s;
    assert (popped + [e])[..|popped|] == popped;
    assert s + (h.live + [e]) == (s + h.live) + [e];
    if e.eventId in h.replayed {
      assert e in s;
      forall x | x in s ensures x.eventId in h'.replayed <==> x !in popped + [e] { assert Known(h.known, x); }
    } else {
      assert e !in s && e !in h.live;
    }
  }

  lemma ReadLiveKeepsInv(h: State, act: Act)
    requires Inv(h) && act.ReaderReadsLive? && Enabled(h, act)
    ensures Inv(Do(h, act))
  {
    var r := h.reader.value;
    var c := h.w.cells[r];
    var e := Content(c.slot.chan)[0];
    FrontIsNew(c.hist.popped, Content(c.slot.chan));
    assert Known(h.known, e);
    PopEffect(h.w, r);
    StepKeepsFlow(h.w, Pop(r), r, Pending(h.awaiting));
    ReadLiveKeepsEmission(h, Do(h, act), h.snapshot.value, c.hist.popped, e);
  }

  lemma LookKeepsInv(h: State, act: Act)
    requires Inv(h) && act.ReaderLooks? && Enabled(h, act)
    ensures Inv(Do(h, act))
  {
    assert EmissionInv(Do(h, act), h.snapshot.value, h.w.cells[h.reader.value].hist.popped);
  }

  lemma FrontIsNew(popped: seq<Envelope>, queue: seq<Envelope>)
    requires Distinct(popped + queue) && queue != []
    ensures queue[0] in popped + queue && queue[0] !in popped
  {
    assert (popped + queue)[|popped|] == queue[0];
    assert forall i :: 0 <= i < |popped| ==> (popped + queue)[i] == popped[i];
  }

  lemma PopEffect(w: World, r: SubId)
    requires r in w.cells && Content(w.cells[r].slot.chan) != []
    ensures var w' := Step(w, Pop(r));
            && w'.pubs == w.pubs && w'.nextId == w.nextId && r in w'.cells
            && w'.cells[r].hist ==
               w.cells[r].hist.(popped := w.cells[r].hist.popped + [Content(w.cells[r].slot.chan)[0]])
  {
  }

  lemma DoKeepsInv(h: State, act: Act)
    requires Inv(h) && Enabled(h, act)
    ensures Inv(Do(h, act))
  {
    match act
    case Record(_, _) => RecordKeepsPublishers(h, act); RecordKeepsFeed(h, act); RecordKeepsReader(h, act);
    case ReaderSubscribes(_) => SubscribeKeepsInv(h, act);
    case ReaderSnapshots => SnapshotKeepsInv(h, act);
    case ReaderReplaysOne => ReplayKeepsInv(h, act);
    case ReaderLooks => LookKeepsInv(h, act);
    case ReaderReadsLive => ReadLiveKeepsInv(h, act);
    case _ => BusKeepsPublishers(h, act); BusKeepsFeed(h, act); BusKeepsReader(h, act);
  }

  lemma {:induction false} RunKeepsInv(h: State, acts: seq<Act>)
    requires Inv(h)
    ensures Inv(Run(h, acts))
    decreases |acts|
  {
    if acts != [] {
      if Enabled(h, acts[0]) { DoKeepsInv(h, acts[0]); }
      RunKeepsInv(Try(h, acts[0]), acts[1..]);
    }
  }

  lemma EmittedIsDistinct(h: State)
    requires Inv(h)
    ensures h.snapshot.Some? ==> h.done <= |h.snapshot.value|
    ensures Distinct(Emitted(h)) && DistinctIds(Emitted(h)) && AllKnown(h.known, Emitted(h))
  {
    if h.snapshot.Some? {
      assert FeedInv(h);
      var s, c := h.snapshot.value, h.w.cells[h.reader.value];
      assert EmissionInv(h, s, c.hist.popped);
      forall e | e in h.live ensures e !in s[..h.done] && Known(h.known, e) { assert e in Flow(c); }
      KnownIdsDiffer(h.known, Emitted(h));
    }
  }

  /** No two lines carry the same event id. */
  ghost predicate DistinctIds(lines: seq<Envelope>)
  {
    forall i, j :: 0 <= i < j < |lines| ==> lines[i].eventId != lines[j].eventId
  }

  lemma KnownIdsDiffer(known: map<EventId, Envelope>, lines: seq<Envelope>)
    requires AllKnown(known, lines) && Distinct(lines)
    ensures DistinctIds(lines)
  {
    forall i | 0 <= i < |lines| ensures Known(known, lines[i]) { assert lines[i] in lines; }
  }

  /**
   No event is emitted twice: for every interleaving and every slow-consumer policy,
   cancelled publishers included.
   */
  lemma NoEventTwice(stream: StreamId, capacity: nat, acts: seq<Act>)
    ensures var h := Run(Start(stream, capacity), acts);
            (h.snapshot.Some? ==> h.done <= |h.snapshot.value|) && DistinctIds(Emitted(h))
  {
    RunKeepsInv(Start(stream, capacity), acts);
    EmittedIsDistinct(Run(Start(stream, capacity), acts));
  }

  /** The lines are what the two loops of the response body produce from the snapshot and the popped envelopes. */
  lemma LinesAreTheResponseBody(h: State)
    requires Inv(h) && h.snapshot.Some? && h.done == |h.snapshot.value|
    ensures h.reader.Some? && h.reader.value in h.w.cells
    ensures Emitted(h) ==
            SiftAll(Sieve(Ids(h.snapshot.value), h.snapshot.value), h.w.cells[h.reader.value].hist.popped).lines
  {
    var s := h.snapshot.value;
    assert EmissionInv(h, s, h.w.cells[h.reader.value].hist.popped) && s[..h.done] == s;
  }

  // ---- The same steps on the cache object ----

  /** The snapshot is what the replay cache answers. */
  method TakeSnapshot(cache: Streams.ReplayCache, stream: StreamId, ghost h: State) returns (replay: seq<Envelope>)
    requires h.stream == stream && cache.Ring(stream) == h.ring && Enabled(h, ReaderSnapshots)
    ensures Do(h, ReaderSnapshots).snapshot == Some(replay)
  {
    replay := cache.EventsAfter(stream, 0);
  }

  /** Recording on the cache is the publisher's first step. */
  method TakeRecord(cache: Streams.ReplayCache, env: Envelope, ghost p: PubId, ghost h: State)
    requires cache.Ring(h.stream) == h.ring && cache.capacity == h.capacity && Enabled(h, Record(p, env))
    modifies cache`rings, cache.registry`byEvent
    ensures cache.Ring(h.stream) == Do(h, Record(p, env)).ring
  {
    cache.Record(env);
  }

  // ---- Exactly once under Backpressure ----

  /**
   A Backpressure reader that stays; once it is there, publishes on its stream
   are asynchronous and no publisher with a claim on it is cancelled.
   */
  ghost predicate Faithful(h: State, act: Act)
  {
    match act
    case FanOutSync(p) => h.reader.Some? && p in h.awaiting ==> h.awaiting[p].streamId != h.stream
    case Bus(a) =>
      h.reader.Some? ==>
        && a != Unsubscribe(h.reader.value) && a != DropReceiver(h.reader.value)
        && (a.Cancel? && a.p in h.w.pubs ==> h.reader.value !in h.w.pubs[a.p].todo)
    case ReaderSubscribes(chan) => chan.Mpsc? && chan.policy == Backpressure
    case _ => true
  }

  ghost predicate FaithfulRun(h: State, acts: seq<Act>)
    decreases |acts|
  {
    acts == [] || (Faithful(h, acts[0]) && FaithfulRun(Try(h, acts[0]), acts[1..]))
  }

  ghost predicate MissedInv(h: State)
  {
    && (forall e :: e in h.missed ==> Known(h.known, e) && e !in Pending(h.awaiting))
    && (h.snapshot.Some? ==> forall e :: e in h.missed ==> e.eventId in h.early)
    && (h.reader.Some? ==>
          && LosslessInv(h.w, h.reader.value)
          && h.w.cells[h.reader.value].hist.wants == OnStream(h.stream)
          && (forall e :: e in h.w.cells[h.reader.value].hist.offered ==> e !in h.missed && e.streamId == h.stream))
    && (forall e :: Known(h.known, e) && e.streamId == h.stream ==> Accounted(h, e))
  }

  /**
   Every recorded envelope of the stream is yet to be fanned out, or was missed, or has
   been offered to the reader.
   */
  ghost predicate Accounted(h: State, e: Envelope)
  {
    || e in Pending(h.awaiting)
    || e in h.missed
    || (h.reader.Some? && h.reader.value in h.w.cells && e in h.w.cells[h.reader.value].hist.offered)
  }

  lemma RecordKeepsMissed(h: State, act: Act)
    requires Inv(h) && MissedInv(h) && act.Record? && Enabled(h, act)
    ensures MissedInv(Do(h, act))
  {
    RecordPending(h, act);
    var h' := Do(h, act);
    forall e | e in h.missed ensures Known(h'.known, e) && e !in Pending(h'.awaiting) { assert Known(h.known, e); }
    forall e | Known(h'.known, e) && e.streamId == h.stream ensures Accounted(h', e) {
      if e != act.env { assert Known(h.known, e) && Accounted(h, e); }
    }
  }

  lemma BusKeepsLossless(h: State, act: Act)
    requires Inv(h) && MissedInv(h) && BusAct(act) && Enabled(h, act) && Faithful(h, act) && h.reader.Some?
    ensures LosslessInv(Do(h, act).w, h.reader.value)
    ensures Do(h, act).w.cells[h.reader.value].hist.wants == OnStream(h.stream)
  {
    FanOutPending(h, act);
    StepKeepsLossless(h.w, ActionOf(h, act), h.reader.value);
    WantsStays(h.w, ActionOf(h, act), h.reader.value);
  }

  lemma WantsStays(w: World, a: Action, r: SubId)
    requires BusRuns.Enabled(w, a) && r in w.cells && r < w.nextId
    ensures r in Step(w, a).cells && Step(w, a).cells[r].hist.wants == w.cells[r].hist.wants
  {
  }

  lemma OfferedStays(h: State, act: Act, e: Envelope)
    requires Inv(h) && MissedInv(h) && BusAct(act) && Enabled(h, act) && Known(h.known, e) && e.streamId == h.stream
    ensures Accounted(Do(h, act), e)
  {
    FanOutPending(h, act);
    assert Accounted(h, e);
    if h.reader.Some? {
      VisitedIsOffered(h.w, ActionOf(h, act), h.reader.value, e);
    }
  }

  lemma VisitedIsOffered(w: World, a: Action, r: SubId, e: Envelope)
    requires WellFormed(w) && BusRuns.Enabled(w, a) && r in w.cells
    ensures r in Step(w, a).cells
    ensures e in w.cells[r].hist.offered || ((a.Claim? || a.TryPublish?) && a.env == e && w.cells[r].hist.wants(e)) ==>
              e in Step(w, a).cells[r].hist.offered
  {
    if e in w.cells[r].hist.offered { OffersGrow(w, a, r, e); }
    if a.Claim? || a.TryPublish? { VisitOffers(w.cells[r], a.env); }
  }

  lemma MissedStays(h: State, act: Act, e: Envelope)
    requires Inv(h) && MissedInv(h) && BusAct(act) && Enabled(h, act) && e in Do(h, act).missed
    ensures Known(h.known, e) && e !in Pending(Do(h, act).awaiting)
    ensures h.reader.Some? && h.reader.value in Do(h, act).w.cells ==>
              e !in Do(h, act).w.cells[h.reader.value].hist.offered
  {
    FanOutPending(h, act);
    if h.reader.Some? && h.reader.value in Do(h, act).w.cells && e in Do(h, act).w.cells[h.reader.value].hist.offered {
      OffersAfter(h.w, ActionOf(h, act), h.reader.value, e);
    }
  }

  lemma BusKeepsMissed(h: State, act: Act)
    requires Inv(h) && MissedInv(h) && BusAct(act) && Enabled(h, act) && Faithful(h, act)
    ensures MissedInv(Do(h, act))
  {
    FanOutPending(h, act);
    var h' := Do(h, act);
    forall e | e in h'.missed
      ensures Known(h'.known, e) && e !in Pending(h'.awaiting)
      ensures h.reader.Some? && h.reader.value in h'.w.cells ==> e !in h'.w.cells[h.reader.value].hist.offered
    {
      MissedStays(h, act, e);
    }
    if h.reader.Some? {
      BusKeepsLossless(h, act);
      forall e | e in h'.w.cells[h.reader.value].hist.offered ensures e.streamId == h.stream {
        NewOffers(h.w, ActionOf(h, act), h.reader.value, e);
      }
    }
    forall e | Known(h'.known, e) && e.streamId == h.stream ensures Accounted(h', e) { OfferedStays(h, act, e); }
  }

  lemma SubscribeKeepsMissed(h: State, act: Act)
    requires Inv(h) && MissedInv(h) && act.ReaderSubscribes? && Enabled(h, act) && Faithful(h, act)
    ensures MissedInv(Do(h, act))
  {
    var h' := Do(h, act);
    forall e | Known(h'.known, e) && e.streamId == h.stream
      ensures Accounted(h', e)
    {
      assert Known(h.known, e) && Accounted(h, e);
    }
    forall p | p in h'.w.pubs ensures Uncancelled(h'.w.pubs[p], h.w.nextId) {
      assert TodoInv(h.w.cells, h.w.pubs[p].todo);
      assert h.w.pubs[p].todo != [] ==> h.w.pubs[p].todo[0] in h.w.pubs[p].todo;
    }
  }

  /** Steps of the reader alone leave the accounts as they are. */
  lemma SameAccounts(h: State, h': State)
    requires MissedInv(h) && h.reader.Some?
    requires h'.known == h.known && h'.awaiting == h.awaiting && h'.missed == h.missed && h'.reader == h.reader
             && h'.stream == h.stream && h'.w.pubs == h.w.pubs
    requires LosslessInv(h'.w, h.reader.value)
    requires h'.w.cells[h.reader.value].hist.offered == h.w.cells[h.reader.value].hist.offered
    requires h'.w.cells[h.reader.value].hist.wants == h.w.cells[h.reader.value].hist.wants
    requires h'.snapshot.Some? ==> forall e :: e in h.missed ==> e.eventId in h'.early
    ensures MissedInv(h')
  {
    assert Pending(h'.awaiting) == Pending(h.awaiting);
    forall e | e in h'.missed ensures Known(h'.known, e) { assert Known(h.known, e); }
    forall e | Known(h'.known, e) && e.streamId == h.stream
      ensures Accounted(h', e)
    {
      assert Known(h.known, e) && Accounted(h, e);
    }
  }

  lemma ReadLiveKeepsMissed(h: State, act: Act)
    requires PublishersInv(h) && MissedInv(h) && act.ReaderReadsLive? && Enabled(h, act)
    ensures MissedInv(Do(h, act))
  {
    PopEffect(h.w, h.reader.value);
    StepKeepsLossless(h.w, Pop(h.reader.value), h.reader.value);
    SameAccounts(h, Do(h, act));
  }

  lemma LocalStepKeepsMissed(h: State, act: Act)
    requires MissedInv(h) && (h.reader.None? ==> h.snapshot.None?)
    requires (act.ReaderSnapshots? || act.ReaderReplaysOne? || act.ReaderLooks?) && Enabled(h, act)
    ensures MissedInv(Do(h, act))
  {
    forall e | e in h.missed ensures e.eventId in Do(h, act).early { assert Known(h.known, e); }
    SameAccounts(h, Do(h, act));
  }

  lemma DoKeepsMissed(h: State, act: Act)
    requires Inv(h) && MissedInv(h) && Enabled(h, act) && Faithful(h, act)
    ensures MissedInv(Do(h, act))
  {
    match act
    case Record(_, _) => RecordKeepsMissed(h, act);
    case ReaderSubscribes(_) => SubscribeKeepsMissed(h, act);
    case ReaderReadsLive => ReadLiveKeepsMissed(h, act);
    case ReaderSnapshots => LocalStepKeepsMissed(h, act);
    case ReaderReplaysOne => LocalStepKeepsMissed(h, act);
    case ReaderLooks => LocalStepKeepsMissed(h, act);
    case _ => BusKeepsMissed(h, act);
  }

  lemma {:induction false} RunKeepsMissed(h: State, acts: seq<Act>)
    requires Inv(h) && MissedInv(h) && FaithfulRun(h, acts)
    ensures Inv(Run(h, acts)) && MissedInv(Run(h, acts))
    decreases |acts|
  {
    if acts != [] {
      if Enabled(h, acts[0]) {
        DoKeepsInv(h, acts[0]);
        DoKeepsMissed(h, acts[0]);
      }
      RunKeepsMissed(Try(h, acts[0]), acts[1..]);
    }
  }

  /**
   Nothing is under way: the snapshot is out, the channel is empty and no publisher of the
   stream is between its steps.
   */
  ghost predicate Settled(h: State)
  {
    && h.reader.Some? && h.reader.value in h.w.cells
    && h.snapshot.Some? && h.done == |h.snapshot.value|
    && Content(h.w.cells[h.reader.value].slot.chan) == []
    && (forall p :: p in h.awaiting ==> h.awaiting[p].streamId != h.stream)
    && (forall p :: p in h.w.pubs ==> h.reader.value !in h.w.pubs[p].todo)
  }

  lemma SettledEmission(h: State, e: Envelope)
    requires Inv(h) && MissedInv(h) && Settled(h) && Known(h.known, e) && e.streamId == h.stream
    ensures e in Emitted(h) <==> e in h.snapshot.value || e !in h.missed
    ensures e.eventId !in h.early ==> e in Emitted(h)
  {
    var r, s := h.reader.value, h.snapshot.value;
    var c := h.w.cells[r];
    assert EmissionInv(h, s, c.hist.popped) && s[..h.done] == s;
    assert Flow(c) == c.hist.popped;
    assert Accounted(h, e);
    if e in c.hist.offered {
      assert Reaches(h.w, r, e);
    }
  }

  // ---- What was recorded and fanned out, from the steps alone ----

  /** The envelopes of the stream that the run records, in order. */
  ghost function Log(h: State, acts: seq<Act>): seq<Envelope>
    decreases |acts|
  {
    if acts == [] then []
    else LoggedNow(h, acts[0]) + Log(Try(h, acts[0]), acts[1..])
  }

  ghost function LoggedNow(h: State, act: Act): seq<Envelope>
  {
    if Enabled(h, act) && act.Record? && act.env.streamId == h.stream then [act.env] else []
  }

  /** The envelopes that the run fans out while the reader is subscribed. */
  ghost function FannedLate(h: State, acts: seq<Act>): set<Envelope>
    decreases |acts|
  {
    if acts == [] then {}
    else LateNow(h, acts[0]) + FannedLate(Try(h, acts[0]), acts[1..])
  }

  ghost function LateNow(h: State, act: Act): set<Envelope>
  {
    if Enabled(h, act) && (act.FanOutAsync? || act.FanOutSync?) && h.reader.Some? then {h.awaiting[act.p]} else {}
  }

  lemma LogGrows(log: seq<Envelope>, now: seq<Envelope>, rest: seq<Envelope>)
    ensures (log + now) + rest == log + (now + rest) && log + [] == log
  {
  }

  lemma RingStep(h: State, act: Act, log: seq<Envelope>)
    requires h.ring == Streams.Suffix(log, Streams.RingSize(h.capacity))
    ensures var h' := Try(h, act);
            && h'.stream == h.stream && h'.capacity == h.capacity
            && h'.ring == Streams.Suffix(log + LoggedNow(h, act), Streams.RingSize(h.capacity))
  {
    if LoggedNow(h, act) == [] {
      LogGrows(log, [], []);
    } else {
      Streams.RecordKeepsSuffix(log, h.capacity, act.env);
    }
  }

  /** The ring holds the last `max(capacity, 1)` recorded envelopes of the stream. */
  lemma {:induction false} RingIsEndOfLog(h: State, acts: seq<Act>, log: seq<Envelope>)
    requires h.ring == Streams.Suffix(log, Streams.RingSize(h.capacity))
    ensures var h' := Run(h, acts);
            && h'.stream == h.stream && h'.capacity == h.capacity
            && h'.ring == Streams.Suffix(log + Log(h, acts), Streams.RingSize(h.capacity))
    decreases |acts|
  {
    LogGrows(log, [], []);
    if acts != [] {
      var h1, now := Try(h, acts[0]), LoggedNow(h, acts[0]);
      RingStep(h, acts[0], log);
      LogGrows(log, now, Log(h1, acts[1..]));
      RingIsEndOfLog(h1, acts[1..], log + now);
    }
  }

  lemma KnownStep(h: State, act: Act, e: Envelope)
    ensures Known(Try(h, act).known, e) && e.streamId == h.stream <==>
            (Known(h.known, e) && e.streamId == h.stream) || e in LoggedNow(h, act)
    ensures Try(h, act).stream == h.stream
  {
  }

  /** The recorded envelopes of the stream are those of the log. */
  lemma {:induction false} KnownIsLogged(h: State, acts: seq<Act>, log: seq<Envelope>)
    requires forall e :: Known(h.known, e) && e.streamId == h.stream <==> e in log
    ensures forall e :: Known(Run(h, acts).known, e) && e.streamId == h.stream <==> e in log + Log(h, acts)
    ensures Run(h, acts).stream == h.stream
    decreases |acts|
  {
    LogGrows(log, [], []);
    if acts != [] {
      var h1, now := Try(h, acts[0]), LoggedNow(h, acts[0]);
      LogGrows(log, now, Log(h1, acts[1..]));
      forall e ensures Known(h1.known, e) && e.streamId == h.stream <==> e in log + now { KnownStep(h, acts[0], e); }
      assert h1.stream == h.stream;
      KnownIsLogged(h1, acts[1..], log + now);
    }
  }

  /** Every recorded envelope waits for its fan-out, was fanned out too early for the reader, or later. */
  ghost predicate FansInv(h: State, late: set<Envelope>)
  {
    && (forall e :: e in late ==> Known(h.known, e) && e !in h.missed && e !in Pending(h.awaiting))
    && (forall e :: Known(h.known, e) ==> e in Pending(h.awaiting) || e in h.missed || e in late)
  }

  lemma DoKeepsFans(h: State, act: Act, late: set<Envelope>)
    requires Inv(h) && MissedInv(h) && FansInv(h, late) && Enabled(h, act)
    ensures FansInv(Do(h, act), late + LateNow(h, act))
  {
    var h' := Do(h, act);
    if act.Record? {
      RecordPending(h, act);
      forall e | Known(h'.known, e) ensures e in Pending(h'.awaiting) || e in h'.missed || e in late {
        assert e != act.env ==> Known(h.known, e);
      }
      forall e | e in late ensures Known(h'.known, e) && e !in Pending(h'.awaiting) { assert Known(h.known, e); }
    } else if BusAct(act) {
      FanOutPending(h, act);
      FannedIsDone(h, act, late);
    } else {
      assert h'.awaiting == h.awaiting && h'.known == h.known && h'.missed == h.missed;
    }
  }

  lemma FannedIsDone(h: State, act: Act, late: set<Envelope>)
    requires Inv(h) && MissedInv(h) && FansInv(h, late) && BusAct(act) && Enabled(h, act)
    ensures FansInv(Do(h, act), late + LateNow(h, act))
  {
    var h' := Do(h, act);
    if act.Bus? {
      assert h'.awaiting == h.awaiting && h'.known == h.known && h'.missed == h.missed;
    } else {
      var x := h.awaiting[act.p];
      assert Known(h.known, x) && x in Pending(h.awaiting);
      forall e ensures e in Pending(h'.awaiting) <==> e in Pending(h.awaiting) && e != x {
        if e in Pending(h.awaiting) && e != x {
          var p :| p in h.awaiting && h.awaiting[p] == e;
          assert p in h'.awaiting && h'.awaiting[p] == e;
        }
      }
    }
  }

  lemma {:induction false} RunKeepsFans(h: State, acts: seq<Act>, late: set<Envelope>)
    requires Inv(h) && MissedInv(h) && FansInv(h, late) && FaithfulRun(h, acts)
    ensures FansInv(Run(h, acts), late + FannedLate(h, acts))
    decreases |acts|
  {
    if acts == [] {
      assert late + FannedLate(h, acts) == late;
    } else {
      if Enabled(h, acts[0]) {
        DoKeepsInv(h, acts[0]);
        DoKeepsMissed(h, acts[0]);
        DoKeepsFans(h, acts[0], late);
      }
      var now := LateNow(h, acts[0]);
      assert late + FannedLate(h, acts) == (late + now) + FannedLate(Try(h, acts[0]), acts[1..]);
      RunKeepsFans(Try(h, acts[0]), acts[1..], late + now);
    }
  }

  /** Once taken, the snapshot stays. */
  lemma {:induction false} SnapshotStays(h: State, acts: seq<Act>)
    requires h.snapshot.Some?
    ensures Run(h, acts).snapshot == h.snapshot && Run(h, acts).early == h.early
    decreases |acts|
  {
    if acts != [] { SnapshotStays(Try(h, acts[0]), acts[1..]); }
  }

  /** What the reader gets in the end, of the envelopes of the run around its snapshot. */
  ghost predicate GetsExactly(got: seq<Envelope>, all: seq<Envelope>, retained: seq<Envelope>, late: set<Envelope>)
  {
    && DistinctIds(got)
    && forall e :: e in got <==> e in all && ((e in retained && e.sequence > 0) || e in late)
  }

  /**
   Exactly once: with a Backpressure reader, and asynchronous publishers on its
   stream that are not cancelled, in every interleaving before and after the
   snapshot, once settled the client has exactly those recorded envelopes of the
   stream that were among the last `max(capacity, 1)` at the snapshot, or were
   fanned out after the reader subscribed, each once.  That includes everything
   recorded after the snapshot.
   */
  lemma HandedOverExactlyOnce(stream: StreamId, capacity: nat, before: seq<Act>, after: seq<Act>)
    requires FaithfulRun(Start(stream, capacity), before)
    requires Enabled(Run(Start(stream, capacity), before), ReaderSnapshots)
    requires var h1 := Do(Run(Start(stream, capacity), before), ReaderSnapshots);
             FaithfulRun(h1, after) && Settled(Run(h1, after))
    ensures var h := Start(stream, capacity); var h1 := Do(Run(h, before), ReaderSnapshots);
            var older, newer := Log(h, before), Log(h1, after);
            && GetsExactly(Emitted(Run(h1, after)), older + newer,
                           Streams.Suffix(older, if capacity == 0 then 1 else capacity),
                           FannedLate(h, before) + FannedLate(h1, after))
            && forall e :: e in newer ==> e in Emitted(Run(h1, after))
  {
    var h := Start(stream, capacity);
    UpToSnapshot(stream, capacity, before);
    SettledFrom(Run(h, before), after, Log(h, before), FannedLate(h, before));
  }

  lemma UpToSnapshot(stream: StreamId, capacity: nat, before: seq<Act>)
    requires FaithfulRun(Start(stream, capacity), before)
    requires Enabled(Run(Start(stream, capacity), before), ReaderSnapshots)
    ensures var h, log := Run(Start(stream, capacity), before), Log(Start(stream, capacity), before);
            && Inv(h) && MissedInv(h) && FansInv(h, FannedLate(Start(stream, capacity), before))
            && h.stream == stream && h.capacity == capacity
            && h.ring == Streams.Suffix(log, Streams.RingSize(capacity))
            && forall e :: Known(h.known, e) && e.streamId == h.stream <==> e in log
  {
    var h := Start(stream, capacity);
    RunKeepsMissed(h, before);
    RunKeepsFans(h, before, {});
    assert {} + FannedLate(h, before) == FannedLate(h, before);
    LogFromStart(h, before);
  }

  lemma LogFromStart(h: State, acts: seq<Act>)
    requires h.ring == [] && h.known == map[]
    ensures var h' := Run(h, acts);
            && h'.stream == h.stream && h'.capacity == h.capacity
            && h'.ring == Streams.Suffix(Log(h, acts), Streams.RingSize(h.capacity))
            && forall e :: Known(h'.known, e) && e.streamId == h.stream <==> e in Log(h, acts)
  {
    RingIsEndOfLog(h, acts, []);
    KnownIsLogged(h, acts, []);
    assert [] + Log(h, acts) == Log(h, acts);
  }

  lemma KnownStays(h: State, act: Act, id: EventId)
    ensures id in h.known ==> id in Try(h, act).known
  {
  }

  lemma {:induction false} LoggedIsNew(h: State, acts: seq<Act>, e: Envelope)
    requires e in Log(h, acts)
    ensures e.eventId !in h.known
    decreases |acts|
  {
    if e !in LoggedNow(h, acts[0]) {
      assert e in Log(Try(h, acts[0]), acts[1..]);
      KnownStays(h, acts[0], e.eventId);
      LoggedIsNew(Try(h, acts[0]), acts[1..], e);
    }
  }

  lemma EmittedIsOnStream(h: State, ring: seq<Envelope>)
    requires Inv(h) && MissedInv(h) && h.snapshot == Some(Streams.Newer(ring, 0))
    requires forall e :: e in ring ==> e.streamId == h.stream
    ensures h.done <= |h.snapshot.value| && forall e :: e in Emitted(h) ==> e.streamId == h.stream
  {
    EmittedIsDistinct(h);
    Streams.NewerIsFilter(ring, 0);
    var c := h.w.cells[h.reader.value];
    assert EmissionInv(h, h.snapshot.value, c.hist.popped);
    forall e | e in h.live ensures e.streamId == h.stream { assert e in Flow(c); }
  }

  lemma SettledFrom(h0: State, after: seq<Act>, log: seq<Envelope>, late: set<Envelope>)
    requires Inv(h0) && MissedInv(h0) && FansInv(h0, late) && Enabled(h0, ReaderSnapshots)
    requires h0.ring == Streams.Suffix(log, Streams.RingSize(h0.capacity))
    requires forall e :: Known(h0.known, e) && e.streamId == h0.stream <==> e in log
    requires FaithfulRun(Do(h0, ReaderSnapshots), after) && Settled(Run(Do(h0, ReaderSnapshots), after))
    ensures var h1 := Do(h0, ReaderSnapshots); var got, newer := Emitted(Run(h1, after)), Log(h1, after);
            && GetsExactly(got, log + newer, h0.ring, late + FannedLate(h1, after))
            && forall e :: e in newer ==> e in got
  {
    var h1 := Do(h0, ReaderSnapshots);
    var h := Run(h1, after);
    DoKeepsInv(h0, ReaderSnapshots);
    DoKeepsMissed(h0, ReaderSnapshots);
    DoKeepsFans(h0, ReaderSnapshots, late);
    assert late + LateNow(h0, ReaderSnapshots) == late;
    RunKeepsMissed(h1, after);
    RunKeepsFans(h1, after, late);
    KnownIsLogged(h1, after, log);
    SnapshotStays(h1, after);
    Streams.NewerIsFilter(h0.ring, 0);
    EmittedIsDistinct(h);
    forall e | e in h0.ring ensures e.streamId == h.stream { assert e in log; }
    EmittedIsOnStream(h, h0.ring);
    forall e | e in log + Log(h1, after)
      ensures e in Emitted(h) <==> (e in h0.ring && e.sequence > 0) || e in late + FannedLate(h1, after)
    {
      SettledEmission(h, e);
      assert e !in Pending(h.awaiting);
    }
    forall e | e in Log(h1, after) ensures e in Emitted(h) {
      LoggedIsNew(h1, after, e);
      SettledEmission(h, e);
    }
  }
}
