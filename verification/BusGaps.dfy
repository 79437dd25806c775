/**
 Gaps in what a subscriber receives when asynchronous publishers overlap
 (`events/bus.rs`).  Claims are made in one order and sent in another, so the
 gap-free prefix of synchronous publishing is lost; this says exactly when.
 */
module BusGaps {
  import opened Wrappers
  import opened Envelopes
  import opened EventBus
  import opened BusRuns
  import opened BusOrder
  import opened BusLimits

  // ---- When the prefix can be broken ----

  ghost predicate PrefixAt(w: World, id: SubId)
  {
    id in w.cells && w.cells[id].slot.chan.Mpsc? ==> w.cells[id].hist.sent <= w.cells[id].hist.offered
  }

  /** No new publish: sends, commits, refunds and readers only. */
  ghost predicate Quietly(acts: seq<Action>) { AsyncOnly(acts) && SyncOnly(acts) }

  /** Whatever the publishers under way do, what was sent stays a prefix of what was offered. */
  ghost predicate StaysPrefix(w: World, id: SubId)
  {
    forall more :: Quietly(more) ==> PrefixAt(Run(w, more), id)
  }

  ghost predicate Loose(q: Publisher, id: SubId) { CanDeliver(q, id) && !HasLanded(q, id) }

  ghost predicate NextOffer(c: Cell, e: Envelope)
  {
    |c.hist.sent| < |c.hist.offered| && c.hist.offered[|c.hist.sent|] == e
  }

  /** The publishers under way have different envelopes. */
  ghost predicate Different(pubs: map<PubId, Publisher>)
  {
    forall p, q :: p in pubs && q in pubs && p != q ==> pubs[p].env != pubs[q].env
  }

  /** The only claim that can still deliver to an open channel is for the next envelope offered. */
  ghost predicate Safe(w: World, id: SubId)
  {
    id in w.cells && w.cells[id].slot.chan.Mpsc? ==>
      && w.cells[id].hist.sent <= w.cells[id].hist.offered
      && (w.cells[id].slot.chan.open ==>
            forall p :: p in w.pubs && Loose(w.pubs[p], id) ==> NextOffer(w.cells[id], w.pubs[p].env))
  }

  lemma SendKeepsSafe(w: World, p: PubId, id: SubId)
    requires WellFormed(w) && Different(w.pubs) && Safe(w, id) && Enabled(w, Send(p))
    ensures Safe(Step(w, Send(p)), id)
  {
    var w', x := Step(w, Send(p)), w.pubs[p].todo[0];
    if x == id && id in w.cells {
      assert w.cells[id].slot.chan.open ==> Loose(w.pubs[p], id);
      forall q | q in w'.pubs && Loose(w'.pubs[q], id) && w.cells[id].slot.chan.open
        ensures NextOffer(w'.cells[id], w'.pubs[q].env)
      {
        assert Loose(w.pubs[q], id);
      }
    }
  }

  lemma CommitKeepsSafe(w: World, a: Action, id: SubId)
    requires WellFormed(w) && Safe(w, id) && Enabled(w, a) && (a.Commit? || a.Cancel? || a.DropGuard?)
    ensures Safe(Step(w, a), id)
  {
    var w' := Step(w, a);
    assert TodoInv(w.cells, w.pubs[a.p].todo);
    TailOfTodo(w.cells, w.pubs[a.p].todo);
    forall q | q in w'.pubs && Loose(w'.pubs[q], id) ensures Loose(w.pubs[q], id) && w'.pubs[q].env == w.pubs[q].env {}
  }

  lemma ReaderKeepsSafe(w: World, a: Action, id: SubId)
    requires WellFormed(w) && Safe(w, id) && Enabled(w, a)
    requires a.Subscribe? || a.Unsubscribe? || a.DropReceiver? || a.Pop?
    ensures Safe(Step(w, a), id)
  {
    if id in Step(w, a).cells && id !in w.cells {
      forall p | p in w.pubs ensures id !in w.pubs[p].todo { assert TodoInv(w.cells, w.pubs[p].todo); }
    }
  }

  lemma QuietKeepsSafe(w: World, a: Action, id: SubId)
    requires WellFormed(w) && Different(w.pubs) && Safe(w, id) && !a.Claim? && !a.TryPublish?
    ensures Different(Next(w, a).pubs) && Safe(Next(w, a), id)
  {
    if Enabled(w, a) {
      match a
      case Send(p) => SendKeepsSafe(w, p, id);
      case Commit(_) => CommitKeepsSafe(w, a, id);
      case Cancel(_) => CommitKeepsSafe(w, a, id);
      case DropGuard(_) => CommitKeepsSafe(w, a, id);
      case _ => ReaderKeepsSafe(w, a, id);
    }
  }

  lemma {:induction false} SafeRunsStay(w: World, more: seq<Action>, id: SubId)
    requires Mixed(w) && Different(w.pubs) && Safe(w, id) && Quietly(more)
    ensures PrefixAt(Run(w, more), id)
    decreases |more|
  {
    if more != [] {
      assert more[0] in more;
      NextKeepsMixed(w, more[0]);
      QuietKeepsSafe(w, more[0], id);
      SafeRunsStay(Next(w, more[0]), more[1..], id);
    }
  }

  /** Without new publishes the prefix cannot be broken exactly when it holds and only the next offer can still come. */
  lemma StaysPrefixIff(w: World, id: SubId)
    requires Mixed(w) && Different(w.pubs)
    ensures StaysPrefix(w, id) <==> Safe(w, id)
  {
    if Safe(w, id) {
      forall more | Quietly(more) ensures PrefixAt(Run(w, more), id) { SafeRunsStay(w, more, id); }
    } else if w.cells[id].hist.sent <= w.cells[id].hist.offered {
      var p :| p in w.pubs && Loose(w.pubs[p], id) && !NextOffer(w.cells[id], w.pubs[p].env);
      var acts := Drive(w, p, id);
      Overtakes(w.cells[id].hist.sent, w.cells[id].hist.offered, w.pubs[p].env);
      assert !PrefixAt(Run(w, acts), id);
    } else {
      assert Quietly([]) && Run(w, []) == w;
    }
  }

  lemma Overtakes(sent: seq<Envelope>, offered: seq<Envelope>, e: Envelope)
    requires sent <= offered && !(|sent| < |offered| && offered[|sent|] == e)
    ensures !(sent + [e] <= offered)
  {
    assert (sent + [e])[|sent|] == e;
  }

  // ---- Whole runs ----

  ghost predicate IsPublish(a: Action) { a.Claim? || a.TryPublish? }

  /** The publish takes a claim on the open subscription, or delivers to it on the spot. */
  ghost predicate Puts(w: World, a: Action, id: SubId)
  {
    && IsPublish(a) && Enabled(w, a) && id in w.cells
    && (if a.TryPublish? then Delivers(w, a.env, id) else Claims(w.cells[id].slot, a.env) && w.cells[id].slot.chan.open)
  }

  /** Everything offered so far is on the channel. */
  ghost predicate CaughtUp(w: World, a: Action, id: SubId)
  {
    Puts(w, a, id) ==> w.cells[id].hist.sent == w.cells[id].hist.offered
  }

  /** Each publish has an envelope of its own. */
  ghost predicate NewEnvelope(w: World, a: Action, id: SubId)
  {
    IsPublish(a) ==>
      && (forall p :: p in w.pubs ==> w.pubs[p].env != a.env)
      && (id in w.cells ==> a.env !in w.cells[id].hist.offered)
  }

  ghost predicate NewEnvelopes(w: World, acts: seq<Action>, id: SubId)
    decreases |acts|
  {
    acts == [] || (NewEnvelope(w, acts[0], id) && NewEnvelopes(Next(w, acts[0]), acts[1..], id))
  }

  ghost predicate CaughtUpRun(w: World, acts: seq<Action>, id: SubId)
    decreases |acts|
  {
    acts == [] || (CaughtUp(w, acts[0], id) && CaughtUpRun(Next(w, acts[0]), acts[1..], id))
  }

  lemma SyncSafeIff(w: World, env: Envelope, id: SubId)
    requires Mixed(w) && Safe(w, id) && NewEnvelope(w, TryPublish(env), id)
    ensures CaughtUp(w, TryPublish(env), id) <==> Safe(Step(w, TryPublish(env)), id)
  {
    var w' := Step(w, TryPublish(env));
    if id in w.cells && w.cells[id].slot.chan.Mpsc? {
      assert ChannelInv(w.cells[id]);
      SyncHistory(w.cells[id], env);
      if Delivers(w, env, id) { SentAtOnce(w, w', env, id); } else { MoreOffered(w, w', id); }
    }
  }

  lemma SentAtOnce(w: World, w': World, env: Envelope, id: SubId)
    requires id in w.cells && id in w'.cells && w.cells[id].slot.chan.Mpsc? && w'.cells[id].slot.chan.Mpsc?
    requires Safe(w, id) && w.cells[id].slot.chan.open && w'.pubs == w.pubs && env !in w.cells[id].hist.offered
    requires w'.cells[id].hist.sent == w.cells[id].hist.sent + [env]
    requires w'.cells[id].hist.offered == w.cells[id].hist.offered + [env]
    ensures w.cells[id].hist.sent == w.cells[id].hist.offered <==> Safe(w', id)
  {
    var c := w.cells[id];
    if c.hist.sent != c.hist.offered {
      assert (c.hist.offered + [env])[|c.hist.sent|] == c.hist.offered[|c.hist.sent|];
      Overtakes(c.hist.sent, c.hist.offered + [env], env);
    }
  }

  /** Offering more, without a new claim that can deliver, breaks nothing. */
  lemma MoreOffered(w: World, w': World, id: SubId)
    requires id in w.cells && id in w'.cells && w.cells[id].slot.chan.Mpsc? && Safe(w, id)
    requires w'.cells[id].slot.chan.Mpsc? ==> w'.cells[id].slot.chan.open == w.cells[id].slot.chan.open
    requires w'.cells[id].hist.sent == w.cells[id].hist.sent && w.cells[id].hist.offered <= w'.cells[id].hist.offered
    requires w.cells[id].slot.chan.open ==>
               forall p :: p in w'.pubs && Loose(w'.pubs[p], id) ==> p in w.pubs && w.pubs[p] == w'.pubs[p]
    ensures Safe(w', id)
  {
    forall p | p in w'.pubs && Loose(w'.pubs[p], id) && w.cells[id].slot.chan.open
      ensures NextOffer(w'.cells[id], w'.pubs[p].env)
    {
      assert NextOffer(w.cells[id], w.pubs[p].env);
    }
  }

  /** A synchronous publish offers what the subscription wants, and sends it if there is room. */
  lemma SyncHistory(c: Cell, env: Envelope)
    requires c.slot.chan.Mpsc? && (c.slot.entry.Some? ==> c.slot.entry.value.wants == c.hist.wants)
    ensures var c' := SyncCell(c, env); var delivers := Matches(c.slot, env) && Room(c.slot.chan);
            && c'.slot.chan.Mpsc? && c'.slot.chan.open == c.slot.chan.open
            && c'.hist.offered == (if c.hist.wants(env) then c.hist.offered + [env] else c.hist.offered)
            && c'.hist.sent == (if delivers then c.hist.sent + [env] else c.hist.sent)
            && (delivers ==> c.hist.wants(env))
  {
  }

  /** A claim offers what the subscription wants and sends nothing. */
  lemma ClaimHistory(c: Cell, env: Envelope)
    requires c.slot.chan.Mpsc? && (c.slot.entry.Some? ==> c.slot.entry.value.wants == c.hist.wants)
    ensures var c' := ClaimCell(c, env);
            && c'.slot.chan == c.slot.chan && c'.hist.sent == c.hist.sent
            && c'.hist.offered == (if c.hist.wants(env) then c.hist.offered + [env] else c.hist.offered)
            && (Claims(c.slot, env) ==> c.hist.wants(env))
  {
  }

  lemma ClaimEffect(w: World, a: Action, id: SubId) returns (w': World)
    requires Mixed(w) && a.Claim? && Enabled(w, a) && id in w.cells && w.cells[id].slot.chan.Mpsc?
    ensures w' == Step(w, a) && id in w'.cells && a.p in w'.pubs && a.p !in w.pubs
    ensures w'.pubs == w.pubs[a.p := w'.pubs[a.p]] && w'.pubs[a.p].env == a.env
    ensures var c, c' := w.cells[id], w'.cells[id];
            && c'.slot.chan == c.slot.chan && c'.hist.sent == c.hist.sent
            && c'.hist.offered == (if c.hist.wants(a.env) then c.hist.offered + [a.env] else c.hist.offered)
            && (Claims(c.slot, a.env) ==> c.hist.wants(a.env) && Loose(w'.pubs[a.p], id))
            && (!Claims(c.slot, a.env) ==> id !in w'.pubs[a.p].todo)
  {
    w' := Step(w, a);
    assert ChannelInv(w.cells[id]);
    ClaimHistory(w.cells[id], a.env);
    ClaimedIsFilter(a.order, Slots(w), a.env);
  }

  lemma ClaimSafeIff(w: World, a: Action, id: SubId)
    requires Mixed(w) && Safe(w, id) && a.Claim? && Enabled(w, a) && NewEnvelope(w, a, id)
    ensures CaughtUp(w, a, id) <==> Safe(Step(w, a), id)
  {
    if id in w.cells && w.cells[id].slot.chan.Mpsc? {
      var w' := ClaimEffect(w, a, id);
      if Puts(w, a, id) { NewClaimSafeIff(w, w', a, id); } else { MoreOffered(w, w', id); }
    } else if id in w.cells {
      VisitKeepsKind(w.cells[id], a.env);
    }
  }

  lemma NewClaimSafeIff(w: World, w': World, a: Action, id: SubId)
    requires a.Claim? && id in w.cells && id in w'.cells && w.cells[id].slot.chan.Mpsc? && w.cells[id].slot.chan.open
    requires Safe(w, id) && w'.cells[id].slot.chan == w.cells[id].slot.chan && a.env !in w.cells[id].hist.offered
    requires w'.cells[id].hist.sent == w.cells[id].hist.sent
    requires w'.cells[id].hist.offered == w.cells[id].hist.offered + [a.env]
    requires a.p !in w.pubs && a.p in w'.pubs && w'.pubs == w.pubs[a.p := w'.pubs[a.p]]
    requires w'.pubs[a.p].env == a.env && Loose(w'.pubs[a.p], id)
    ensures w.cells[id].hist.sent == w.cells[id].hist.offered <==> Safe(w', id)
  {
    var c, c' := w.cells[id], w'.cells[id];
    if c.hist.sent == c.hist.offered {
      forall p | p in w'.pubs && Loose(w'.pubs[p], id) ensures NextOffer(c', w'.pubs[p].env) {
        assert p != a.p ==> NextOffer(c, w.pubs[p].env);
      }
    } else {
      assert c'.hist.offered[|c.hist.sent|] == c.hist.offered[|c.hist.sent|];
      assert !NextOffer(c', a.env);
    }
  }

  lemma NextSafeIff(w: World, a: Action, id: SubId)
    requires Mixed(w) && Different(w.pubs) && Safe(w, id) && NewEnvelope(w, a, id)
    ensures Different(Next(w, a).pubs) && (CaughtUp(w, a, id) <==> Safe(Next(w, a), id))
  {
    if !IsPublish(a) {
      QuietKeepsSafe(w, a, id);
    } else if Enabled(w, a) {
      if a.Claim? { ClaimSafeIff(w, a, id); } else { SyncSafeIff(w, a.env, id); }
    }
  }

  lemma {:induction false} PrefixFrom(w: World, acts: seq<Action>, id: SubId)
    requires Mixed(w) && Different(w.pubs) && Safe(w, id) && NewEnvelopes(w, acts, id)
    ensures (forall k :: 0 <= k <= |acts| ==> StaysPrefix(Run(w, acts[..k]), id)) <==> CaughtUpRun(w, acts, id)
    decreases |acts|
  {
    StaysPrefixIff(w, id);
    if acts == [] {
      assert acts[..0] == [];
    } else {
      var w', rest := Next(w, acts[0]), acts[1..];
      NextKeepsMixed(w, acts[0]);
      NextSafeIff(w, acts[0], id);
      StaysPrefixIff(w', id);
      forall k | 1 <= k <= |acts| ensures Run(w, acts[..k]) == Run(w', rest[..k - 1]) { RunPrefix(w, acts, k); }
      if CaughtUp(w, acts[0], id) {
        PrefixFrom(w', rest, id);
        forall j | 0 <= j <= |rest| ensures Run(w, acts[..j + 1]) == Run(w', rest[..j]) {}
      } else {
        assert Run(w, acts[..1]) == w';
      }
    }
  }

  /**
   Over every run of both kinds of publishes with different envelopes, on any
   channel: at no point can the publishers under way break the prefix, exactly
   when every publish that claims or delivers finds everything offered before
   it on the channel.
   */
  lemma PrefixIff(acts: seq<Action>, id: SubId)
    requires NewEnvelopes(Start(), acts, id)
    ensures (forall k :: 0 <= k <= |acts| ==> StaysPrefix(Run(Start(), acts[..k]), id)) <==>
            CaughtUpRun(Start(), acts, id)
  {
    PrefixFrom(Start(), acts, id);
  }

  // ---- A run with a gap ----

  /** An unlimited Disconnect subscription with room for one. */
  function Narrow(offered: seq<Envelope>, sent: seq<Envelope>, popped: seq<Envelope>, queue: seq<Envelope>,
                  entry: Option<Entry>, notices: seq<Option<Mark>>): Cell
  {
    Cell(Slot(entry, Mpsc(1, queue, true, Disconnect), notices), Hist(Everything(), None, offered, sent, popped, 0))
  }

  function Flying(n: nat): Option<Entry> { Some(Entry(Everything(), None, n, None, true)) }

  /** Three publishers have claimed the subscription, in order. */
  ghost predicate ThreeClaimed(w: World, a: Envelope, b: Envelope, c: Envelope)
  {
    && w.cells == map[1 := Narrow([a, b, c], [], [], [], Flying(3), [])]
    && w.pubs.Keys == {0, 1, 2}
    && Ahead(w.pubs[0], a) && Ahead(w.pubs[1], b) && Ahead(w.pubs[2], c)
  }

  /** The publisher has claimed the subscription and sent nothing. */
  ghost predicate Ahead(q: Publisher, e: Envelope) { q.Sending? && q.env == e && q.todo == [1] && q.head == Fresh }

  lemma ClaimOnNarrow(w: World, p: PubId, e: Envelope, offered: seq<Envelope>, n: nat) returns (w': World)
    requires w.cells == map[1 := Narrow(offered, [], [], [], Flying(n), [])] && p !in w.pubs
    ensures Enabled(w, Claim(p, e, [1])) && w' == Next(w, Claim(p, e, [1]))
    ensures w'.cells == map[1 := Narrow(offered + [e], [], [], [], Flying(n + 1), [])] && w'.nextId == w.nextId
    ensures p in w'.pubs && w'.pubs == w.pubs[p := w'.pubs[p]]
    ensures Ahead(w'.pubs[p], e)
  {
    var order: seq<SubId> := [1];
    assert Slots(w)[1] == w.cells[1].slot && Live(Slots(w)[1]);
    assert Lists(order, Slots(w));
    ClaimedOfOne(order, Slots(w), e);
    w' := Step(w, Claim(p, e, order));
    assert w'.cells[1] == Narrow(offered + [e], [], [], [], Flying(n + 1), []);
  }

  lemma SubscribedNarrow() returns (w: World)
    ensures w == Next(Start(), Subscribe(Everything(), None, Mpsc(1, [], true, Disconnect)))
    ensures w.cells == map[1 := Narrow([], [], [], [], Flying(0), [])] && w.pubs == map[]
  {
    w := Next(Start(), Subscribe(Everything(), None, Mpsc(1, [], true, Disconnect)));
  }

  lemma FirstClaimed(a: Envelope) returns (w: World)
    ensures w == Next(Next(Start(), Subscribe(Everything(), None, Mpsc(1, [], true, Disconnect))), Claim(0, a, [1]))
    ensures w.cells == map[1 := Narrow([a], [], [], [], Flying(1), [])]
    ensures w.pubs.Keys == {0} && Ahead(w.pubs[0], a)
  {
    var w0 := SubscribedNarrow();
    w := ClaimOnNarrow(w0, 0, a, [], 0);
    assert [] + [a] == [a];
  }

  lemma TwoMoreClaimed(w0: World, a: Envelope, b: Envelope, c: Envelope) returns (w: World)
    requires w0.cells == map[1 := Narrow([a], [], [], [], Flying(1), [])]
    requires w0.pubs.Keys == {0} && Ahead(w0.pubs[0], a)
    ensures w == Next(Next(w0, Claim(1, b, [1])), Claim(2, c, [1]))
    ensures ThreeClaimed(w, a, b, c)
  {
    var w1 := ClaimOnNarrow(w0, 1, b, [a], 1);
    assert [a] + [b] == [a, b];
    w := ClaimOnNarrow(w1, 2, c, [a, b], 2);
    assert [a, b] + [c] == [a, b, c];
  }

  lemma FirstIsSent(w: World, a: Envelope, b: Envelope, c: Envelope) returns (w': World)
    requires ThreeClaimed(w, a, b, c)
    ensures w' == Next(w, Send(0)) && w'.cells == map[1 := Narrow([a, b, c], [a], [], [a], Flying(3), [])]
    ensures w'.pubs.Keys == {0, 1, 2} && Ahead(w'.pubs[1], b) && Ahead(w'.pubs[2], c)
  {
    w' := Next(w, Send(0));
    assert [] + [a] == [a];
    assert w'.cells[1] == Narrow([a, b, c], [a], [], [a], Flying(3), []);
  }

  lemma SecondOverflows(w: World, a: Envelope, b: Envelope, c: Envelope) returns (w': World)
    requires w.cells == map[1 := Narrow([a, b, c], [a], [], [a], Flying(3), [])]
    requires w.pubs.Keys == {0, 1, 2} && Ahead(w.pubs[1], b) && Ahead(w.pubs[2], c)
    ensures w' == Next(Next(w, Send(1)), BusRuns.Commit(1))
    ensures w'.cells == map[1 := Narrow([a, b, c], [a], [], [a], None, [None])] && 2 in w'.pubs && Ahead(w'.pubs[2], c)
  {
    var w1 := Next(w, Send(1));
    assert w1.pubs[1].head == Sent(SlowConsumer) && w1.cells == w.cells;
    w' := Next(w1, BusRuns.Commit(1));
    assert w'.cells[1] == Narrow([a, b, c], [a], [], [a], None, [None]);
  }

  lemma ThirdIsSent(w: World, a: Envelope, b: Envelope, c: Envelope) returns (w': World)
    requires w.cells == map[1 := Narrow([a, b, c], [a], [], [a], None, [None])] && 2 in w.pubs && Ahead(w.pubs[2], c)
    ensures w' == Next(Next(w, Pop(1)), Send(2))
    ensures w'.cells == map[1 := Narrow([a, b, c], [a, c], [a], [c], None, [None])]
  {
    var w1 := Next(w, Pop(1));
    assert [] + [a] == [a] && [a][1..] == [];
    assert w1.cells == map[1 := Narrow([a, b, c], [a], [a], [], None, [None])];
    w' := Next(w1, Send(2));
    assert [a] + [c] == [a, c] && [] + [c] == [c];
    assert w'.cells[1] == Narrow([a, b, c], [a, c], [a], [c], None, [None]);
  }

  /**
   Overlapping asynchronous publishes leave a gap, and a notice that names
   nothing although an envelope was delivered: the first is sent, the second
   overflows and is committed, the reader pops, and the third is sent.
   */
  lemma OverlappingPublishesLeaveAGap(a: Envelope, b: Envelope, c: Envelope) returns (w: World)
    ensures w == Next(Next(Next(Next(Start(), Subscribe(Everything(), None, Mpsc(1, [], true, Disconnect))),
                                Claim(0, a, [1])), Claim(1, b, [1])), Claim(2, c, [1]))
    ensures var end := Next(Next(Next(Next(Next(w, Send(0)), Send(1)), BusRuns.Commit(1)), Pop(1)), Send(2));
            && 1 in end.cells && end.cells[1].hist.offered == [a, b, c] && end.cells[1].hist.sent == [a, c]
            && end.cells[1].slot.notices == [None]
  {
    var w0 := FirstClaimed(a);
    w := TwoMoreClaimed(w0, a, b, c);
    var w1 := FirstIsSent(w, a, b, c);
    var w2 := SecondOverflows(w1, a, b, c);
    var end := ThirdIsSent(w2, a, b, c);
  }

  // ---- One publish at a time ----

  /** A publish that the subscription matches meets no claim on it, and no publisher with a claim on it is cancelled. */
  ghost predicate OneAtATime(w: World, a: Action, id: SubId)
  {
    && (IsPublish(a) && id in w.cells && Matches(w.cells[id].slot, a.env) ==> Armed(w.pubs, id) == {})
    && (a.Cancel? && a.p in w.pubs ==> id !in w.pubs[a.p].todo)
  }

  ghost predicate OneAtATimeRun(w: World, acts: seq<Action>, id: SubId)
    decreases |acts|
  {
    acts == [] || (OneAtATime(w, acts[0], id) && OneAtATimeRun(Next(w, acts[0]), acts[1..], id))
  }

  /** Where the one claim stands: what was offered, sent and last marked. */
  ghost predicate Standing(c: Cell, q: Publisher, id: SubId)
  {
    && q.Sending? && (q.todo != [] && q.todo[0] == id ==> q.head != Sent(Dropped))
    && (if HasLanded(q, id) then c.hist.sent != [] && c.hist.sent[|c.hist.sent| - 1] == q.env
        else NextOffer(c, q.env))
    && (c.slot.entry.Some? ==>
          && c.hist.offered == (if HasLanded(q, id) then c.hist.sent else c.hist.sent + [q.env])
          && c.slot.entry.value.last ==
             LastMark(if HasLanded(q, id) then c.hist.sent[..|c.hist.sent| - 1] else c.hist.sent))
  }

  ghost predicate NoticeLaw(c: Cell)
  {
    && c.hist.sent <= c.hist.offered
    && (c.slot.entry.Some? ==> c.slot.entry.value.notify && c.slot.notices == [])
    && (c.slot.notices == [] || c.slot.notices == [LastMark(c.hist.sent)])
  }

  ghost predicate Narrowed(w: World, id: SubId)
  {
    id in w.cells && w.cells[id].slot.chan.Mpsc? && w.cells[id].slot.chan.policy == Disconnect
    && w.cells[id].hist.limit != Some(0)
  }

  /** The law of one cell, with the one publisher that has a claim on it, if any. */
  ghost predicate CellLaw(c: Cell, holder: Option<Publisher>, id: SubId)
  {
    && NoticeLaw(c)
    && (holder.Some? ==> Standing(c, holder.value, id) && c.slot.notices == [])
    && (holder.None? && c.slot.entry.Some? ==>
          c.hist.sent == c.hist.offered && c.slot.entry.value.last == LastMark(c.hist.sent))
  }

  ghost predicate WantsAgree(c: Cell) { c.slot.entry.Some? ==> c.slot.entry.value.wants == c.hist.wants }

  lemma SyncKeepsCell(c: Cell, env: Envelope, holder: Option<Publisher>, id: SubId)
    requires c.slot.chan.Mpsc? && c.slot.chan.policy == Disconnect && WantsAgree(c) && CellLaw(c, holder, id)
    requires Matches(c.slot, env) ==> holder.None?
    ensures CellLaw(SyncCell(c, env), holder, id)
  {
    SyncHistory(c, env);
  }

  lemma ClaimKeepsCell(c: Cell, env: Envelope, holder: Option<Publisher>, id: SubId)
    requires c.slot.chan.Mpsc? && WantsAgree(c) && CellLaw(c, holder, id) && !Matches(c.slot, env)
    ensures CellLaw(ClaimCell(c, env), holder, id)
  {
    ClaimHistory(c, env);
  }

  lemma ClaimTakesCell(c: Cell, env: Envelope, q: Publisher, id: SubId)
    requires c.slot.chan.Mpsc? && WantsAgree(c) && CellLaw(c, None, id) && Claims(c.slot, env)
    requires q.Sending? && q.env == env && q.head == Fresh
    ensures CellLaw(ClaimCell(c, env), Some(q), id)
  {
    ClaimHistory(c, env);
  }

  lemma SendKeepsCell(c: Cell, q: Publisher, head: Head, id: SubId)
    requires c.slot.chan.Mpsc? && q.Sending? && q.todo != [] && q.todo[0] == id && !q.head.Sent?
    requires CellLaw(c, Some(q), id) && head != Sent(Dropped)
    ensures CellLaw(SendCell(c, q.env, head), Some(q.(head := head)), id)
  {
    if head == Sent(Delivered) {
      var sent := c.hist.sent + [q.env];
      assert sent[..|sent| - 1] == c.hist.sent;
      assert c.hist.offered[..|sent|] == sent;
    }
  }

  lemma CommitKeepsCell(c: Cell, q: Publisher, id: SubId)
    requires q.Sending? && q.todo != [] && q.todo[0] == id && q.head.Sent? && c.slot.chan.Mpsc?
    requires CellLaw(c, Some(q), id)
    ensures CellLaw(CommitCell(c, q.env, q.head.outcome), None, id)
  {
  }

  lemma ReaderKeepsCell(c: Cell, holder: Option<Publisher>, id: SubId)
    requires CellLaw(c, holder, id)
    ensures CellLaw(PopCell(c), holder, id) && CellLaw(DropReceiverCell(c), holder, id)
    ensures CellLaw(c.(slot := Remove(c.slot)), holder, id)
  {
  }

  /** At most one claim at a time, and the law of the cell with it. */
  ghost predicate SerialLaw(w: World, id: SubId)
  {
    Narrowed(w, id) ==>
      && (forall p, q :: p in Armed(w.pubs, id) && q in Armed(w.pubs, id) ==> p == q)
      && (forall p :: p in Armed(w.pubs, id) ==> CellLaw(w.cells[id], Some(w.pubs[p]), id))
      && (Armed(w.pubs, id) == {} ==> CellLaw(w.cells[id], None, id))
  }

  lemma SamePublishers(w: World, w': World, id: SubId)
    requires SerialLaw(w, id) && (Narrowed(w', id) ==> Narrowed(w, id)) && Armed(w'.pubs, id) == Armed(w.pubs, id)
    requires forall p :: p in Armed(w.pubs, id) ==> w'.pubs[p] == w.pubs[p]
    requires Narrowed(w', id) ==> forall holder :: CellLaw(w.cells[id], holder, id) && Held(w, holder, id) ==>
               CellLaw(w'.cells[id], holder, id)
    ensures SerialLaw(w', id)
  {
    if Narrowed(w', id) {
      forall p | p in Armed(w.pubs, id) ensures CellLaw(w'.cells[id], Some(w.pubs[p]), id) {
        assert Held(w, Some(w.pubs[p]), id);
      }
      if Armed(w.pubs, id) == {} { assert Held(w, None, id); }
    }
  }

  /** The publisher with the claim, or none when there is no claim. */
  ghost predicate Held(w: World, holder: Option<Publisher>, id: SubId)
  {
    if holder.Some? then exists p :: p in Armed(w.pubs, id) && w.pubs[p] == holder.value else Armed(w.pubs, id) == {}
  }

  lemma SyncKeepsSerial(w: World, env: Envelope, id: SubId)
    requires Mixed(w) && SerialLaw(w, id) && OneAtATime(w, TryPublish(env), id)
    ensures SerialLaw(Step(w, TryPublish(env)), id)
  {
    if Narrowed(Step(w, TryPublish(env)), id) {
      assert ChannelInv(w.cells[id]);
      SyncedSerial(w, Step(w, TryPublish(env)), env, id);
    }
  }

  lemma SyncedSerial(w: World, w': World, env: Envelope, id: SubId)
    requires SerialLaw(w, id) && Narrowed(w, id) && WantsAgree(w.cells[id]) && OneAtATime(w, TryPublish(env), id)
    requires w'.pubs == w.pubs && id in w'.cells && w'.cells[id] == SyncCell(w.cells[id], env)
    ensures SerialLaw(w', id)
  {
    forall holder | CellLaw(w.cells[id], holder, id) && Held(w, holder, id) ensures CellLaw(w'.cells[id], holder, id) {
      SyncKeepsCell(w.cells[id], env, holder, id);
    }
    SamePublishers(w, w', id);
  }

  lemma QuotaLeft(w: World, id: SubId)
    requires Mixed(w) && Narrowed(w, id) && Live(w.cells[id].slot) && Armed(w.pubs, id) == {}
    ensures w.cells[id].slot.entry.value.remaining != Some(0)
  {
    assert CellOk(w, id, false);
  }

  lemma ClaimKeepsSerial(w: World, a: Action, id: SubId)
    requires Mixed(w) && SerialLaw(w, id) && OneAtATime(w, a, id) && a.Claim? && Enabled(w, a)
    ensures SerialLaw(Step(w, a), id)
  {
    if id in w.cells { VisitKeepsKind(w.cells[id], a.env); }
    if Narrowed(w, id) {
      if Claims(w.cells[id].slot, a.env) { ClaimedSerial(w, a, id); } else { UnclaimedSerial(w, a, id); }
    }
  }

  lemma ClaimedSerial(w: World, a: Action, id: SubId)
    requires Mixed(w) && SerialLaw(w, id) && OneAtATime(w, a, id) && a.Claim? && Enabled(w, a)
    requires Narrowed(w, id) && Claims(w.cells[id].slot, a.env)
    ensures SerialLaw(Step(w, a), id)
  {
    var w' := ClaimEffect(w, a, id);
    assert ChannelInv(w.cells[id]);
    ClaimTakesCell(w.cells[id], a.env, w'.pubs[a.p], id);
    FirstClaim(w, w', a.p, id);
  }

  lemma UnclaimedSerial(w: World, a: Action, id: SubId)
    requires Mixed(w) && SerialLaw(w, id) && OneAtATime(w, a, id) && a.Claim? && Enabled(w, a)
    requires Narrowed(w, id) && !Claims(w.cells[id].slot, a.env)
    ensures SerialLaw(Step(w, a), id)
  {
    var w' := ClaimEffect(w, a, id);
    assert ChannelInv(w.cells[id]);
    UnmatchedUnlessClaimed(w, a, id);
    UnclaimedKeepsSerial(w, w', a, id);
  }

  lemma UnmatchedUnlessClaimed(w: World, a: Action, id: SubId)
    requires Mixed(w) && Narrowed(w, id) && a.Claim? && OneAtATime(w, a, id)
    ensures Matches(w.cells[id].slot, a.env) ==> Claims(w.cells[id].slot, a.env)
  {
    if Live(w.cells[id].slot) && Armed(w.pubs, id) == {} { QuotaLeft(w, id); }
  }

  lemma FirstClaim(w: World, w': World, p: PubId, id: SubId)
    requires Armed(w.pubs, id) == {} && p in w'.pubs && w'.pubs == w.pubs[p := w'.pubs[p]] && id in w'.pubs[p].todo
    requires Narrowed(w', id) && CellLaw(w'.cells[id], Some(w'.pubs[p]), id)
    ensures SerialLaw(w', id)
  {
    assert Armed(w'.pubs, id) == {p} by {
      forall q | q in Armed(w'.pubs, id) ensures q == p { assert q != p ==> q in Armed(w.pubs, id); }
    }
  }

  lemma UnclaimedKeepsSerial(w: World, w': World, a: Action, id: SubId)
    requires SerialLaw(w, id) && Narrowed(w, id) && WantsAgree(w.cells[id])
    requires a.Claim? && !Matches(w.cells[id].slot, a.env)
    requires a.p !in w.pubs && a.p in w'.pubs && w'.pubs == w.pubs[a.p := w'.pubs[a.p]]
    requires id !in w'.pubs[a.p].todo && id in w'.cells && w'.cells[id] == ClaimCell(w.cells[id], a.env)
    ensures SerialLaw(w', id)
  {
    assert Armed(w'.pubs, id) == Armed(w.pubs, id);
    forall holder | CellLaw(w.cells[id], holder, id) && Held(w, holder, id) ensures CellLaw(w'.cells[id], holder, id) {
      ClaimKeepsCell(w.cells[id], a.env, holder, id);
    }
    SamePublishers(w, w', id);
  }

  lemma ReaderKeepsSerial(w: World, a: Action, id: SubId)
    requires WellFormed(w) && SerialLaw(w, id) && Enabled(w, a)
    requires a.Subscribe? || a.Unsubscribe? || a.DropReceiver? || a.Pop?
    ensures SerialLaw(Step(w, a), id)
  {
    var w' := Step(w, a);
    if id in w.cells {
      if Narrowed(w', id) {
        forall holder | CellLaw(w.cells[id], holder, id) ensures CellLaw(w'.cells[id], holder, id) {
          ReaderKeepsCell(w.cells[id], holder, id);
        }
      }
      SamePublishers(w, w', id);
    } else if id in w'.cells {
      forall p | p in w.pubs ensures id !in w.pubs[p].todo { assert TodoInv(w.cells, w.pubs[p].todo); }
    }
  }

  /** A publisher busy elsewhere stands where it stood. */
  lemma ElsewhereStands(c: Cell, q: Publisher, q': Publisher, id: SubId)
    requires CellLaw(c, Some(q), id) && q'.Sending? && q'.env == q.env
    requires q.todo != [] && q.todo[0] != id && !HasLanded(q', id)
    requires q'.todo != [] && q'.todo[0] == id ==> q'.head == Fresh
    ensures CellLaw(c, Some(q'), id)
  {
  }

  lemma SendKeepsSerial(w: World, p: PubId, id: SubId)
    requires Mixed(w) && SerialLaw(w, id) && Enabled(w, Send(p))
    ensures SerialLaw(Step(w, Send(p)), id)
  {
    var w', q := Step(w, Send(p)), w.pubs[p];
    if Narrowed(w', id) {
      assert Armed(w'.pubs, id) == Armed(w.pubs, id);
      if q.todo[0] == id {
        assert p in Armed(w.pubs, id);
        SendKeepsCell(w.cells[id], q, w'.pubs[p].head, id);
      } else if id in q.todo {
        assert p in Armed(w.pubs, id);
        ElsewhereStands(w.cells[id], q, w'.pubs[p], id);
      }
    }
  }

  lemma CommitEndsClaim(w: World, p: PubId, id: SubId)
    requires SerialLaw(w, id) && Enabled(w, BusRuns.Commit(p)) && Narrowed(w, id) && TodoInv(w.cells, w.pubs[p].todo)
    requires w.pubs[p].todo[0] == id
    ensures Armed(Step(w, BusRuns.Commit(p)).pubs, id) == {} && SerialLaw(Step(w, BusRuns.Commit(p)), id)
  {
    var w' := Step(w, BusRuns.Commit(p));
    TailOfTodo(w.cells, w.pubs[p].todo);
    assert p in Armed(w.pubs, id);
    CommitKeepsCell(w.cells[id], w.pubs[p], id);
    assert forall r :: r in Armed(w'.pubs, id) ==> r in Armed(w.pubs, id) && r != p;
  }

  lemma CommitKeepsSerial(w: World, p: PubId, id: SubId)
    requires Mixed(w) && SerialLaw(w, id) && Enabled(w, BusRuns.Commit(p))
    ensures SerialLaw(Step(w, BusRuns.Commit(p)), id)
  {
    var w', q := Step(w, BusRuns.Commit(p)), w.pubs[p];
    assert TodoInv(w.cells, q.todo);
    TailOfTodo(w.cells, q.todo);
    if Narrowed(w', id) {
      if q.todo[0] == id {
        CommitEndsClaim(w, p, id);
      } else {
        assert Armed(w'.pubs, id) == Armed(w.pubs, id);
        if id in q.todo {
          assert p in Armed(w.pubs, id);
          ElsewhereStands(w.cells[id], q, w'.pubs[p], id);
        }
      }
    }
  }

  lemma CancelKeepsSerial(w: World, a: Action, id: SubId)
    requires Mixed(w) && SerialLaw(w, id) && OneAtATime(w, a, id) && (a.Cancel? || a.DropGuard?) && Enabled(w, a)
    ensures SerialLaw(Step(w, a), id)
  {
    var w' := Step(w, a);
    if Narrowed(w', id) {
      assert a.p !in Armed(w.pubs, id);
      assert Armed(w'.pubs, id) == Armed(w.pubs, id);
      assert w'.cells[id] == w.cells[id];
    }
  }

  lemma NextKeepsSerial(w: World, a: Action, id: SubId)
    requires Mixed(w) && SerialLaw(w, id) && OneAtATime(w, a, id)
    ensures SerialLaw(Next(w, a), id)
  {
    if Enabled(w, a) {
      match a
      case TryPublish(env) => SyncKeepsSerial(w, env, id);
      case Claim(_, _, _) => ClaimKeepsSerial(w, a, id);
      case Send(p) => SendKeepsSerial(w, p, id);
      case Commit(p) => CommitKeepsSerial(w, p, id);
      case Cancel(_) => CancelKeepsSerial(w, a, id);
      case DropGuard(_) => CancelKeepsSerial(w, a, id);
      case _ => ReaderKeepsSerial(w, a, id);
    }
  }

  lemma {:induction false} SerialFrom(w: World, acts: seq<Action>, id: SubId)
    requires Mixed(w) && SerialLaw(w, id) && OneAtATimeRun(w, acts, id)
    ensures Mixed(Run(w, acts)) && SerialLaw(Run(w, acts), id)
    decreases |acts|
  {
    if acts != [] {
      NextKeepsMixed(w, acts[0]);
      NextKeepsSerial(w, acts[0], id);
      SerialFrom(Next(w, acts[0]), acts[1..], id);
    }
  }

  /**
   When publishes to a Disconnect subscription come one at a time, of either
   kind and with any interleaving elsewhere: what it received and what is queued
   is a prefix of what was offered, all of it whenever it is live and no publish
   is under way, and the one notice names the end of that prefix.
   */
  lemma OneAtATimeIsGapFree(acts: seq<Action>, id: SubId)
    requires OneAtATimeRun(Start(), acts, id) && Narrowed(Run(Start(), acts), id)
    ensures var w := Run(Start(), acts); var c := w.cells[id];
            && c.hist.popped + c.slot.chan.queue <= c.hist.offered
            && (Live(c.slot) && Armed(w.pubs, id) == {} ==> c.hist.popped + c.slot.chan.queue == c.hist.offered)
            && (c.slot.notices == [] || c.slot.notices == [LastMark(c.hist.popped + c.slot.chan.queue)])
            && (Live(c.slot) ==> c.slot.notices == [])
  {
    SerialFrom(Start(), acts, id);
    var w := Run(Start(), acts);
    assert ChannelInv(w.cells[id]);
    if Armed(w.pubs, id) != {} {
      var p :| p in Armed(w.pubs, id);
      assert CellLaw(w.cells[id], Some(w.pubs[p]), id);
    }
  }
}
