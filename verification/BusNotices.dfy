/**
 The slow-consumer notice of a Disconnect subscription (`events/bus.rs`) when
 asynchronous publishers overlap.  It names the envelope whose bookkeeping was
 done last, which need not be the last one on the channel; this says exactly
 when it is.
 */
module BusNotices {
  import opened Wrappers
  import opened Envelopes
  import opened EventBus
  import opened BusRuns
  import opened BusOrder
  import opened BusLimits
  import opened BusGaps

  // ---- Claims on one subscription ----

  /** The send found the queue full; its commit will fire the notice. */
  ghost predicate Overflowed(q: Publisher, id: SubId)
  {
    q.Sending? && q.todo != [] && q.todo[0] == id && q.head == Sent(SlowConsumer)
  }

  ghost function LooseOnes(pubs: map<PubId, Publisher>, id: SubId): set<PubId>
  {
    set p | p in pubs && Loose(pubs[p], id)
  }

  ghost function OverflowedOnes(pubs: map<PubId, Publisher>, id: SubId): set<PubId>
  {
    set p | p in pubs && Overflowed(pubs[p], id)
  }

  /** How many claims can still deliver, are on the channel, and have overflowed. */
  datatype Counts = Counts(loose: nat, landed: nat, overflowed: nat)

  ghost function CountsOf(pubs: map<PubId, Publisher>, id: SubId): Counts
  {
    Counts(|LooseOnes(pubs, id)|, |Landed(pubs, id)|, |OverflowedOnes(pubs, id)|)
  }

  /** What one publisher adds to the counts. */
  ghost function Share(q: Publisher, id: SubId): Counts
  {
    Counts(One(Loose(q, id)), One(HasLanded(q, id)), One(Overflowed(q, id)))
  }

  ghost predicate Moved(n: Counts, was: Counts, n': Counts, now: Counts)
  {
    && n'.loose == n.loose - was.loose + now.loose
    && n'.landed == n.landed - was.landed + now.landed
    && n'.overflowed == n.overflowed - was.overflowed + now.overflowed
  }

  lemma CountsMove(pubs: map<PubId, Publisher>, p: PubId, q: Publisher, id: SubId)
    ensures Moved(CountsOf(pubs, id), if p in pubs then Share(pubs[p], id) else Counts(0, 0, 0),
                  CountsOf(pubs[p := q], id), Share(q, id))
  {
    SizesDifferBy(LooseOnes(pubs, id), LooseOnes(pubs[p := q], id), p);
    SizesDifferBy(Landed(pubs, id), Landed(pubs[p := q], id), p);
    SizesDifferBy(OverflowedOnes(pubs, id), OverflowedOnes(pubs[p := q], id), p);
  }

  lemma CountsOfOne(pubs: map<PubId, Publisher>, p: PubId, id: SubId)
    requires p in pubs
    ensures Loose(pubs[p], id) ==> CountsOf(pubs, id).loose > 0
    ensures HasLanded(pubs[p], id) ==> CountsOf(pubs, id).landed > 0
    ensures Overflowed(pubs[p], id) ==> CountsOf(pubs, id).overflowed > 0
  {
    assert Loose(pubs[p], id) ==> p in LooseOnes(pubs, id);
    assert HasLanded(pubs[p], id) ==> p in Landed(pubs, id);
    assert Overflowed(pubs[p], id) ==> p in OverflowedOnes(pubs, id);
  }

  lemma NoClaims(pubs: map<PubId, Publisher>, id: SubId)
    requires forall p :: p in pubs ==> id !in pubs[p].todo
    ensures CountsOf(pubs, id) == Counts(0, 0, 0)
  {
    assert LooseOnes(pubs, id) == {} && Landed(pubs, id) == {} && OverflowedOnes(pubs, id) == {};
  }

  // ---- When the notice can be wrong ----

  ghost predicate Disconnects(w: World, id: SubId)
  {
    id in w.cells && w.cells[id].slot.chan.Mpsc? && w.cells[id].slot.chan.policy == Disconnect
  }

  /** The notice, if there is one, names the last envelope on the channel. */
  ghost predicate NoticeAt(w: World, id: SubId)
  {
    Disconnects(w, id) ==>
      var c := w.cells[id]; c.slot.notices == [] || c.slot.notices == [LastMark(c.hist.sent)]
  }

  /** Whatever the publishers under way do, the notice names the last envelope on the channel. */
  ghost predicate StaysRight(w: World, id: SubId)
  {
    forall more :: Quietly(more) ==> NoticeAt(Run(w, more), id)
  }

  /** The last delivery whose bookkeeping is done is the last envelope on the channel. */
  ghost predicate UpToDate(c: Cell)
    requires c.slot.entry.Some?
  {
    c.slot.entry.value.last == LastMark(c.hist.sent)
  }

  /**
   After the entry has gone no claim may deliver past its notice.  Once a claim
   has overflowed nothing else may be under way.  Before that, there is room for
   all claims that can deliver, or the one claim finds a full queue and no
   delivery without its bookkeeping.
   */
  ghost predicate Calm(c: Cell, n: Counts)
    requires c.slot.chan.Mpsc?
  {
    var ch := c.slot.chan;
    if c.slot.entry.None? then
      c.slot.notices == [] || (c.slot.notices == [LastMark(c.hist.sent)] && (ch.open ==> n.loose == 0))
    else if n.overflowed > 0 then
      UpToDate(c) && n.landed == 0 && (ch.open ==> n.loose == 0)
    else
      || !ch.open
      || |ch.queue| + n.loose <= ch.capacity
      || (|ch.queue| == ch.capacity && n.loose == 1 && n.landed == 0 && UpToDate(c))
  }

  ghost predicate CalmAt(w: World, id: SubId)
  {
    Disconnects(w, id) ==> Calm(w.cells[id], CountsOf(w.pubs, id))
  }

  lemma CalmIsRight(w: World, id: SubId)
    requires Mixed(w) && CalmAt(w, id)
    ensures NoticeAt(w, id)
  {
    if Disconnects(w, id) { assert ChannelInv(w.cells[id]); }
  }

  lemma PolicyStays(w: World, a: Action, id: SubId)
    requires WellFormed(w) && Enabled(w, a) && (id in w.cells || !a.Subscribe?)
    ensures Disconnects(Step(w, a), id) <==> Disconnects(w, id)
  {
    if id in w.cells && (a.TryPublish? || a.Claim?) { VisitKeepsKind(w.cells[id], a.env); }
  }

  // ---- Marks ----

  /** Claims have marks of their own. */
  ghost predicate ClaimsInv(w: World, id: SubId)
  {
    && (forall p, q :: p in Armed(w.pubs, id) && q in Armed(w.pubs, id) && p != q ==>
          MarkOf(w.pubs[p].env) != MarkOf(w.pubs[q].env))
    && (Disconnects(w, id) ==>
          && LastIsSent(w.cells[id])
          && forall p :: p in Armed(w.pubs, id) ==> ClaimInv(w.cells[id], w.pubs[p], id))
  }

  /** The mark is not on the channel before the claim lands, nor recorded before it commits; no send waits. */
  ghost predicate ClaimInv(c: Cell, q: Publisher, id: SubId)
  {
    && (q.Sending? && q.todo != [] && q.todo[0] == id ==> q.head != Waiting)
    && (if HasLanded(q, id) then q.env in c.hist.sent else Unmarked(c, q.env))
    && (c.slot.entry.Some? ==> c.slot.entry.value.last != Some(MarkOf(q.env)))
  }

  ghost predicate Unmarked(c: Cell, env: Envelope) { forall e :: e in c.hist.sent ==> MarkOf(e) != MarkOf(env) }

  ghost predicate LastIsSent(c: Cell)
  {
    c.slot.entry.Some? && c.slot.entry.value.last.Some? ==>
      exists e :: e in c.hist.sent && MarkOf(e) == c.slot.entry.value.last.value
  }

  /** Each publish has a mark of its own. */
  ghost predicate NewMark(w: World, a: Action, id: SubId)
  {
    IsPublish(a) ==>
      && (forall p :: p in w.pubs ==> MarkOf(w.pubs[p].env) != MarkOf(a.env))
      && (id in w.cells ==> Unmarked(w.cells[id], a.env))
  }

  /** The claims are the same, each with the same envelope and its own mark in the new cell. */
  ghost predicate FewerClaims(w: World, w': World, id: SubId)
  {
    forall p :: p in Armed(w'.pubs, id) ==>
      && p in Armed(w.pubs, id) && w'.pubs[p].env == w.pubs[p].env
      && (Disconnects(w', id) ==> ClaimInv(w'.cells[id], w'.pubs[p], id))
  }

  lemma FewerKeepMarks(w: World, w': World, id: SubId)
    requires ClaimsInv(w, id) && FewerClaims(w, w', id) && (Disconnects(w', id) ==> LastIsSent(w'.cells[id]))
    ensures ClaimsInv(w', id)
  {
  }

  lemma SyncMark(c: Cell, env: Envelope, q: Publisher, id: SubId)
    requires c.slot.chan.Mpsc? && LastIsSent(c)
    ensures LastIsSent(SyncCell(c, env))
    ensures ClaimInv(c, q, id) && MarkOf(q.env) != MarkOf(env) ==> ClaimInv(SyncCell(c, env), q, id)
  {
    var c' := SyncCell(c, env);
    assert c'.hist.sent == c.hist.sent || c'.hist.sent == c.hist.sent + [env];
    assert c'.hist.sent == c.hist.sent ==>
        c'.slot.entry.None? || (c.slot.entry.Some? && c'.slot.entry.value.last == c.slot.entry.value.last);
  }

  lemma SyncKeepsMarks(w: World, env: Envelope, id: SubId)
    requires ClaimsInv(w, id) && NewMark(w, TryPublish(env), id)
    ensures ClaimsInv(Step(w, TryPublish(env)), id)
  {
    var w' := Step(w, TryPublish(env));
    if Disconnects(w', id) {
      VisitKeepsKind(w.cells[id], env);
      assert Disconnects(w, id);
      forall p | p in Armed(w.pubs, id) ensures ClaimInv(w'.cells[id], w.pubs[p], id) {
        SyncMark(w.cells[id], env, w.pubs[p], id);
      }
      SyncMark(w.cells[id], env, Cancelled(env, []), id);
    }
    FewerKeepMarks(w, w', id);
  }

  lemma NewClaimMark(c: Cell, q: Publisher, id: SubId)
    requires c.slot.chan.Mpsc? && LastIsSent(c) && Unmarked(c, q.env) && q.Sending? && q.head == Fresh
    ensures ClaimInv(c, q, id)
  {
  }

  lemma ClaimKeepsMarks(w: World, a: Action, id: SubId)
    requires Mixed(w) && ClaimsInv(w, id) && a.Claim? && Enabled(w, a) && NewMark(w, a, id)
    ensures ClaimsInv(Step(w, a), id)
  {
    var w' := Step(w, a);
    if id in w.cells { VisitKeepsKind(w.cells[id], a.env); }
    if Disconnects(w', id) {
      var w1 := ClaimEffect(w, a, id);
      ClaimedMarks(w, w', a, id);
    }
    forall p, q | p in Armed(w'.pubs, id) && q in Armed(w'.pubs, id) && p != q
      ensures MarkOf(w'.pubs[p].env) != MarkOf(w'.pubs[q].env)
    {
      assert p != a.p ==> p in Armed(w.pubs, id);
      assert q != a.p ==> q in Armed(w.pubs, id);
    }
  }

  lemma ClaimedMarks(w: World, w': World, a: Action, id: SubId)
    requires a.Claim? && ClaimsInv(w, id) && Disconnects(w, id) && Disconnects(w', id) && NewMark(w, a, id)
    requires a.p !in w.pubs && a.p in w'.pubs && w'.pubs == w.pubs[a.p := w'.pubs[a.p]] && w'.pubs[a.p].env == a.env
    requires w'.cells[id] == ClaimCell(w.cells[id], a.env) && w'.pubs[a.p].Sending? && w'.pubs[a.p].head == Fresh
    ensures LastIsSent(w'.cells[id])
    ensures forall p :: p in Armed(w'.pubs, id) ==> ClaimInv(w'.cells[id], w'.pubs[p], id)
  {
    var c, c' := w.cells[id], w'.cells[id];
    assert c'.hist.sent == c.hist.sent && c'.slot.entry.Some? == c.slot.entry.Some?;
    assert c.slot.entry.Some? ==> c'.slot.entry.value.last == c.slot.entry.value.last;
    NewClaimMark(c, w'.pubs[a.p], id);
    forall p | p in Armed(w'.pubs, id) ensures ClaimInv(c', w'.pubs[p], id) {
      assert p != a.p ==> p in Armed(w.pubs, id) && ClaimInv(c, w.pubs[p], id);
    }
  }

  lemma SendKeepsMarks(w: World, p: PubId, id: SubId)
    requires ClaimsInv(w, id) && Enabled(w, Send(p))
    ensures ClaimsInv(Step(w, Send(p)), id)
  {
    var w' := Step(w, Send(p));
    assert Disconnects(w', id) ==> Disconnects(w, id);
    forall q | q in Armed(w'.pubs, id)
      ensures q in Armed(w.pubs, id) && (Disconnects(w', id) ==> ClaimInv(w'.cells[id], w'.pubs[q], id))
    {
      assert q in Armed(w.pubs, id);
      if Disconnects(w', id) { SendMark(w, p, q, id); }
    }
    FewerKeepMarks(w, w', id);
  }

  lemma SendMark(w: World, p: PubId, q: PubId, id: SubId)
    requires ClaimsInv(w, id) && Enabled(w, Send(p)) && q in Armed(w.pubs, id) && Disconnects(w, id)
    ensures var w' := Step(w, Send(p)); q in w'.pubs && id in w'.cells && ClaimInv(w'.cells[id], w'.pubs[q], id)
  {
    assert ClaimInv(w.cells[id], w.pubs[q], id);
    if w.pubs[p].todo[0] == id { assert p in Armed(w.pubs, id); }
  }

  lemma CommitKeepsMarks(w: World, a: Action, id: SubId)
    requires WellFormed(w) && ClaimsInv(w, id) && Enabled(w, a) && (a.Commit? || a.Cancel? || a.DropGuard?)
    ensures ClaimsInv(Step(w, a), id)
  {
    var w', p := Step(w, a), a.p;
    assert TodoInv(w.cells, w.pubs[p].todo);
    TailOfTodo(w.cells, w.pubs[p].todo);
    PolicyStays(w, a, id);
    forall q | q in Armed(w'.pubs, id)
      ensures q in Armed(w.pubs, id) && w'.pubs[q].env == w.pubs[q].env
      ensures Disconnects(w', id) ==> ClaimInv(w'.cells[id], w'.pubs[q], id)
    {
      assert q in Armed(w.pubs, id);
      if Disconnects(w', id) { CommitMark(w, a, q, id); }
    }
    if Disconnects(w', id) { CommitLast(w, a, id); }
    FewerKeepMarks(w, w', id);
  }

  lemma CommitLast(w: World, a: Action, id: SubId)
    requires ClaimsInv(w, id) && Enabled(w, a) && (a.Commit? || a.Cancel? || a.DropGuard?) && Disconnects(w, id)
    ensures id in Step(w, a).cells && LastIsSent(Step(w, a).cells[id])
  {
    if w.pubs[a.p].todo[0] == id { assert ClaimInv(w.cells[id], w.pubs[a.p], id); }
  }

  lemma CommitMark(w: World, a: Action, q: PubId, id: SubId)
    requires ClaimsInv(w, id) && Enabled(w, a) && (a.Commit? || a.Cancel? || a.DropGuard?) && Disconnects(w, id)
    requires TodoInv(w.cells, w.pubs[a.p].todo) && q in Armed(w.pubs, id) && q in Armed(Step(w, a).pubs, id)
    ensures id in Step(w, a).cells && ClaimInv(Step(w, a).cells[id], Step(w, a).pubs[q], id)
  {
    assert ClaimInv(w.cells[id], w.pubs[q], id);
    TailOfTodo(w.cells, w.pubs[a.p].todo);
    if w.pubs[a.p].todo[0] == id { assert a.p in Armed(w.pubs, id); }
  }

  lemma ReaderKeepsMarks(w: World, a: Action, id: SubId)
    requires WellFormed(w) && ClaimsInv(w, id) && Enabled(w, a)
    requires a.Subscribe? || a.Unsubscribe? || a.DropReceiver? || a.Pop?
    ensures ClaimsInv(Step(w, a), id)
  {
    var w' := Step(w, a);
    if id in w'.cells && id !in w.cells {
      forall p | p in w.pubs ensures id !in w.pubs[p].todo { assert TodoInv(w.cells, w.pubs[p].todo); }
    }
    FewerKeepMarks(w, w', id);
  }

  lemma NextKeepsMarks(w: World, a: Action, id: SubId)
    requires Mixed(w) && ClaimsInv(w, id) && NewMark(w, a, id)
    ensures ClaimsInv(Next(w, a), id)
  {
    if Enabled(w, a) {
      match a
      case TryPublish(env) => SyncKeepsMarks(w, env, id);
      case Claim(_, _, _) => ClaimKeepsMarks(w, a, id);
      case Send(p) => SendKeepsMarks(w, p, id);
      case Commit(_) => CommitKeepsMarks(w, a, id);
      case Cancel(_) => CommitKeepsMarks(w, a, id);
      case DropGuard(_) => CommitKeepsMarks(w, a, id);
      case _ => ReaderKeepsMarks(w, a, id);
    }
  }

  // ---- Publishers under way keep calm ----

  lemma SendKeepsCalm(c: Cell, q: Publisher, head: Head, n: Counts, n': Counts, id: SubId)
    requires ChannelInv(c) && c.slot.chan.Mpsc? && c.slot.chan.policy == Disconnect
    requires q.Sending? && q.todo != [] && q.todo[0] == id && q.head == Fresh && head == FirstTry(c.slot.chan)
    requires Moved(n, Share(q, id), n', Share(q.(head := head), id)) && Calm(c, n)
    ensures Calm(SendCell(c, q.env, head), n')
  {
  }

  lemma CommitKeepsCalm(c: Cell, q: Publisher, n: Counts, n': Counts, id: SubId)
    requires ChannelInv(c) && c.slot.chan.Mpsc? && c.slot.chan.policy == Disconnect
    requires q.Sending? && q.todo != [] && q.todo[0] == id && q.head.Sent?
    requires Moved(n, Share(q, id), n', Counts(0, 0, 0)) && Calm(c, n)
    ensures Calm(CommitCell(c, q.env, q.head.outcome), n')
  {
  }

  lemma ReaderKeepsCalm(c: Cell, n: Counts)
    requires ChannelInv(c) && c.slot.chan.Mpsc? && Calm(c, n)
    ensures Calm(PopCell(c), n) && Calm(DropReceiverCell(c), n)
    ensures Calm(c.(slot := Remove(c.slot)), n) && Calm(c.(slot := Refund(c.slot)), n)
  {
  }

  /** A publisher that drops a claim, or is busy elsewhere, does not disturb. */
  lemma FewerLoose(c: Cell, n: Counts, n': Counts)
    requires c.slot.chan.Mpsc? && Calm(c, n) && n'.loose <= n.loose && n'.landed == n.landed
    requires n'.overflowed == n.overflowed
    ensures Calm(c, n')
  {
  }

  lemma PublisherStepCalm(w: World, a: Action, id: SubId)
    requires Mixed(w) && ClaimsInv(w, id) && CalmAt(w, id) && Enabled(w, a)
    requires a.Send? || a.Commit? || a.Cancel? || a.DropGuard?
    ensures CalmAt(Step(w, a), id)
  {
    PolicyStays(w, a, id);
    if Disconnects(w, id) {
      if w.pubs[a.p].todo[0] != id {
        ElsewhereCalm(w, a, id);
      } else if a.Send? {
        SendStepCalm(w, a, id);
      } else {
        HeadStepCalm(w, a, id);
      }
    }
  }

  lemma SendStepCalm(w: World, a: Action, id: SubId)
    requires Mixed(w) && ClaimsInv(w, id) && Disconnects(w, id) && CalmAt(w, id) && Enabled(w, a)
    requires a.Send? && w.pubs[a.p].todo[0] == id
    ensures CalmAt(Step(w, a), id)
  {
    var q, c := w.pubs[a.p], w.cells[id];
    var head := FirstTry(c.slot.chan);
    assert a.p in Armed(w.pubs, id) && ClaimInv(c, q, id) && ChannelInv(c);
    CountsMove(w.pubs, a.p, q.(head := head), id);
    assert Step(w, a).pubs == w.pubs[a.p := q.(head := head)];
    SendKeepsCalm(c, q, head, CountsOf(w.pubs, id), CountsOf(Step(w, a).pubs, id), id);
  }

  lemma HeadStepCalm(w: World, a: Action, id: SubId)
    requires (a.Commit? || a.Cancel? || a.DropGuard?) && Enabled(w, a) && w.pubs[a.p].todo[0] == id
    requires Mixed(w) && ClaimsInv(w, id) && Disconnects(w, id) && CalmAt(w, id)
    ensures CalmAt(Step(w, a), id)
  {
    var q, q', c := w.pubs[a.p], Step(w, a).pubs[a.p], w.cells[id];
    assert a.p in Armed(w.pubs, id) && ClaimInv(c, q, id) && ChannelInv(c) && TodoInv(w.cells, q.todo);
    TailOfTodo(w.cells, q.todo);
    CountsMove(w.pubs, a.p, q', id);
    assert Step(w, a).pubs == w.pubs[a.p := q'];
    if a.Commit? {
      CommitKeepsCalm(c, q, CountsOf(w.pubs, id), CountsOf(Step(w, a).pubs, id), id);
    } else {
      ReaderKeepsCalm(c, CountsOf(w.pubs, id));
    }
  }

  lemma ElsewhereCalm(w: World, a: Action, id: SubId)
    requires WellFormed(w) && Disconnects(w, id) && CalmAt(w, id) && Enabled(w, a)
    requires (a.Send? || a.Commit? || a.Cancel? || a.DropGuard?) && w.pubs[a.p].todo[0] != id
    ensures CalmAt(Step(w, a), id)
  {
    assert TodoInv(w.cells, w.pubs[a.p].todo);
    TailOfTodo(w.cells, w.pubs[a.p].todo);
    CountsMove(w.pubs, a.p, Step(w, a).pubs[a.p], id);
    FewerLoose(w.cells[id], CountsOf(w.pubs, id), CountsOf(Step(w, a).pubs, id));
  }

  lemma ReaderStepCalm(w: World, a: Action, id: SubId)
    requires Mixed(w) && CalmAt(w, id) && Enabled(w, a)
    requires a.Subscribe? || a.Unsubscribe? || a.DropReceiver? || a.Pop?
    ensures CalmAt(Step(w, a), id)
  {
    var w' := Step(w, a);
    if Disconnects(w', id) {
      if id in w.cells {
        assert ChannelInv(w.cells[id]);
        ReaderKeepsCalm(w.cells[id], CountsOf(w.pubs, id));
      } else {
        forall p | p in w.pubs ensures id !in w.pubs[p].todo { assert TodoInv(w.cells, w.pubs[p].todo); }
        NoClaims(w.pubs, id);
      }
    }
  }

  lemma QuietKeepsCalm(w: World, a: Action, id: SubId)
    requires Mixed(w) && ClaimsInv(w, id) && CalmAt(w, id) && !IsPublish(a)
    ensures CalmAt(Next(w, a), id)
  {
    if Enabled(w, a) {
      if a.Subscribe? || a.Unsubscribe? || a.DropReceiver? || a.Pop? {
        ReaderStepCalm(w, a, id);
      } else {
        PublisherStepCalm(w, a, id);
      }
    }
  }

  lemma {:induction false} CalmRunsStay(w: World, more: seq<Action>, id: SubId)
    requires Mixed(w) && ClaimsInv(w, id) && CalmAt(w, id) && Quietly(more)
    ensures NoticeAt(Run(w, more), id)
    decreases |more|
  {
    if more == [] {
      CalmIsRight(w, id);
    } else {
      assert more[0] in more;
      NextKeepsMixed(w, more[0]);
      NextKeepsMarks(w, more[0], id);
      QuietKeepsCalm(w, more[0], id);
      CalmRunsStay(Next(w, more[0]), more[1..], id);
    }
  }

  // ---- Otherwise a wrong notice can come ----

  lemma StaysAfter(w: World, acts: seq<Action>, id: SubId)
    requires StaysRight(w, id) && Quietly(acts)
    ensures StaysRight(Run(w, acts), id)
  {
    forall more | Quietly(more) ensures NoticeAt(Run(Run(w, acts), more), id) {
      RunConcat(w, acts, more);
      assert Quietly(acts + more);
    }
  }

  lemma StaysNext(w: World, a: Action, id: SubId)
    requires StaysRight(w, id) && !IsPublish(a)
    ensures StaysRight(Next(w, a), id)
  {
    StaysAfter(w, [a], id);
    assert Run(w, [a]) == Next(w, a);
  }

  lemma RightNow(w: World, id: SubId)
    requires StaysRight(w, id)
    ensures NoticeAt(w, id)
  {
    assert Quietly([]) && Run(w, []) == w;
  }

  /** A Disconnect subscription whose notice cannot be wrong. */
  ghost predicate Sure(w: World, id: SubId)
  {
    Mixed(w) && ClaimsInv(w, id) && Disconnects(w, id) && StaysRight(w, id)
  }

  lemma NextIsSure(w: World, a: Action, id: SubId)
    requires Sure(w, id) && !IsPublish(a)
    ensures Sure(Next(w, a), id)
  {
    NextKeepsMixed(w, a);
    NextKeepsMarks(w, a, id);
    if Enabled(w, a) { PolicyStays(w, a, id); }
    StaysNext(w, a, id);
  }

  lemma RunIsSure(w: World, acts: seq<Action>, id: SubId)
    requires Sure(w, id) && Quietly(acts)
    ensures Sure(Run(w, acts), id)
  {
    RunKeepsMixed(w, acts);
    RunKeepsMarks(w, acts, id);
    KeepsPolicy(w, acts, id);
    StaysAfter(w, acts, id);
  }

  /** A claim that delivers after the notice makes it wrong. */
  lemma GoneIsCalm(w: World, id: SubId)
    requires Sure(w, id) && w.cells[id].slot.entry.None?
    ensures CalmAt(w, id)
  {
    var c := w.cells[id];
    RightNow(w, id);
    if c.slot.notices != [] && c.slot.chan.open && LooseOnes(w.pubs, id) != {} {
      var p :| p in LooseOnes(w.pubs, id);
      assert p in Armed(w.pubs, id) && ClaimInv(c, w.pubs[p], id);
      var acts := Drive(w, p, id);
      LaterMark(c.hist.sent, w.pubs[p].env);
      KeepsPolicy(w, acts, id);
      assert !NoticeAt(Run(w, acts), id);
    }
  }

  lemma LaterMark(sent: seq<Envelope>, e: Envelope)
    requires forall x :: x in sent ==> MarkOf(x) != MarkOf(e)
    ensures LastMark(sent + [e]) != LastMark(sent)
  {
  }

  lemma {:induction false} KeepsPolicy(w: World, acts: seq<Action>, id: SubId)
    requires Mixed(w) && Disconnects(w, id)
    ensures Disconnects(Run(w, acts), id)
    decreases |acts|
  {
    if acts != [] {
      NextKeepsMixed(w, acts[0]);
      if Enabled(w, acts[0]) { PolicyStays(w, acts[0], id); }
      KeepsPolicy(Next(w, acts[0]), acts[1..], id);
    }
  }

  lemma CommitOverflow(w: World, p: PubId, id: SubId)
    requires Mixed(w) && Disconnects(w, id) && w.cells[id].slot.entry.Some? && p in OverflowedOnes(w.pubs, id)
    ensures var w' := Next(w, BusRuns.Commit(p));
            && id in w'.cells && CountsOf(w'.pubs, id).loose == CountsOf(w.pubs, id).loose
            && w'.cells[id] == CommitCell(w.cells[id], w.pubs[p].env, SlowConsumer)
            && w'.cells[id].slot.notices == [w.cells[id].slot.entry.value.last]
  {
    assert TodoInv(w.cells, w.pubs[p].todo) && ChannelInv(w.cells[id]);
    TailOfTodo(w.cells, w.pubs[p].todo);
    CountsMove(w.pubs, p, Next(w, BusRuns.Commit(p)).pubs[p], id);
  }

  /** The commit of an overflowed claim fires the notice and removes the entry. */
  lemma Fires(w: World, p: PubId, id: SubId) returns (w': World)
    requires Sure(w, id) && w.cells[id].slot.entry.Some?
    requires p in OverflowedOnes(w.pubs, id)
    ensures w' == Next(w, BusRuns.Commit(p)) && Sure(w', id)
    ensures CountsOf(w'.pubs, id).loose == CountsOf(w.pubs, id).loose
    ensures var c, c' := w.cells[id], w'.cells[id];
            && c'.slot.entry.None? && c'.slot.notices == [c.slot.entry.value.last] && c'.slot.chan == c.slot.chan
            && c'.hist.sent == c.hist.sent
  {
    w' := Next(w, BusRuns.Commit(p));
    CommitOverflow(w, p, id);
    NextIsSure(w, BusRuns.Commit(p), id);
  }

  lemma OverflowIsUpToDate(w: World, p: PubId, id: SubId)
    requires Sure(w, id) && w.cells[id].slot.entry.Some?
    requires p in OverflowedOnes(w.pubs, id)
    ensures UpToDate(w.cells[id]) && (w.cells[id].slot.chan.open ==> CountsOf(w.pubs, id).loose == 0)
  {
    var w' := Fires(w, p, id);
    RightNow(w', id);
    GoneIsCalm(w', id);
  }

  /** A delivery committed between the overflow and its commit becomes the one that the notice names. */
  lemma CommitFirst(w: World, p: PubId, q: PubId, id: SubId) returns (w': World)
    requires Sure(w, id) && w.cells[id].slot.entry.Some?
    requires p in OverflowedOnes(w.pubs, id) && q in Landed(w.pubs, id)
    ensures Sure(w', id)
    ensures p in OverflowedOnes(w'.pubs, id)
    ensures var c, c' := w.cells[id], w'.cells[id];
            && c'.slot.entry.Some? && c'.slot.entry.value.last == Some(MarkOf(w.pubs[q].env))
            && c'.hist.sent == c.hist.sent
  {
    w' := Next(w, BusRuns.Commit(q));
    CommitLanded(w, p, q, id);
    NextIsSure(w, BusRuns.Commit(q), id);
  }

  lemma CommitLanded(w: World, p: PubId, q: PubId, id: SubId)
    requires Mixed(w) && Disconnects(w, id) && w.cells[id].slot.entry.Some?
    requires p in OverflowedOnes(w.pubs, id) && q in Landed(w.pubs, id)
    ensures var w' := Next(w, BusRuns.Commit(q));
            && id in w'.cells && p in OverflowedOnes(w'.pubs, id)
            && w'.cells[id].slot.entry == Some(Settle(w.cells[id].slot.entry.value, w.pubs[q].env))
            && w'.cells[id].hist.sent == w.cells[id].hist.sent
  {
    InFlightTwice(w, p, q, id);
  }

  lemma InFlightTwice(w: World, p: PubId, q: PubId, id: SubId)
    requires Mixed(w) && id in w.cells && w.cells[id].slot.entry.Some? && p != q
    requires p in Armed(w.pubs, id) && q in Armed(w.pubs, id)
    ensures w.cells[id].slot.entry.value.inFlight >= 2
  {
    CardinalityMonotone({p, q}, Armed(w.pubs, id));
    assert CellOk(w, id, false);
  }

  lemma OverflowIsCalm(w: World, p: PubId, id: SubId)
    requires Sure(w, id) && w.cells[id].slot.entry.Some?
    requires p in OverflowedOnes(w.pubs, id)
    ensures CalmAt(w, id)
  {
    OverflowIsUpToDate(w, p, id);
    if Landed(w.pubs, id) != {} {
      var q :| q in Landed(w.pubs, id);
      assert q in Armed(w.pubs, id) && ClaimInv(w.cells[id], w.pubs[q], id);
      var w' := CommitFirst(w, p, q, id);
      OverflowIsUpToDate(w', p, id);
      assert false;
    }
  }

  /** A loose claim reaches the head of its publisher. */
  lemma ReachLoose(w: World, p: PubId, id: SubId) returns (w': World)
    requires Sure(w, id) && w.cells[id].slot.chan.open && p in LooseOnes(w.pubs, id)
    ensures Sure(w', id) && SameFor(w, w', p, id) && w'.pubs[p].todo[0] == id && !w'.pubs[p].head.Sent?
    ensures Loose(w'.pubs[p], id) && CountsOf(w'.pubs, id) == CountsOf(w.pubs, id)
  {
    var first := Reach(w, p, id);
    w' := Run(w, first);
    RunIsSure(w, first, id);
    CountsMove(w.pubs, p, w'.pubs[p], id);
  }

  /** It sends. */
  lemma SendLoose(w: World, p: PubId, id: SubId) returns (w': World)
    requires Sure(w, id) && w.cells[id].slot.chan.open && p in LooseOnes(w.pubs, id)
    ensures Sure(w', id) && p in w.pubs && p in w'.pubs
    ensures var c, c', q := w.cells[id], w'.cells[id], w'.pubs[p];
            && c' == SendCell(c, w.pubs[p].env, FirstTry(c.slot.chan))
            && q.Sending? && q.todo != [] && q.todo[0] == id && q.head == FirstTry(c.slot.chan)
            && Moved(CountsOf(w.pubs, id), Counts(1, 0, 0), CountsOf(w'.pubs, id), Share(q, id))
  {
    var w1 := ReachLoose(w, p, id);
    w' := SendNow(w1, p, id);
    CountsMove(w1.pubs, p, w'.pubs[p], id);
  }

  lemma SendNow(w: World, p: PubId, id: SubId) returns (w': World)
    requires Sure(w, id) && Ready(w, p)
    requires w.pubs[p].Sending? && w.pubs[p].todo[0] == id && !w.pubs[p].head.Sent?
    ensures Sure(w', id)
    ensures var head := FirstTry(w.cells[id].slot.chan);
            && w'.cells[id] == SendCell(w.cells[id], w.pubs[p].env, head)
            && w'.pubs == w.pubs[p := w.pubs[p].(head := head)]
  {
    assert p in Armed(w.pubs, id) && ClaimInv(w.cells[id], w.pubs[p], id);
    w' := Next(w, Send(p));
    NextIsSure(w, Send(p), id);
  }

  lemma {:induction false} RunKeepsMarks(w: World, more: seq<Action>, id: SubId)
    requires Mixed(w) && ClaimsInv(w, id) && Quietly(more)
    ensures ClaimsInv(Run(w, more), id)
    decreases |more|
  {
    if more != [] {
      assert more[0] in more;
      NextKeepsMixed(w, more[0]);
      NextKeepsMarks(w, more[0], id);
      RunKeepsMarks(Next(w, more[0]), more[1..], id);
    }
  }

  /** Claims that do not fit fill the queue one by one, until one of them overflows. */
  lemma {:induction false} LiveIsCalm(w: World, id: SubId)
    requires Sure(w, id) && w.cells[id].slot.entry.Some?
    ensures CalmAt(w, id)
    decreases w.cells[id].slot.chan.capacity - |w.cells[id].slot.chan.queue|
  {
    var c, n := w.cells[id], CountsOf(w.pubs, id);
    assert ChannelInv(c);
    if OverflowedOnes(w.pubs, id) != {} {
      var p :| p in OverflowedOnes(w.pubs, id);
      OverflowIsCalm(w, p, id);
    } else if c.slot.chan.open && |c.slot.chan.queue| + n.loose > c.slot.chan.capacity {
      var p :| p in LooseOnes(w.pubs, id);
      var w' := SendLoose(w, p, id);
      CountsOfOne(w'.pubs, p, id);
      if Room(c.slot.chan) {
        LiveIsCalm(w', id);
        assert false;
      } else {
        OverflowIsCalm(w', p, id);
      }
    }
  }

  /**
   Without new publishes the notice cannot be wrong, exactly when the claims
   under way fit in the queue or nothing else is left but the one that overflows.
   */
  lemma StaysRightIff(w: World, id: SubId)
    requires Mixed(w) && ClaimsInv(w, id)
    ensures StaysRight(w, id) <==> CalmAt(w, id)
  {
    if CalmAt(w, id) {
      forall more | Quietly(more) ensures NoticeAt(Run(w, more), id) { CalmRunsStay(w, more, id); }
    } else if StaysRight(w, id) {
      if w.cells[id].slot.entry.None? { GoneIsCalm(w, id); } else { LiveIsCalm(w, id); }
    }
  }

  // ---- Whole runs ----

  /**
   What a synchronous publish must find: at a full queue, the bookkeeping done
   and no claim that can deliver; otherwise, room for itself and the claims, or
   quota for itself only.
   */
  ghost predicate SyncMindful(c: Cell, env: Envelope, n: Counts)
    requires c.slot.chan.Mpsc?
  {
    Matches(c.slot, env) && c.slot.chan.open ==>
      var queued, capacity := |c.slot.chan.queue|, c.slot.chan.capacity;
      if queued >= capacity then UpToDate(c) && n.loose == 0
      else
        || Spend(c.slot.entry.value, env).remaining == Some(0)
        || queued + 1 + n.loose <= capacity
        || (queued + 1 == capacity && n.loose == 1 && n.landed == 0)
  }

  /** A claim must leave the subscription calm with one loose claim more. */
  ghost predicate Mindful(w: World, a: Action, id: SubId)
  {
    IsPublish(a) && Enabled(w, a) && Disconnects(w, id) ==>
      var c, n := w.cells[id], CountsOf(w.pubs, id);
      if a.TryPublish? then SyncMindful(c, a.env, n)
      else Claims(c.slot, a.env) ==> Calm(c, n.(loose := n.loose + 1))
  }

  ghost predicate MindfulRun(w: World, acts: seq<Action>, id: SubId)
    decreases |acts|
  {
    acts == [] || (Mindful(w, acts[0], id) && MindfulRun(Next(w, acts[0]), acts[1..], id))
  }

  ghost predicate NewMarks(w: World, acts: seq<Action>, id: SubId)
    decreases |acts|
  {
    acts == [] || (NewMark(w, acts[0], id) && NewMarks(Next(w, acts[0]), acts[1..], id))
  }

  lemma SyncedCellCalmIff(c: Cell, env: Envelope, n: Counts)
    requires ChannelInv(c) && c.slot.chan.Mpsc? && c.slot.chan.policy == Disconnect && Calm(c, n)
    ensures SyncCell(c, env).slot.chan.Mpsc? && (SyncMindful(c, env, n) <==> Calm(SyncCell(c, env), n))
  {
    var c' := SyncCell(c, env);
    if Matches(c.slot, env) {
      var last := c.slot.entry.value.last;
      assert LastMark(c.hist.sent + [env]) == Some(MarkOf(env));
      assert !Room(c.slot.chan) && c.slot.chan.open ==> c'.slot.notices[0] == last;
    }
  }

  lemma SyncCalmIff(w: World, env: Envelope, id: SubId)
    requires Mixed(w) && CalmAt(w, id)
    ensures Mindful(w, TryPublish(env), id) <==> CalmAt(Step(w, TryPublish(env)), id)
  {
    PolicyStays(w, TryPublish(env), id);
    if Disconnects(w, id) {
      assert ChannelInv(w.cells[id]);
      SyncedCellCalmIff(w.cells[id], env, CountsOf(w.pubs, id));
    }
  }

  lemma ClaimedCellCalmIff(c: Cell, env: Envelope, n: Counts)
    requires c.slot.chan.Mpsc?
    ensures ClaimCell(c, env).slot.chan.Mpsc? && (Calm(ClaimCell(c, env), n) <==> Calm(c, n))
  {
  }

  lemma ClaimCalmIff(w: World, a: Action, id: SubId)
    requires Mixed(w) && CalmAt(w, id) && a.Claim? && Enabled(w, a)
    ensures Mindful(w, a, id) <==> CalmAt(Step(w, a), id)
  {
    PolicyStays(w, a, id);
    if Disconnects(w, id) {
      var w' := ClaimEffect(w, a, id);
      CountsMove(w.pubs, a.p, w'.pubs[a.p], id);
      ClaimedCellCalmIff(w.cells[id], a.env, CountsOf(w'.pubs, id));
    }
  }

  lemma NextCalmIff(w: World, a: Action, id: SubId)
    requires Mixed(w) && ClaimsInv(w, id) && CalmAt(w, id)
    ensures Mindful(w, a, id) <==> CalmAt(Next(w, a), id)
  {
    if !IsPublish(a) {
      QuietKeepsCalm(w, a, id);
    } else if Enabled(w, a) {
      if a.Claim? { ClaimCalmIff(w, a, id); } else { SyncCalmIff(w, a.env, id); }
    }
  }

  lemma {:induction false} NoticeFrom(w: World, acts: seq<Action>, id: SubId)
    requires Mixed(w) && ClaimsInv(w, id) && CalmAt(w, id) && NewMarks(w, acts, id)
    ensures (forall k :: 0 <= k <= |acts| ==> StaysRight(Run(w, acts[..k]), id)) <==> MindfulRun(w, acts, id)
    decreases |acts|
  {
    StaysRightIff(w, id);
    if acts == [] {
      assert acts[..0] == [];
    } else {
      var w', rest := Next(w, acts[0]), acts[1..];
      NextKeepsMixed(w, acts[0]);
      NextKeepsMarks(w, acts[0], id);
      NextCalmIff(w, acts[0], id);
      StaysRightIff(w', id);
      forall k | 1 <= k <= |acts| ensures Run(w, acts[..k]) == Run(w', rest[..k - 1]) { RunPrefix(w, acts, k); }
      if Mindful(w, acts[0], id) {
        NoticeFrom(w', rest, id);
        forall j | 0 <= j <= |rest| ensures Run(w, acts[..j + 1]) == Run(w', rest[..j]) {}
      } else {
        assert Run(w, acts[..1]) == w';
      }
    }
  }

  /**
   Over every run of both kinds of publishes with different marks, for a
   Disconnect subscription: at no point is the notice wrong, nor can the
   publishers under way make it wrong, exactly when every publish is mindful.
   */
  lemma NoticeIff(acts: seq<Action>, id: SubId)
    requires NewMarks(Start(), acts, id)
    ensures (forall k :: 0 <= k <= |acts| ==> StaysRight(Run(Start(), acts[..k]), id)) <==>
            MindfulRun(Start(), acts, id)
  {
    NoticeFrom(Start(), acts, id);
  }
}
