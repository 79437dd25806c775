/**
 Every interleaving of the bus (`events/bus.rs`): any number of publishers,
 each between its claim, its sends and its commits, with subscribers that come
 and go, readers that pop, and synchronous publishes.  An action that is not
 enabled leaves the world as it is, so every sequence of actions is a run.
 */
module BusRuns {
  import opened Wrappers
  import opened Envelopes
  import opened EventBus
  import Coalescing

  type PubId = nat

  /**
   A publish call past its claim.  `todo` lists the claims whose guard is still
   active; `head` is the progress of the send to `todo[0]`.  A cancelled call
   drops its guards one lock acquisition at a time.
   */
  datatype Publisher =
    | Sending(env: Envelope, todo: seq<SubId>, head: Head, tally: Tally)
    | Cancelled(env: Envelope, todo: seq<SubId>)

  /**
   What has happened to one subscription: its options, the matching envelopes
   published since it subscribed, those put on its channel, those popped by its
   reader, and the number of deliveries whose bookkeeping is done.
   */
  datatype Hist = Hist(
    wants: Envelope -> bool,
    limit: Option<nat>,
    offered: seq<Envelope>,
    sent: seq<Envelope>,
    popped: seq<Envelope>,
    committed: nat)

  datatype Cell = Cell(slot: Slot, hist: Hist)

  datatype World = World(nextId: SubId, cells: map<SubId, Cell>, pubs: map<PubId, Publisher>)

  datatype Action =
    | Subscribe(wants: Envelope -> bool, limit: Option<nat>, chan: Channel)
    | Unsubscribe(id: SubId)
    | DropReceiver(id: SubId)
    | Pop(id: SubId)
    | TryPublish(env: Envelope)
    | Claim(p: PubId, env: Envelope, order: seq<SubId>)
    | Send(p: PubId)
    | Commit(p: PubId)
    | Cancel(p: PubId)
    | DropGuard(p: PubId)

  // ---- One subscription ----

  function Offered(h: Hist, env: Envelope): Hist
  {
    if h.wants(env) then h.(offered := h.offered + [env]) else h
  }

  function VisitCell(c: Cell, env: Envelope, v: Visit): Cell
  {
    var h := Offered(c.hist, env);
    Cell(After(v), if v.counted != AsDelivered then h else h.(sent := h.sent + [env], committed := h.committed + 1))
  }

  function SyncCell(c: Cell, env: Envelope): Cell { VisitCell(c, env, VisitSync(c.slot, env)) }

  function ClaimCell(c: Cell, env: Envelope): Cell { VisitCell(c, env, VisitClaim(c.slot, env)) }

  function SendCell(c: Cell, env: Envelope, head: Head): Cell
    requires c.slot.chan.Mpsc?
  {
    Cell(c.slot.(chan := AfterSend(c.slot.chan, env, head)),
         if head == Sent(Delivered) then c.hist.(sent := c.hist.sent + [env]) else c.hist)
  }

  function CommitCell(c: Cell, env: Envelope, outcome: Outcome): Cell
  {
    Cell(EventBus.Commit(c.slot, env, outcome),
         if outcome == Delivered then c.hist.(committed := c.hist.committed + 1) else c.hist)
  }

  function PopCell(c: Cell): Cell
  {
    match c.slot.chan
    case Mpsc(_, queue, _, _) =>
      if queue == [] then c
      else Cell(c.slot.(chan := c.slot.chan.(queue := queue[1..])), c.hist.(popped := c.hist.popped + [queue[0]]))
    case Coalesce(q) =>
      if q.items == [] then c
      else Cell(c.slot.(chan := Coalesce(Coalescing.AfterReceive(q))), c.hist.(popped := c.hist.popped + [q.items[0]]))
  }

  function DropReceiverCell(c: Cell): Cell
  {
    c.(slot := c.slot.(chan := match c.slot.chan
                               case Mpsc(_, _, _, _) => c.slot.chan.(open := false)
                               case Coalesce(q) => Coalesce(Coalescing.DropReceiver(q))))
  }

  // ---- Steps ----

  function Slots(w: World): map<SubId, Slot> { map id | id in w.cells :: w.cells[id].slot }

  predicate FreshChannel(c: Channel)
  {
    match c
    case Mpsc(capacity, queue, open, _) => 1 <= capacity && queue == [] && open
    case Coalesce(q) => q == Coalescing.Fresh(q.capacity, q.keyPath)
  }

  /** The publisher has an active claim on a subscription it may send to or commit. */
  predicate Ready(w: World, p: PubId)
  {
    && p in w.pubs
    && w.pubs[p].todo != []
    && w.pubs[p].todo[0] in w.cells
    && w.cells[w.pubs[p].todo[0]].slot.chan.Mpsc?
  }

  ghost predicate Enabled(w: World, a: Action)
  {
    match a
    case Subscribe(_, _, chan) => FreshChannel(chan)
    case Unsubscribe(id) => id in w.cells && Live(w.cells[id].slot)
    case DropReceiver(id) => id in w.cells
    case Pop(id) => id in w.cells
    case TryPublish(_) => true
    case Claim(p, _, order) => p !in w.pubs && Lists(order, Slots(w))
    case Send(p) => Ready(w, p) && w.pubs[p].Sending? && !w.pubs[p].head.Sent?
    case Commit(p) => Ready(w, p) && w.pubs[p].Sending? && w.pubs[p].head.Sent?
    case Cancel(p) => Ready(w, p) && w.pubs[p].Sending? && w.pubs[p].head.Waiting?
    case DropGuard(p) => Ready(w, p) && w.pubs[p].Cancelled?
  }

  ghost function Step(w: World, a: Action): World
    requires Enabled(w, a)
  {
    match a
    case Subscribe(wants, limit, chan) =>
      w.(nextId := w.nextId + 1,
         cells := w.cells[w.nextId := Cell(Slot(Some(Entry(wants, limit, 0, None, true)), chan, []),
                                           Hist(wants, limit, [], [], [], 0))])
    case Unsubscribe(id) => w.(cells := w.cells[id := w.cells[id].(slot := Remove(w.cells[id].slot))])
    case DropReceiver(id) => w.(cells := w.cells[id := DropReceiverCell(w.cells[id])])
    case Pop(id) => w.(cells := w.cells[id := PopCell(w.cells[id])])
    case TryPublish(env) => w.(cells := map id | id in w.cells :: SyncCell(w.cells[id], env))
    case Claim(p, env, order) =>
      w.(cells := map id | id in w.cells :: ClaimCell(w.cells[id], env),
         pubs := w.pubs[p := Sending(env, Claimed(order, Slots(w), env), Fresh, ClaimTally(order, Slots(w), env))])
    case Send(p) =>
      var q, id := w.pubs[p], w.pubs[p].todo[0];
      var head := if q.head.Waiting? then Resume(w.cells[id].slot.chan) else FirstTry(w.cells[id].slot.chan);
      w.(cells := w.cells[id := SendCell(w.cells[id], q.env, head)], pubs := w.pubs[p := q.(head := head)])
    case Commit(p) =>
      var q, id := w.pubs[p], w.pubs[p].todo[0];
      w.(cells := w.cells[id := CommitCell(w.cells[id], q.env, q.head.outcome)],
         pubs := w.pubs[p := Sending(q.env, q.todo[1..], Fresh, Count(q.tally, id, CommitCounted(q.head.outcome)))])
    case Cancel(p) => w.(pubs := w.pubs[p := Cancelled(w.pubs[p].env, w.pubs[p].todo)])
    case DropGuard(p) =>
      var q, id := w.pubs[p], w.pubs[p].todo[0];
      w.(cells := w.cells[id := w.cells[id].(slot := Refund(w.cells[id].slot))],
         pubs := w.pubs[p := Cancelled(q.env, q.todo[1..])])
  }

  ghost function Next(w: World, a: Action): World { if Enabled(w, a) then Step(w, a) else w }

  function Start(): World { World(1, map[], map[]) }

  ghost function Run(w: World, acts: seq<Action>): World
    decreases |acts|
  {
    if acts == [] then w else Run(Next(w, acts[0]), acts[1..])
  }

  // ---- Counting claims ----

  /** Publishers holding an active claim on the subscription. */
  ghost function Armed(pubs: map<PubId, Publisher>, id: SubId): set<PubId>
  {
    set p | p in pubs && id in pubs[p].todo
  }

  /** The claim's envelope is on the channel but its bookkeeping is not done. */
  ghost predicate HasLanded(q: Publisher, id: SubId)
  {
    q.Sending? && q.todo != [] && q.todo[0] == id && q.head == Sent(Delivered)
  }

  ghost function Landed(pubs: map<PubId, Publisher>, id: SubId): set<PubId>
  {
    set p | p in pubs && HasLanded(pubs[p], id)
  }

  ghost function One(b: bool): nat { if b then 1 else 0 }

  lemma SizeWithout<T>(s: set<T>, x: T)
    ensures |s - {x}| == |s| - One(x in s)
  {
    if x !in s { assert s - {x} == s; }
  }

  lemma SizesDifferBy<T>(a: set<T>, b: set<T>, x: T)
    requires a - {x} == b - {x}
    ensures |b| == |a| + One(x in b) - One(x in a)
  {
    SizeWithout(a, x);
    SizeWithout(b, x);
  }

  /** Changing one publisher changes the two counts by at most that publisher. */
  lemma CountsAfter(pubs: map<PubId, Publisher>, p: PubId, q: Publisher, id: SubId)
    ensures |Armed(pubs[p := q], id)| == |Armed(pubs, id)| + One(id in q.todo) - One(p in pubs && id in pubs[p].todo)
    ensures |Landed(pubs[p := q], id)| ==
            |Landed(pubs, id)| + One(HasLanded(q, id)) - One(p in pubs && HasLanded(pubs[p], id))
  {
    SizesDifferBy(Armed(pubs, id), Armed(pubs[p := q], id), p);
    SizesDifferBy(Landed(pubs, id), Landed(pubs[p := q], id), p);
  }

  lemma CardinalityMonotone<T>(a: set<T>, b: set<T>)
    requires a <= b
    ensures |a| <= |b|
  {
    assert b == a + (b - a);
  }

  // ---- Quota ----

  /**
   The quota law of one subscription that `armed` publishers have claimed,
   `landed` of them already sent.  The strict law also bounds the claims that
   outlive the entry.
   */
  ghost predicate QuotaInv(c: Cell, armed: nat, landed: nat, strict: bool)
  {
    && landed <= armed
    && |c.hist.sent| == c.hist.committed + landed
    && (c.slot.chan.Coalesce? ==> armed == 0)
    && (c.slot.entry.Some? ==>
          && c.slot.entry.value.inFlight == armed
          && (c.slot.entry.value.remaining.Some? <==> c.hist.limit.Some?))
    && (c.hist.limit.Some? ==> LimitInv(c, c.hist.limit.value, armed, strict))
  }

  ghost predicate LimitInv(c: Cell, limit: nat, armed: nat, strict: bool)
    requires c.slot.entry.Some? ==> c.slot.entry.value.remaining.Some?
  {
    if c.slot.chan.Mpsc? then
      && (strict ==> c.hist.committed + armed <= limit)
      && (c.slot.entry.Some? ==>
            var remaining := c.slot.entry.value.remaining.value;
            remaining + armed + c.hist.committed == limit && (limit >= 1 ==> remaining > 0 || armed > 0))
    else
      && c.hist.committed <= (if limit == 0 then 1 else limit)
      && (c.slot.entry.Some? ==>
            var remaining := c.slot.entry.value.remaining.value;
            if limit == 0 then remaining == 0 && c.hist.committed == 0
            else remaining > 0 && remaining + c.hist.committed == limit)
  }

  ghost predicate PubsInv(w: World)
  {
    forall p :: p in w.pubs ==> TodoInv(w.cells, w.pubs[p].todo)
  }

  ghost predicate TodoInv(cells: map<SubId, Cell>, todo: seq<SubId>)
  {
    Unique(todo) && forall id :: id in todo ==> id in cells && cells[id].slot.chan.Mpsc?
  }

  ghost predicate CellOk(w: World, id: SubId, strict: bool)
    requires id in w.cells
  {
    QuotaInv(w.cells[id], |Armed(w.pubs, id)|, |Landed(w.pubs, id)|, strict)
  }

  ghost predicate WellFormed(w: World)
  {
    (forall id :: id in w.cells ==> id < w.nextId) && PubsInv(w)
  }

  ghost predicate Law(w: World, strict: bool)
  {
    WellFormed(w) && forall id :: id in w.cells ==> CellOk(w, id, strict)
  }

  ghost predicate Inv(w: World) { Law(w, true) }

  /**
   A synchronous publish does not look at outstanding claims.  It respects the
   quotas exactly when every matching subscription it can put an envelope on
   still has quota that nobody has claimed.
   */
  ghost predicate QuotaSafe(w: World, env: Envelope)
  {
    forall id :: id in w.cells && Matches(w.cells[id].slot, env) && Room(w.cells[id].slot.chan) ==>
      w.cells[id].slot.entry.value.remaining != Some(0)
  }

  ghost predicate Guarded(w: World, a: Action) { a.TryPublish? ==> QuotaSafe(w, a.env) }

  lemma SyncKeepsQuota(c: Cell, env: Envelope, armed: nat, landed: nat, strict: bool)
    requires QuotaInv(c, armed, landed, strict)
    requires strict && Matches(c.slot, env) && Room(c.slot.chan) ==> c.slot.entry.value.remaining != Some(0)
    ensures QuotaInv(SyncCell(c, env), armed, landed, strict)
  {
  }

  lemma ClaimKeepsQuota(c: Cell, env: Envelope, armed: nat, landed: nat, strict: bool)
    requires QuotaInv(c, armed, landed, strict)
    ensures QuotaInv(ClaimCell(c, env), armed + One(Claims(c.slot, env)), landed, strict)
  {
  }

  /** A waiting or unsent claim is not among those already on the channel. */
  lemma UnsentIsNotLanded(pubs: map<PubId, Publisher>, p: PubId, id: SubId)
    requires p in pubs && id in pubs[p].todo && !HasLanded(pubs[p], id)
    ensures |Landed(pubs, id)| < |Armed(pubs, id)|
  {
    CardinalityMonotone(Landed(pubs, id), Armed(pubs, id) - {p});
    SizeWithout(Armed(pubs, id), p);
  }

  lemma LandedIsArmed(pubs: map<PubId, Publisher>, p: PubId, id: SubId)
    requires p in pubs && HasLanded(pubs[p], id)
    ensures p in Landed(pubs, id) && p in Armed(pubs, id) && |Landed(pubs, id)| >= 1
  {
    CardinalityMonotone({p}, Landed(pubs, id));
  }

  lemma ArmedNotEmpty(pubs: map<PubId, Publisher>, p: PubId, id: SubId)
    requires p in pubs && id in pubs[p].todo
    ensures |Armed(pubs, id)| >= 1
  {
    CardinalityMonotone({p}, Armed(pubs, id));
  }

  lemma TailOfTodo(cells: map<SubId, Cell>, todo: seq<SubId>)
    requires TodoInv(cells, todo) && todo != []
    ensures TodoInv(cells, todo[1..]) && todo[0] !in todo[1..]
    ensures forall id :: id in todo[1..] <==> id in todo && id != todo[0]
  {
    assert todo == [todo[0]] + todo[1..];
  }

  /** A subscription keeps its kind of channel. */
  ghost predicate SameKinds(cells: map<SubId, Cell>, cells': map<SubId, Cell>)
  {
    forall id :: id in cells ==> id in cells' && (cells[id].slot.chan.Mpsc? <==> cells'[id].slot.chan.Mpsc?)
  }

  lemma VisitKeepsKind(c: Cell, env: Envelope)
    ensures SyncCell(c, env).slot.chan.Mpsc? <==> c.slot.chan.Mpsc?
    ensures ClaimCell(c, env).slot.chan.Mpsc? <==> c.slot.chan.Mpsc?
  {
  }

  lemma StepKeepsKind(w: World, a: Action, id: SubId)
    requires Enabled(w, a) && id in w.cells && id < w.nextId
    ensures id in Step(w, a).cells
    ensures w.cells[id].slot.chan.Mpsc? <==> Step(w, a).cells[id].slot.chan.Mpsc?
  {
    match a
    case TryPublish(env) => VisitKeepsKind(w.cells[id], env);
    case Claim(_, env, _) => VisitKeepsKind(w.cells[id], env);
    case _ =>
  }

  lemma StepKeepsKinds(w: World, a: Action)
    requires Enabled(w, a) && forall id :: id in w.cells ==> id < w.nextId
    ensures SameKinds(w.cells, Step(w, a).cells)
    ensures forall id :: id in Step(w, a).cells ==> id < Step(w, a).nextId
  {
    forall id | id in w.cells
      ensures id in Step(w, a).cells && (w.cells[id].slot.chan.Mpsc? <==> Step(w, a).cells[id].slot.chan.Mpsc?)
    {
      StepKeepsKind(w, a, id);
    }
  }

  lemma StepKeepsTodos(w: World, a: Action, p: PubId)
    requires WellFormed(w) && Enabled(w, a) && p in Step(w, a).pubs
    ensures TodoInv(Step(w, a).cells, Step(w, a).pubs[p].todo)
  {
    StepKeepsKinds(w, a);
    var todo := Step(w, a).pubs[p].todo;
    assert TodoInv(w.cells, todo) by {
      if a.Claim? && a.p == p {
        ClaimedIsFilter(a.order, Slots(w), a.env);
      } else {
        assert TodoInv(w.cells, w.pubs[p].todo);
        if w.pubs[p].todo != [] { TailOfTodo(w.cells, w.pubs[p].todo); }
      }
    }
  }

  lemma SubscribeAt(w: World, a: Action, id: SubId, strict: bool)
    requires Law(w, strict) && a.Subscribe? && Enabled(w, a) && id in Step(w, a).cells
    ensures CellOk(Step(w, a), id, strict)
  {
    if id == w.nextId {
      assert Armed(w.pubs, id) == {} && Landed(w.pubs, id) == {};
    } else {
      assert CellOk(w, id, strict);
    }
  }

  /** Unsubscribing, closing the receiver and popping touch one cell and no publisher. */
  lemma ReaderStepAt(w: World, a: Action, id: SubId, strict: bool)
    requires (a.Unsubscribe? || a.DropReceiver? || a.Pop?) && Enabled(w, a) && id in w.cells && CellOk(w, id, strict)
    ensures CellOk(Step(w, a), id, strict)
  {
  }

  lemma ClaimAt(w: World, a: Action, id: SubId, strict: bool)
    requires a.Claim? && Enabled(w, a) && id in w.cells && CellOk(w, id, strict)
    ensures CellOk(Step(w, a), id, strict)
  {
    var w' := Step(w, a);
    ClaimedIsFilter(a.order, Slots(w), a.env);
    CountsAfter(w.pubs, a.p, w'.pubs[a.p], id);
    ClaimKeepsQuota(w.cells[id], a.env, |Armed(w.pubs, id)|, |Landed(w.pubs, id)|, strict);
  }

  lemma SendAt(w: World, a: Action, id: SubId, strict: bool)
    requires a.Send? && Enabled(w, a) && id in w.cells && CellOk(w, id, strict)
    ensures CellOk(Step(w, a), id, strict)
  {
    var q, q' := w.pubs[a.p], Step(w, a).pubs[a.p];
    CountsAfter(w.pubs, a.p, q', id);
    if id == q.todo[0] {
      UnsentIsNotLanded(w.pubs, a.p, id);
    }
  }

  lemma CommitAt(w: World, a: Action, id: SubId, strict: bool)
    requires a.Commit? && Enabled(w, a) && id in w.cells && CellOk(w, id, strict) && TodoInv(w.cells, w.pubs[a.p].todo)
    ensures CellOk(Step(w, a), id, strict)
  {
    var q, q' := w.pubs[a.p], Step(w, a).pubs[a.p];
    TailOfTodo(w.cells, q.todo);
    CountsAfter(w.pubs, a.p, q', id);
    if id == q.todo[0] {
      ArmedNotEmpty(w.pubs, a.p, id);
      if q.head.outcome == Delivered { LandedIsArmed(w.pubs, a.p, id); } else { UnsentIsNotLanded(w.pubs, a.p, id); }
    }
  }

  lemma CancelAt(w: World, a: Action, id: SubId, strict: bool)
    requires (a.Cancel? || a.DropGuard?) && Enabled(w, a)
    requires id in w.cells && CellOk(w, id, strict) && TodoInv(w.cells, w.pubs[a.p].todo)
    ensures CellOk(Step(w, a), id, strict)
  {
    var q, q' := w.pubs[a.p], Step(w, a).pubs[a.p];
    TailOfTodo(w.cells, q.todo);
    CountsAfter(w.pubs, a.p, q', id);
    if id == q.todo[0] && a.DropGuard? {
      UnsentIsNotLanded(w.pubs, a.p, id);
    }
  }

  lemma StepAt(w: World, a: Action, id: SubId, strict: bool)
    requires Law(w, strict) && Enabled(w, a) && (strict ==> Guarded(w, a)) && id in Step(w, a).cells
    ensures CellOk(Step(w, a), id, strict)
  {
    match a
    case Subscribe(_, _, _) => SubscribeAt(w, a, id, strict);
    case TryPublish(env) => SyncKeepsQuota(w.cells[id], env, |Armed(w.pubs, id)|, |Landed(w.pubs, id)|, strict);
    case Claim(_, _, _) => ClaimAt(w, a, id, strict);
    case Send(_) => SendAt(w, a, id, strict);
    case Commit(_) => CommitAt(w, a, id, strict);
    case Cancel(_) => CancelAt(w, a, id, strict);
    case DropGuard(_) => CancelAt(w, a, id, strict);
    case _ => ReaderStepAt(w, a, id, strict);
  }

  lemma StepKeepsWellFormed(w: World, a: Action)
    requires WellFormed(w) && Enabled(w, a)
    ensures WellFormed(Step(w, a))
  {
    StepKeepsKinds(w, a);
    forall p | p in Step(w, a).pubs
      ensures TodoInv(Step(w, a).cells, Step(w, a).pubs[p].todo)
    {
      StepKeepsTodos(w, a, p);
    }
  }

  /** Every step keeps the law; a synchronous publish keeps the strict law under its guard. */
  lemma NextKeepsLaw(w: World, a: Action, strict: bool)
    requires Law(w, strict) && (strict ==> Guarded(w, a))
    ensures Law(Next(w, a), strict)
  {
    if Enabled(w, a) {
      StepKeepsWellFormed(w, a);
      forall id | id in Step(w, a).cells ensures CellOk(Step(w, a), id, strict) { StepAt(w, a, id, strict); }
    }
  }

  lemma NextKeepsInv(w: World, a: Action)
    requires Inv(w) && Guarded(w, a)
    ensures Inv(Next(w, a))
  {
    NextKeepsLaw(w, a, true);
  }

  ghost predicate GuardedRun(w: World, acts: seq<Action>)
    decreases |acts|
  {
    acts == [] || (Guarded(w, acts[0]) && GuardedRun(Next(w, acts[0]), acts[1..]))
  }

  lemma {:induction false} RunKeepsInv(w: World, acts: seq<Action>)
    requires Inv(w) && GuardedRun(w, acts)
    ensures Inv(Run(w, acts))
    decreases |acts|
  {
    if acts != [] {
      NextKeepsInv(w, acts[0]);
      RunKeepsInv(Next(w, acts[0]), acts[1..]);
    }
  }

  // ---- What the quota invariant gives ----

  ghost predicate AsyncOnly(acts: seq<Action>) { forall a :: a in acts ==> !a.TryPublish? }

  lemma {:induction false} AsyncOnlyIsGuarded(w: World, acts: seq<Action>)
    requires AsyncOnly(acts)
    ensures GuardedRun(w, acts)
    decreases |acts|
  {
    if acts != [] {
      assert acts[0] in acts;
      AsyncOnlyIsGuarded(Next(w, acts[0]), acts[1..]);
    }
  }

  ghost predicate PositiveLimits(w: World) { forall id :: id in w.cells ==> w.cells[id].hist.limit != Some(0) }

  ghost predicate SyncOnly(acts: seq<Action>) { forall a :: a in acts ==> !a.Claim? }

  lemma NoClaimsIsSafe(w: World, env: Envelope)
    requires Inv(w) && w.pubs == map[] && PositiveLimits(w)
    ensures QuotaSafe(w, env)
  {
    forall id | id in w.cells && Live(w.cells[id].slot) ensures w.cells[id].slot.entry.value.remaining != Some(0) {
      assert CellOk(w, id, true);
      assert Armed(w.pubs, id) == {};
    }
  }

  lemma SyncStepStarts(w: World, a: Action)
    requires w.pubs == map[] && PositiveLimits(w) && !a.Claim? && (a.Subscribe? ==> a.limit != Some(0))
    ensures Next(w, a).pubs == map[] && PositiveLimits(Next(w, a))
  {
  }

  lemma {:induction false} SyncOnlyIsGuarded(w: World, acts: seq<Action>)
    requires Inv(w) && w.pubs == map[] && PositiveLimits(w)
    requires SyncOnly(acts) && forall a :: a in acts && a.Subscribe? ==> a.limit != Some(0)
    ensures GuardedRun(w, acts)
    decreases |acts|
  {
    if acts != [] {
      var a := acts[0];
      assert a in acts;
      if a.TryPublish? { NoClaimsIsSafe(w, a.env); }
      NextKeepsInv(w, a);
      SyncStepStarts(w, a);
      SyncOnlyIsGuarded(Next(w, a), acts[1..]);
    }
  }

  /**
   Quota conservation and no zombie, in every interleaving.  Deliveries stay
   within the limit even through claims that outlive the removal of the entry.
   */
  lemma QuotaConservation(acts: seq<Action>, id: SubId)
    requires GuardedRun(Start(), acts) && id in Run(Start(), acts).cells
    requires Run(Start(), acts).cells[id].slot.chan.Mpsc? && Run(Start(), acts).cells[id].hist.limit.Some?
    ensures var w := Run(Start(), acts); var c := w.cells[id]; var limit := c.hist.limit.value;
            && |c.hist.sent| <= limit
            && (c.slot.entry.Some? ==>
                  && c.slot.entry.value.inFlight == |Armed(w.pubs, id)|
                  && c.slot.entry.value.remaining.Some?
                  && c.slot.entry.value.remaining.value + |Armed(w.pubs, id)| + c.hist.committed == limit
                  && (limit >= 1 ==> c.slot.entry.value.remaining.value > 0 || c.slot.entry.value.inFlight > 0))
  {
    RunKeepsInv(Start(), acts);
    assert CellOk(Run(Start(), acts), id, true);
  }

  /** An entry leaves the map on the asynchronous path only by an unsubscribe or by a commit for that subscription. */
  lemma RemovalCauses(w: World, a: Action, id: SubId)
    requires Enabled(w, a) && !a.TryPublish? && id in w.cells && id < w.nextId && w.cells[id].slot.chan.Mpsc?
    requires Live(w.cells[id].slot) && !Live(Step(w, a).cells[id].slot)
    ensures a == Unsubscribe(id) || (a.Commit? && w.pubs[a.p].todo[0] == id && w.pubs[a.p].head.outcome != Dropped)
  {
  }

  /** No premature removal: the commit that removes an entry for exhaustion completes the last promised delivery. */
  lemma ExhaustionMeansLimitReached(w: World, p: PubId)
    requires Inv(w) && Enabled(w, Commit(p)) && w.pubs[p].head.outcome == Delivered
    requires var c := w.cells[w.pubs[p].todo[0]]; c.hist.limit.Some? && Live(c.slot)
    requires !Live(Step(w, Commit(p)).cells[w.pubs[p].todo[0]].slot)
    ensures var id := w.pubs[p].todo[0]; var w' := Step(w, Commit(p)); var c := w'.cells[id];
            c.hist.committed == |c.hist.sent| == c.hist.limit.value && Armed(w'.pubs, id) == {}
  {
    var id := w.pubs[p].todo[0];
    var e := w.cells[id].slot.entry.value;
    assert e.remaining == Some(0) && e.inFlight <= 1;
    CommitAt(w, Commit(p), id, true);
    assert CellOk(w, id, true) && CellOk(Step(w, Commit(p)), id, true);
    TailOfTodo(w.cells, w.pubs[p].todo);
    CountsAfter(w.pubs, p, Step(w, Commit(p)).pubs[p], id);
  }

  /** Committed deliveries and outstanding claims together fit the limits. */
  ghost predicate WithinLimits(w: World)
  {
    forall id :: id in w.cells && w.cells[id].slot.chan.Mpsc? && w.cells[id].hist.limit.Some? ==>
      w.cells[id].hist.committed + |Armed(w.pubs, id)| <= w.cells[id].hist.limit.value
  }

  /** A synchronous publish keeps committed deliveries and claims within the limits exactly when its guard holds. */
  lemma SyncWithinLimitsIff(w: World, env: Envelope)
    requires Inv(w)
    ensures WithinLimits(Step(w, TryPublish(env))) <==> QuotaSafe(w, env)
  {
    var w' := Step(w, TryPublish(env));
    if QuotaSafe(w, env) {
      NextKeepsInv(w, TryPublish(env));
      forall id | id in w'.cells ensures CellOk(w', id, true) {}
    } else {
      var id :| id in w.cells && Matches(w.cells[id].slot, env) && Room(w.cells[id].slot.chan)
                && w.cells[id].slot.entry.value.remaining == Some(0);
      assert CellOk(w, id, true);
      assert w'.cells[id].hist.committed == w.cells[id].hist.committed + 1;
    }
  }

  lemma InvIsWithin(w: World)
    requires Inv(w)
    ensures WithinLimits(w)
  {
    forall id | id in w.cells ensures CellOk(w, id, true) {}
  }

  lemma RunPrefix(w: World, acts: seq<Action>, k: nat)
    requires 0 < k <= |acts|
    ensures Run(w, acts[..k]) == Run(Next(w, acts[0]), acts[1..][..k - 1])
  {
    assert acts[..k][1..] == acts[1..][..k - 1];
  }

  /** A mixed run keeps committed deliveries and claims within the limits throughout exactly when every guard holds. */
  lemma {:induction false} GuardedIffWithinLimits(w: World, acts: seq<Action>)
    requires Inv(w)
    ensures GuardedRun(w, acts) <==> forall k :: 0 <= k <= |acts| ==> WithinLimits(Run(w, acts[..k]))
    decreases |acts|
  {
    InvIsWithin(w);
    if acts != [] {
      var w', rest := Next(w, acts[0]), acts[1..];
      forall k | 1 <= k <= |acts| ensures Run(w, acts[..k]) == Run(w', rest[..k - 1]) { RunPrefix(w, acts, k); }
      if Guarded(w, acts[0]) {
        NextKeepsInv(w, acts[0]);
        GuardedIffWithinLimits(w', rest);
        forall j | 0 <= j <= |rest| ensures Run(w, acts[..j + 1]) == Run(w', rest[..j]) {}
      } else {
        SyncWithinLimitsIff(w, acts[0].env);
        assert Run(w, acts[..1]) == w';
      }
    }
  }

  function Everything(): Envelope -> bool { (e: Envelope) => true }

  /** One subscription with a limit of one, and the same claimed by publisher 0. */
  function OneSubscribed(): World
  {
    World(2,
          map[1 := Cell(Slot(Some(Entry(Everything(), Some(1), 0, None, true)), Mpsc(2, [], true, DropNewest), []),
                        Hist(Everything(), Some(1), [], [], [], 0))],
          map[])
  }

  function OneClaimed(env: Envelope, tally: Tally): World
  {
    World(2,
          map[1 := Cell(Slot(Some(Entry(Everything(), Some(0), 1, None, true)), Mpsc(2, [], true, DropNewest), []),
                        Hist(Everything(), Some(1), [env], [], [], 0))],
          map[0 := Sending(env, [1], Fresh, tally)])
  }

  lemma OneClaimCell(c: Cell, env: Envelope)
    requires c == OneSubscribed().cells[1]
    ensures ClaimCell(c, env) == OneClaimed(env, NoTally()).cells[1] && Claims(c.slot, env)
  {
    assert c.hist.offered + [env] == [env];
  }

  lemma ClaimedOfOne(order: seq<SubId>, slots: map<SubId, Slot>, env: Envelope)
    requires |order| == 1 && order[0] in slots && Claims(slots[order[0]], env)
    ensures Claimed(order, slots, env) == order
  {
    assert order[..|order| - 1] == [];
  }

  lemma OneClaim(w: World, env: Envelope, order: seq<SubId>)
    requires w == OneSubscribed() && |order| == 1 && order[0] == 1
    ensures Lists(order, Slots(w))
    ensures Next(w, Claim(0, env, order)) == OneClaimed(env, ClaimTally(order, Slots(w), env))
  {
    assert order == [1];
    OneClaimCell(w.cells[1], env);
    ClaimedOfOne(order, Slots(w), env);
    assert Next(w, Claim(0, env, order)).cells == OneClaimed(env, NoTally()).cells;
  }

  lemma OneClaimedIsReachable(env: Envelope) returns (tally: Tally)
    ensures Run(Start(), [Subscribe(Everything(), Some(1), Mpsc(2, [], true, DropNewest)), Claim(0, env, [1])])
            == OneClaimed(env, tally)
  {
    var acts := [Subscribe(Everything(), Some(1), Mpsc(2, [], true, DropNewest)), Claim(0, env, [1])];
    tally := ClaimTally([1], Slots(OneSubscribed()), env);
    assert Next(Start(), acts[0]) == OneSubscribed();
    OneClaim(OneSubscribed(), env, [1]);
    assert acts[1..] == [acts[1]] && [acts[1]][1..] == [];
    assert Run(OneSubscribed(), [acts[1]]) == Run(OneClaimed(env, tally), []);
  }

  /** Without the guard a limit of one lets two envelopes through: one sent synchronously, one already claimed. */
  lemma MixedRunOverdelivers(claimed: Envelope, direct: Envelope, tally: Tally)
    ensures var w := Next(Next(OneClaimed(claimed, tally), TryPublish(direct)), Send(0));
            w.cells[1].hist.limit == Some(1) && w.cells[1].hist.sent == [direct, claimed]
  {
    var w := Next(OneClaimed(claimed, tally), TryPublish(direct));
    assert w.cells[1].slot.chan == Mpsc(2, [direct], true, DropNewest);
  }
}
