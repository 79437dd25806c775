/**
 The queue behind `SlowConsumerPolicy::Coalesce` (`events/coalesce.rs`): a
 bounded FIFO in which an arriving envelope overwrites, in place, the queued
 envelope with the same key.
 */
module Coalescing {
  import opened Wrappers
  import opened Documents
  import opened Envelopes

  datatype Outcome = Pushed | Replaced | Dropped | ReceiverGone

  datatype Received = Next(env: Envelope) | Empty | Disconnected

  datatype Queue = Queue(
    items: seq<Envelope>,
    capacity: nat,
    keyPath: FieldPath,
    closed: bool,
    receiverDropped: bool)

  function Fresh(capacity: nat, keyPath: FieldPath): Queue
  {
    Queue([], if capacity == 0 then 1 else capacity, keyPath, false, false)
  }

  /** The coalescing key; a path rooted at `data` is walked without serializing the envelope. */
  function ExtractKey(env: Envelope, path: FieldPath): Option<Json>
  {
    if path != [] && path[0] == "data" then Lookup(path[1..], env.data)
    else Lookup(path, AsJson(env))
  }

  /** The shortcut for paths rooted at `data` is invisible. */
  lemma ExtractKeyIsLookup(env: Envelope, path: FieldPath)
    ensures ExtractKey(env, path) == Lookup(path, AsJson(env))
  {
    if path != [] && path[0] == "data" {
      assert AsJson(env).fields["data"] == env.data;
    }
  }

  /** Index of the first queued envelope with this key, or the length if there is none. */
  function Find(items: seq<Envelope>, path: FieldPath, key: Json): (i: nat)
    ensures i <= |items|
    ensures i < |items| ==> ExtractKey(items[i], path) == Some(key)
    ensures forall j :: 0 <= j < i ==> ExtractKey(items[j], path) != Some(key)
  {
    if items == [] || ExtractKey(items[0], path) == Some(key) then 0
    else 1 + Find(items[1..], path, key)
  }

  /** Where an arriving envelope would overwrite; the length when nothing matches. */
  function Target(q: Queue, env: Envelope): (i: nat)
    ensures i <= |q.items|
  {
    match ExtractKey(env, q.keyPath)
    case None => |q.items|
    case Some(key) => Find(q.items, q.keyPath, key)
  }

  function PushOutcome(q: Queue, env: Envelope): Outcome
  {
    if q.receiverDropped then ReceiverGone
    else if Target(q, env) < |q.items| then Replaced
    else if |q.items| < q.capacity then Pushed
    else Dropped
  }

  function Push(q: Queue, env: Envelope): Queue
  {
    match PushOutcome(q, env)
    case Replaced => q.(items := q.items[Target(q, env) := env])
    case Pushed => q.(items := q.items + [env])
    case _ => q
  }

  /** Both envelopes have the key path, with the same value under it. */
  ghost predicate SameKey(a: Envelope, b: Envelope, path: FieldPath)
  {
    Lookup(path, AsJson(a)).Some? && Lookup(path, AsJson(a)) == Lookup(path, AsJson(b))
  }

  /** Some queued envelope has the key of this one. */
  ghost predicate KeyQueued(q: Queue, env: Envelope)
  {
    exists i :: 0 <= i < |q.items| && SameKey(q.items[i], env, q.keyPath)
  }

  lemma TargetIsFirst(q: Queue, env: Envelope)
    ensures Target(q, env) < |q.items| <==> KeyQueued(q, env)
    ensures Target(q, env) < |q.items| ==> SameKey(q.items[Target(q, env)], env, q.keyPath)
    ensures forall j :: 0 <= j < Target(q, env) ==> !SameKey(q.items[j], env, q.keyPath)
  {
    ExtractKeyIsLookup(env, q.keyPath);
    forall j | 0 <= j < |q.items| ensures ExtractKey(q.items[j], q.keyPath) == Lookup(q.keyPath, AsJson(q.items[j])) {
      ExtractKeyIsLookup(q.items[j], q.keyPath);
    }
  }

  /**
   What an offer does: with the receiver there it overwrites the first envelope
   with its key, else goes to the end if there is a free place, and is dropped
   exactly when the queue is full and nothing in it has its key.
   */
  lemma PushMeans(q: Queue, env: Envelope)
    ensures PushOutcome(q, env) == ReceiverGone <==> q.receiverDropped
    ensures PushOutcome(q, env) == Replaced <==> !q.receiverDropped && KeyQueued(q, env)
    ensures PushOutcome(q, env) == Dropped <==>
            !q.receiverDropped && |q.items| >= q.capacity && !KeyQueued(q, env)
    ensures Push(q, env) == q.(items := Push(q, env).items)
    ensures match PushOutcome(q, env)
            case Pushed => Push(q, env).items == q.items + [env]
            case Replaced => exists i :: 0 <= i < |q.items| && OverwritesFirst(q, env, i)
            case _ => Push(q, env).items == q.items
  {
    TargetIsFirst(q, env);
    if PushOutcome(q, env) == Replaced { assert OverwritesFirst(q, env, Target(q, env)); }
  }

  ghost predicate OverwritesFirst(q: Queue, env: Envelope, i: nat)
    requires i < |q.items|
  {
    && SameKey(q.items[i], env, q.keyPath) && Push(q, env).items == q.items[i := env]
    && forall j :: 0 <= j < i ==> !SameKey(q.items[j], env, q.keyPath)
  }

  function Close(q: Queue): Queue { q.(closed := true) }

  function DropReceiver(q: Queue): Queue { q.(closed := true, receiverDropped := true) }

  function Receive(q: Queue): Received
  {
    if q.items != [] then Next(q.items[0]) else if q.closed then Disconnected else Empty
  }

  function AfterReceive(q: Queue): Queue
  {
    if q.items != [] then q.(items := q.items[1..]) else q
  }

  /** The shared state object, with the queue under its lock. */
  class CoalesceState {
    var items: seq<Envelope>
    const capacity: nat
    const keyPath: FieldPath
    var closed: bool
    var receiverDropped: bool

    ghost function View(): Queue
      reads this
    {
      Queue(items, capacity, keyPath, closed, receiverDropped)
    }

    constructor (capacity: nat, keyPath: FieldPath)
      ensures View() == Fresh(capacity, keyPath)
    {
      this.items := [];
      this.capacity := if capacity == 0 then 1 else capacity;
      this.keyPath := keyPath;
      this.closed := false;
      this.receiverDropped := false;
    }

    method Offer(env: Envelope) returns (outcome: Outcome)
      modifies this`items
      ensures outcome == PushOutcome(old(View()), env)
      ensures View() == Push(old(View()), env)
      ensures outcome == Dropped <==>
              !old(receiverDropped) && |old(items)| >= capacity && !KeyQueued(old(View()), env)
      ensures outcome == Pushed || outcome == Replaced ==> env in items
    {
      PushMeans(View(), env);
      if receiverDropped {
        return ReceiverGone;
      }
      var incoming := ExtractKey(env, keyPath);
      if incoming.Some? {
        for i := 0 to |items|
          invariant items == old(items)
          invariant i <= Find(items, keyPath, incoming.value)
        {
          if ExtractKey(items[i], keyPath) == incoming {
            items := items[i := env];
            assert items[i] == env;
            return Replaced;
          }
        }
      }
      if |items| < capacity {
        items := items + [env];
        return Pushed;
      }
      return Dropped;
    }

    method TryRecv() returns (r: Received)
      modifies this`items
      ensures r == Receive(old(View()))
      ensures View() == AfterReceive(old(View()))
    {
      if items != [] {
        r := Next(items[0]);
        items := items[1..];
      } else {
        r := if closed then Disconnected else Empty;
      }
    }

    method CloseSender()
      modifies this`closed
      ensures View() == Close(old(View()))
    {
      closed := true;
    }

    method MarkReceiverDropped()
      modifies this`closed, this`receiverDropped
      ensures View() == DropReceiver(old(View()))
    {
      receiverDropped := true;
      closed := true;
    }
  }

  // ---- Whole runs ----

  datatype Op = Offer(env: Envelope) | Pop | CloseSender | ReceiverGoes

  /**
   A queue with its history.  `born[i]` and `latest[i]` are the positions in
   `offers` of the offer that created slot `i` and of the offer it now holds;
   `left` and `taken` list the same of the slots already popped.  `replaced`
   are the positions of overwritten offers, and `dropped` maps the position of
   each dropped offer to the queue that it found.
   */
  datatype Trace = Trace(
    q: Queue,
    offers: seq<Envelope>,
    born: seq<nat>,
    latest: seq<nat>,
    popped: seq<Envelope>,
    left: seq<nat>,
    taken: seq<nat>,
    replaced: set<nat>,
    dropped: map<nat, seq<Envelope>>)

  function Start(capacity: nat, keyPath: FieldPath): Trace
  {
    Trace(Fresh(capacity, keyPath), [], [], [], [], [], [], {}, map[])
  }

  function Step(t: Trace, op: Op): Trace
    requires |t.born| == |t.latest| == |t.q.items|
  {
    match op
    case CloseSender => t.(q := Close(t.q))
    case ReceiverGoes => t.(q := DropReceiver(t.q))
    case Pop =>
      if t.q.items == [] then t
      else t.(q := AfterReceive(t.q), popped := t.popped + [t.q.items[0]], left := t.left + [t.born[0]],
              taken := t.taken + [t.latest[0]], born := t.born[1..], latest := t.latest[1..])
    case Offer(env) =>
      var n := |t.offers|;
      var t1 := t.(q := Push(t.q, env), offers := t.offers + [env]);
      match PushOutcome(t.q, env)
      case Pushed => t1.(born := t.born + [n], latest := t.latest + [n])
      case Replaced =>
        var i := Target(t.q, env);
        t1.(latest := t.latest[i := n], replaced := t.replaced + {t.latest[i]})
      case Dropped => t1.(dropped := t.dropped[n := t.q.items])
      case ReceiverGone => t
  }

  /** The key of an offer. */
  function KeyOf(offers: seq<Envelope>, path: FieldPath, n: nat): Option<Json>
    requires n < |offers|
  {
    ExtractKey(offers[n], path)
  }

  ghost predicate Increasing(s: seq<nat>)
  {
    forall i, j :: 0 <= i < j < |s| ==> s[i] < s[j]
  }

  /** Slot `i` holds the last offer made for its key; a slot without a key holds the offer that created it. */
  ghost predicate HoldsLatest(t: Trace, i: nat)
    requires |t.born| == |t.latest| == |t.q.items|
    requires i < |t.q.items|
  {
    && t.born[i] <= t.latest[i] < |t.offers|
    && t.q.items[i] == t.offers[t.latest[i]]
    && var key := KeyOf(t.offers, t.q.keyPath, t.latest[i]);
    && KeyOf(t.offers, t.q.keyPath, t.born[i]) == key
    && (key.None? ==> t.born[i] == t.latest[i])
    && (key.Some? ==> forall n :: t.latest[i] < n < |t.offers| ==> KeyOf(t.offers, t.q.keyPath, n) != key)
  }

  ghost predicate DistinctKeys(q: Queue)
  {
    forall i, j :: 0 <= i < j < |q.items| && ExtractKey(q.items[i], q.keyPath).Some? ==>
      ExtractKey(q.items[i], q.keyPath) != ExtractKey(q.items[j], q.keyPath)
  }

  /** The offer was popped, is queued, was overwritten or was dropped, and only one of these. */
  ghost predicate HasOneFate(t: Trace, n: nat)
  {
    && (n in t.taken || n in t.latest || n in t.replaced || n in t.dropped)
    && !(n in t.taken && n in t.latest)
    && !(n in t.replaced && (n in t.taken || n in t.latest))
    && !(n in t.dropped && (n in t.taken || n in t.latest || n in t.replaced))
  }

  /** The offer found every place taken, and none by its key. */
  ghost predicate FoundFull(t: Trace, n: nat)
    requires n in t.dropped && n < |t.offers|
  {
    |t.dropped[n]| == t.q.capacity &&
    forall i :: 0 <= i < |t.dropped[n]| ==> !SameKey(t.dropped[n][i], t.offers[n], t.q.keyPath)
  }

  ghost predicate Different(s: seq<nat>) { forall i, j :: 0 <= i < j < |s| ==> s[i] != s[j] }

  /** Every offer has one fate, drops found the queue full, and the popped are what the reader got. */
  ghost predicate FatesInv(t: Trace)
  {
    && |t.taken| == |t.popped| && Different(t.taken + t.latest)
    && (forall i :: 0 <= i < |t.taken| ==> t.taken[i] < |t.offers| && t.popped[i] == t.offers[t.taken[i]])
    && (forall n :: 0 <= n < |t.offers| ==> HasOneFate(t, n))
    && (forall n :: n in t.latest || n in t.replaced || n in t.dropped ==> n < |t.offers|)
    && (forall n :: n in t.dropped ==> FoundFull(t, n))
  }

  /**
   The queue is "the latest offer per key, in first-arrival order": slots
   follow the order of the offers that created them, behind every slot already
   popped, and every offer is accounted for once.
   */
  ghost predicate SlotsInv(t: Trace)
  {
    && |t.born| == |t.latest| == |t.q.items| <= t.q.capacity
    && |t.left| == |t.popped|
    && Increasing(t.left + t.born)
    && (forall n :: n in t.left ==> n < |t.offers|)
    && (forall i :: 0 <= i < |t.q.items| ==> HoldsLatest(t, i))
    && DistinctKeys(t.q)
  }

  ghost predicate Inv(t: Trace)
  {
    SlotsInv(t) && FatesInv(t) && |t.offers| == |t.popped| + |t.q.items| + |t.replaced| + |t.dropped|
  }

  /** Keys stay distinct because an offer overwrites the slot that has its key. */
  lemma PushKeepsKeysDistinct(q: Queue, env: Envelope)
    requires DistinctKeys(q)
    ensures DistinctKeys(Push(q, env))
    ensures forall i :: 0 <= i < |q.items| && i != Target(q, env) && ExtractKey(env, q.keyPath).Some? ==>
              ExtractKey(q.items[i], q.keyPath) != ExtractKey(env, q.keyPath)
  {
  }

  /** A slot the offer does not touch still holds its latest offer. */
  lemma OtherSlots(t: Trace, env: Envelope, i: nat)
    requires |t.born| == |t.latest| == |t.q.items| && DistinctKeys(t.q)
    requires !t.q.receiverDropped && i < |t.q.items| && i != Target(t.q, env) && HoldsLatest(t, i)
    ensures HoldsLatest(Step(t, Offer(env)), i)
  {
    PushKeepsKeysDistinct(t.q, env);
    var offers := t.offers + [env];
    assert forall n :: 0 <= n < |t.offers| ==> KeyOf(offers, t.q.keyPath, n) == KeyOf(t.offers, t.q.keyPath, n);
  }

  lemma SlotsOlderThanNow(t: Trace)
    requires SlotsInv(t)
    ensures forall k :: 0 <= k < |t.left + t.born| ==> (t.left + t.born)[k] < |t.offers|
  {
    var slots := t.left + t.born;
    forall k | 0 <= k < |slots| ensures slots[k] < |t.offers| {
      if k < |t.left| { assert slots[k] in t.left; } else { assert HoldsLatest(t, k - |t.left|); }
    }
  }

  lemma DifferentAppend(s: seq<nat>, n: nat)
    requires Different(s) && n !in s
    ensures Different(s + [n])
  {
  }

  lemma DifferentUpdate(s: seq<nat>, i: nat, n: nat)
    requires Different(s) && n !in s && i < |s|
    ensures Different(s[i := n]) && forall m :: m in s[i := n] <==> m == n || (m in s && m != s[i])
  {
    var s' := s[i := n];
    forall m | m in s && m != s[i] ensures m in s' {
      var j :| 0 <= j < |s| && s[j] == m;
      assert s'[j] == m;
    }
    assert s'[i] == n;
  }

  /** The fates that stay as they are when offer `n` joins. */
  lemma OlderFates(t: Trace, t': Trace)
    requires FatesInv(t) && |t'.offers| == |t.offers| + 1 && t'.offers[..|t.offers|] == t.offers
    requires t'.q.capacity == t.q.capacity && t'.q.keyPath == t.q.keyPath
    requires t'.taken == t.taken && t'.popped == t.popped
    requires forall n :: n in t.dropped ==> n in t'.dropped && t'.dropped[n] == t.dropped[n]
    ensures forall n :: n in t.dropped ==> n < |t'.offers| && FoundFull(t', n)
    ensures forall i :: 0 <= i < |t'.taken| ==>
              t'.taken[i] < |t'.offers| && t'.popped[i] == t'.offers[t'.taken[i]]
  {
    forall n | n in t.dropped ensures n < |t'.offers| && FoundFull(t', n) {
      assert FoundFull(t, n) && t'.offers[n] == t.offers[n];
    }
    forall i | 0 <= i < |t'.taken|
      ensures t'.taken[i] < |t'.offers| && t'.popped[i] == t'.offers[t'.taken[i]]
    {
      assert t'.offers[..|t.offers|][t'.taken[i]] == t'.offers[t'.taken[i]];
    }
  }

  lemma PushedFates(t: Trace, env: Envelope)
    requires SlotsInv(t) && FatesInv(t) && PushOutcome(t.q, env) == Pushed
    ensures FatesInv(Step(t, Offer(env)))
  {
    var t', n := Step(t, Offer(env)), |t.offers|;
    OlderFates(t, t');
    assert t'.taken + t'.latest == (t.taken + t.latest) + [n];
    DifferentAppend(t.taken + t.latest, n);
    forall m | 0 <= m < |t'.offers| ensures HasOneFate(t', m) { assert m < n ==> HasOneFate(t, m); }
  }

  lemma DroppedFates(t: Trace, env: Envelope)
    requires SlotsInv(t) && FatesInv(t) && PushOutcome(t.q, env) == Dropped
    ensures FatesInv(Step(t, Offer(env)))
  {
    var t', n := Step(t, Offer(env)), |t.offers|;
    PushMeans(t.q, env);
    OlderFates(t, t');
    forall m | 0 <= m < |t'.offers| ensures HasOneFate(t', m) { assert m < n ==> HasOneFate(t, m); }
    assert FoundFull(t', n);
  }

  lemma ReplacedFates(t: Trace, env: Envelope)
    requires SlotsInv(t) && FatesInv(t) && PushOutcome(t.q, env) == Replaced
    ensures FatesInv(Step(t, Offer(env))) && t.latest[Target(t.q, env)] !in t.replaced
  {
    var t', n, i := Step(t, Offer(env)), |t.offers|, Target(t.q, env);
    OlderFates(t, t');
    LatestApart(t);
    assert HasOneFate(t, t.latest[i]);
    OverwrittenFates(t, t', n, i);
  }

  lemma OverwrittenFates(t: Trace, t': Trace, n: nat, i: nat)
    requires FatesInv(t) && Different(t.latest) && i < |t.latest| && n == |t.offers| == |t'.offers| - 1
    requires t'.taken == t.taken && t'.latest == t.latest[i := n] && t.latest[i] !in t.taken
    requires t'.replaced == t.replaced + {t.latest[i]} && t'.dropped == t.dropped
    ensures Different(t'.taken + t'.latest) && forall m :: 0 <= m < |t'.offers| ==> HasOneFate(t', m)
    ensures forall m :: m in t'.latest || m in t'.replaced || m in t'.dropped ==> m < |t'.offers|
  {
    assert t'.taken + t'.latest == (t.taken + t.latest)[|t.taken| + i := n];
    DifferentUpdate(t.taken + t.latest, |t.taken| + i, n);
    DifferentUpdate(t.latest, i, n);
    forall m | 0 <= m < |t'.offers| ensures HasOneFate(t', m) { assert m < n ==> HasOneFate(t, m); }
    forall m | m in t'.latest || m in t'.replaced || m in t'.dropped ensures m < |t'.offers| {
      assert m == n || m in t.latest || m in t.replaced || m in t.dropped;
    }
  }

  lemma LatestApart(t: Trace)
    requires Different(t.taken + t.latest)
    ensures Different(t.latest) && forall i :: 0 <= i < |t.latest| ==> t.latest[i] !in t.taken
  {
    var both := t.taken + t.latest;
    forall i, j | 0 <= i < j < |t.latest| ensures t.latest[i] != t.latest[j] {
      assert both[|t.taken| + i] == t.latest[i] && both[|t.taken| + j] == t.latest[j];
    }
    forall i, j | 0 <= i < |t.latest| && 0 <= j < |t.taken| ensures t.latest[i] != t.taken[j] {
      assert both[|t.taken| + i] == t.latest[i] && both[j] == t.taken[j];
    }
  }

  lemma PopFates(t: Trace)
    requires SlotsInv(t) && FatesInv(t) && t.q.items != []
    ensures FatesInv(Step(t, Pop))
  {
    var t' := Step(t, Pop);
    assert t'.taken + t'.latest == t.taken + t.latest;
    assert HoldsLatest(t, 0) && t.latest == [t.latest[0]] + t.latest[1..];
    LatestApart(t);
    LatestApart(t');
    forall m | 0 <= m < |t'.offers| ensures HasOneFate(t', m) { assert HasOneFate(t, m); }
    forall m | m in t'.dropped ensures FoundFull(t', m) { assert FoundFull(t, m); }
  }

  lemma OfferKeepsSlots(t: Trace, env: Envelope)
    requires SlotsInv(t)
    ensures SlotsInv(Step(t, Offer(env)))
  {
    var t' := Step(t, Offer(env));
    PushKeepsKeysDistinct(t.q, env);
    forall i | 0 <= i < |t.q.items| && !t.q.receiverDropped && i != Target(t.q, env)
      ensures HoldsLatest(t', i)
    {
      OtherSlots(t, env, i);
    }
    match PushOutcome(t.q, env)
    case Pushed =>
      SlotsOlderThanNow(t);
      assert t'.left + t'.born == (t.left + t.born) + [|t.offers|];
      assert HoldsLatest(t', |t.q.items|);
    case Replaced =>
      assert HoldsLatest(t, Target(t.q, env));
      assert HoldsLatest(t', Target(t.q, env));
    case _ =>
  }

  lemma OfferKeepsInv(t: Trace, env: Envelope)
    requires Inv(t)
    ensures Inv(Step(t, Offer(env)))
  {
    OfferKeepsSlots(t, env);
    match PushOutcome(t.q, env)
    case Pushed => PushedFates(t, env);
    case Replaced => ReplacedFates(t, env);
    case Dropped => DroppedFates(t, env);
    case ReceiverGone =>
  }

  lemma StepKeepsInv(t: Trace, op: Op)
    requires Inv(t)
    ensures Inv(Step(t, op))
  {
    var t' := Step(t, op);
    match op
    case Offer(env) => OfferKeepsInv(t, env);
    case Pop =>
      if t.q.items != [] {
        assert t'.left + t'.born == t.left + t.born;
        assert HoldsLatest(t, 0);
        forall i | 0 <= i < |t'.q.items| ensures HoldsLatest(t', i) { assert HoldsLatest(t, i + 1); }
        PopFates(t);
      }
    case _ =>
      forall i | 0 <= i < |t'.q.items| ensures HoldsLatest(t', i) { assert HoldsLatest(t, i); }
      forall n | 0 <= n < |t'.offers| ensures HasOneFate(t', n) { assert HasOneFate(t, n); }
      forall n | n in t'.dropped ensures FoundFull(t', n) { assert FoundFull(t, n); }
  }

  ghost function Run(t: Trace, ops: seq<Op>): Trace
    requires Inv(t)
    decreases |ops|
  {
    if ops == [] then t
    else
      StepKeepsInv(t, ops[0]);
      Run(Step(t, ops[0]), ops[1..])
  }

  lemma {:induction false} RunKeepsInv(t: Trace, ops: seq<Op>)
    requires Inv(t)
    ensures Inv(Run(t, ops)) && Run(t, ops).q.capacity == t.q.capacity && Run(t, ops).q.keyPath == t.q.keyPath
    decreases |ops|
  {
    if ops != [] {
      StepKeepsInv(t, ops[0]);
      RunKeepsInv(Step(t, ops[0]), ops[1..]);
    }
  }

  /** What a reader gets by receiving `n` times. */
  function Drain(q: Queue, n: nat): seq<Received>
    decreases n
  {
    if n == 0 then [] else [Receive(q)] + Drain(AfterReceive(q), n - 1)
  }

  /** Closing never loses a queued envelope: the reader gets them all, in order, and only then the end. */
  lemma {:induction false} ClosingLosesNothing(q: Queue)
    ensures Drain(Close(q), |q.items| + 1) ==
            seq(|q.items|, i requires 0 <= i < |q.items| => Next(q.items[i])) + [Disconnected]
    decreases |q.items|
  {
    if q.items == [] {
      assert Drain(AfterReceive(Close(q)), 0) == [];
    } else {
      var rest := q.(items := q.items[1..]);
      assert AfterReceive(Close(q)) == Close(rest);
      ClosingLosesNothing(rest);
    }
  }

  /** Over every run of offers, pops and closes, from a fresh queue. */
  lemma LatestPerKeyInFirstArrivalOrder(capacity: nat, keyPath: FieldPath, ops: seq<Op>)
    ensures Inv(Start(capacity, keyPath)) && Inv(Run(Start(capacity, keyPath), ops))
    ensures var t := Run(Start(capacity, keyPath), ops);
            && (capacity > 0 ==> t.q.capacity == capacity) && (capacity == 0 ==> t.q.capacity == 1)
            && t.q.keyPath == keyPath && |t.q.items| <= t.q.capacity && DistinctKeys(t.q)
            && |t.offers| == |t.popped| + |t.q.items| + |t.replaced| + |t.dropped|
            && Increasing(t.left + t.born) && (forall i :: 0 <= i < |t.q.items| ==> HoldsLatest(t, i))
            && |t.taken| == |t.popped|
            && (forall i :: 0 <= i < |t.taken| ==> t.taken[i] < |t.offers| && t.popped[i] == t.offers[t.taken[i]])
            && (forall n :: 0 <= n < |t.offers| ==> HasOneFate(t, n))
            && (forall n :: n in t.dropped ==> n < |t.offers| && FoundFull(t, n))
  {
    RunKeepsInv(Start(capacity, keyPath), ops);
  }
}
