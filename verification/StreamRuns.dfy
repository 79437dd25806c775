/**
 Every interleaving of the locked steps behind `publish_envelope`
 (`runtime/context.rs`): reserve a sequence, index the event id, then either
 record the envelope in its ring or reject it as too large, then take the id
 that fell out of the index.  Any number of tasks run at once.
 */
module StreamRuns {
  import opened Wrappers
  import opened Envelopes
  import opened Streams

  type TaskId = nat

  /** One event: a stream and a sequence in it. */
  datatype Key = Key(stream: StreamId, sequence: nat)

  function IdOf(k: Key): EventId { EventIdOf(k.stream, k.sequence) }

  function KeyOf(env: Envelope): Key { Key(env.streamId, env.sequence) }

  datatype Task =
    | Reserved(key: Key)
    | Minted(env: Envelope)
    | Evicting(key: Key)
    | Done

  /** Where an event is, and which task is moving it. */
  datatype Place = WithTask(t: TaskId) | Ringed | Leaving(t: TaskId) | Gone

  /** `log` lists the accepted envelopes of each stream and `place` follows every event; nothing reads them. */
  datatype State = State(
    capacity: nat,
    next: map<StreamId, nat>,
    index: map<EventId, StreamId>,
    rings: map<StreamId, seq<Envelope>>,
    tasks: map<TaskId, Task>,
    log: map<StreamId, seq<Envelope>>,
    place: map<Key, Place>)

  datatype Action =
    | Reserve(t: TaskId, stream: StreamId)
    | Index(t: TaskId, template: Envelope)
    | Record(t: TaskId)
    | Reject(t: TaskId)
    | Evict(t: TaskId)

  function Start(capacity: nat): State { State(capacity, map[], map[], map[], map[], map[], map[]) }

  function NextOf(st: State, s: StreamId): nat { if s in st.next then st.next[s] else 1 }

  function RingOf(st: State, s: StreamId): seq<Envelope> { if s in st.rings then st.rings[s] else [] }

  function LogOf(st: State, s: StreamId): seq<Envelope> { if s in st.log then st.log[s] else [] }

  predicate Enabled(st: State, a: Action)
  {
    match a
    case Reserve(t, _) => t !in st.tasks
    case Index(t, _) => t in st.tasks && st.tasks[t].Reserved?
    case Record(t) => t in st.tasks && st.tasks[t].Minted?
    case Reject(t) => t in st.tasks && st.tasks[t].Minted?
    case Evict(t) => t in st.tasks && st.tasks[t].Evicting?
  }

  function Step(st: State, a: Action): State
    requires Enabled(st, a)
  {
    match a
    case Reserve(t, s) =>
      var k := Key(s, NextOf(st, s));
      st.(next := st.next[s := k.sequence + 1], tasks := st.tasks[t := Reserved(k)],
          place := st.place[k := WithTask(t)])
    case Index(t, template) =>
      var k := st.tasks[t].key;
      var env := template.(streamId := k.stream, sequence := k.sequence, eventId := IdOf(k));
      st.(index := st.index[IdOf(k) := k.stream], tasks := st.tasks[t := Minted(env)])
    case Record(t) =>
      var env := st.tasks[t].env;
      var s := env.streamId;
      var ring := RingOf(st, s);
      var st1 := st.(rings := st.rings[s := Recorded(ring, st.capacity, env)],
                     log := st.log[s := LogOf(st, s) + [env]],
                     place := st.place[KeyOf(env) := Ringed]);
      if Evicts(ring, st.capacity).Some? then
        st1.(tasks := st.tasks[t := Evicting(KeyOf(ring[0]))], place := st1.place[KeyOf(ring[0]) := Leaving(t)])
      else st1.(tasks := st.tasks[t := Done])
    case Reject(t) =>
      var k := KeyOf(st.tasks[t].env);
      st.(tasks := st.tasks[t := Evicting(k)], place := st.place[k := Leaving(t)])
    case Evict(t) =>
      var k := st.tasks[t].key;
      st.(index := st.index - {IdOf(k)}, tasks := st.tasks[t := Done], place := st.place[k := Gone])
  }

  function Next(st: State, a: Action): State { if Enabled(st, a) then Step(st, a) else st }

  function Run(st: State, acts: seq<Action>): State
    decreases |acts|
  {
    if acts == [] then st else Run(Next(st, acts[0]), acts[1..])
  }

  // ---- The invariant ----

  /** Every stream has handed out exactly the sequences from one to `next - 1`. */
  ghost predicate SequencesInv(st: State)
  {
    && (forall s :: 1 <= NextOf(st, s))
    && forall k :: k in st.place <==> 1 <= k.sequence < NextOf(st, k.stream)
  }

  ghost predicate TaskInv(st: State, t: TaskId)
    requires t in st.tasks
  {
    match st.tasks[t]
    case Reserved(k) => k in st.place && st.place[k] == WithTask(t)
    case Minted(env) => KeyOf(env) in st.place && st.place[KeyOf(env)] == WithTask(t) && env.eventId == IdOf(KeyOf(env))
    case Evicting(k) => k in st.place && st.place[k] == Leaving(t)
    case Done => true
  }

  ghost predicate InRing(st: State, k: Key)
  {
    exists i :: 0 <= i < |RingOf(st, k.stream)| && RingOf(st, k.stream)[i].sequence == k.sequence
  }

  /** A ring is the last `max(capacity, 1)` accepted envelopes of its stream, each an event of that stream. */
  ghost predicate RingInv(st: State, s: StreamId)
  {
    RingOf(st, s) == Suffix(LogOf(st, s), RingSize(st.capacity)) && RingElements(RingOf(st, s), s, st.place)
  }

  ghost predicate RingElements(ring: seq<Envelope>, s: StreamId, place: map<Key, Place>)
  {
    && (forall i :: 0 <= i < |ring| ==>
          && ring[i].streamId == s
          && ring[i].eventId == IdOf(KeyOf(ring[i]))
          && KeyOf(ring[i]) in place && place[KeyOf(ring[i])] == Ringed)
    && (forall i, j :: 0 <= i < j < |ring| ==> ring[i].sequence != ring[j].sequence)
  }

  /** The event has a reverse-index entry. */
  ghost predicate Indexed(st: State, k: Key)
    requires k in st.place
  {
    match st.place[k]
    case WithTask(t) => t in st.tasks && st.tasks[t].Minted? && KeyOf(st.tasks[t].env) == k
    case Ringed => true
    case Leaving(_) => true
    case Gone => false
  }

  ghost predicate PlaceInv(st: State, k: Key)
    requires k in st.place
  {
    && (st.place[k] == Ringed ==> InRing(st, k))
    && LeavingHeld(st, k)
    && IndexLaw(st, k)
  }

  /** An event on its way out is held by the task that evicts it. */
  ghost predicate LeavingHeld(st: State, k: Key)
    requires k in st.place
  {
    st.place[k].Leaving? ==> st.place[k].t in st.tasks && st.tasks[st.place[k].t] == Evicting(k)
  }

  ghost predicate IndexLaw(st: State, k: Key)
    requires k in st.place
  {
    (Indexed(st, k) <==> IdOf(k) in st.index) && (Indexed(st, k) ==> st.index[IdOf(k)] == k.stream)
  }

  ghost predicate Inv(st: State)
  {
    && SequencesInv(st)
    && (forall t :: t in st.tasks ==> TaskInv(st, t))
    && (forall s :: RingInv(st, s))
    && (forall k :: k in st.place ==> PlaceInv(st, k))
    && (forall id :: id in st.index ==> exists k :: k in st.place && IdOf(k) == id)
  }

  lemma KeysDiffer(k: Key, k': Key)
    ensures IdOf(k) == IdOf(k') ==> k == k'
  {
    if IdOf(k) == IdOf(k') {
      EventIdsAreInjective(k.stream, k.sequence, k'.stream, k'.sequence);
    }
  }

  lemma StepSequences(st: State, a: Action)
    requires SequencesInv(st) && Acting(st, a)
    ensures SequencesInv(Step(st, a))
  {
    var st' := Step(st, a);
    forall s ensures 1 <= NextOf(st', s) { assert 1 <= NextOf(st, s); }
    forall k ensures k in st'.place <==> 1 <= k.sequence < NextOf(st', k.stream) {
      assert k in st.place <==> 1 <= k.sequence < NextOf(st, k.stream);
    }
  }

  /** What every step lemma below needs of the state before: the acting task and, for a record, its ring. */
  ghost predicate Acting(st: State, a: Action)
  {
    && Enabled(st, a)
    && (a.t in st.tasks ==> TaskInv(st, a.t))
    && (a.Reserve? ==> Key(a.stream, NextOf(st, a.stream)) !in st.place)
    && (a.Record? ==> RingInv(st, st.tasks[a.t].env.streamId))
  }

  /** A step moves only events that its own task holds, a new one, or the front of the ring it records in. */
  lemma PlacesMoved(st: State, a: Action, k: Key)
    requires Acting(st, a) && k in st.place && k in Step(st, a).place && Step(st, a).place[k] != st.place[k]
    ensures st.place[k] == WithTask(a.t) || st.place[k] == Leaving(a.t) ||
            (a.Record? && st.place[k] == Ringed && k == KeyOf(RingOf(st, st.tasks[a.t].env.streamId)[0]))
  {
  }

  lemma StepTask(st: State, a: Action, t: TaskId)
    requires Acting(st, a) && t in Step(st, a).tasks && (t in st.tasks ==> TaskInv(st, t))
    ensures TaskInv(Step(st, a), t)
  {
    if t != a.t {
      var task := st.tasks[t];
      if !task.Done? {
        var k := if task.Minted? then KeyOf(task.env) else task.key;
        if Step(st, a).place[k] != st.place[k] { PlacesMoved(st, a, k); }
      }
    } else {
      ActingTask(st, a);
    }
  }

  lemma ActingTask(st: State, a: Action)
    requires Acting(st, a)
    ensures TaskInv(Step(st, a), a.t)
  {
  }

  lemma RecordElements(ring: seq<Envelope>, capacity: nat, env: Envelope,
                       place: map<Key, Place>, place': map<Key, Place>)
    requires RingElements(ring, env.streamId, place) && env.eventId == IdOf(KeyOf(env))
    requires KeyOf(env) in place && place[KeyOf(env)] != Ringed && KeyOf(env) in place' && place'[KeyOf(env)] == Ringed
    requires forall i :: 0 <= i < |ring| && (i == 0 ==> Evicts(ring, capacity).None?) ==>
               KeyOf(ring[i]) in place' && place'[KeyOf(ring[i])] == Ringed
    ensures RingElements(Recorded(ring, capacity, env), env.streamId, place')
  {
    forall i | 0 <= i < |ring| ensures ring[i].sequence != env.sequence { assert place[KeyOf(ring[i])] == Ringed; }
  }

  lemma RecordRing(st: State, a: Action)
    requires Acting(st, a) && a.Record?
    ensures RingInv(Step(st, a), st.tasks[a.t].env.streamId)
  {
    var env, st' := st.tasks[a.t].env, Step(st, a);
    var ring := RingOf(st, env.streamId);
    RecordKeepsSuffix(LogOf(st, env.streamId), st.capacity, env);
    forall i | 0 <= i < |ring| && (i == 0 ==> Evicts(ring, st.capacity).None?)
      ensures KeyOf(ring[i]) in st'.place && st'.place[KeyOf(ring[i])] == Ringed
    {
      StaysRinged(st, a, i);
    }
    RecordElements(ring, st.capacity, env, st.place, st'.place);
  }

  lemma StaysRinged(st: State, a: Action, i: nat)
    requires Acting(st, a) && a.Record? && i < |RingOf(st, st.tasks[a.t].env.streamId)|
    requires i == 0 ==> Evicts(RingOf(st, st.tasks[a.t].env.streamId), st.capacity).None?
    ensures var k := KeyOf(RingOf(st, st.tasks[a.t].env.streamId)[i]);
            k in Step(st, a).place && Step(st, a).place[k] == Ringed
  {
    var ring := RingOf(st, st.tasks[a.t].env.streamId);
    assert KeyOf(ring[i]) in st.place && st.place[KeyOf(ring[i])] == Ringed;
  }

  lemma StepRing(st: State, a: Action, s: StreamId)
    requires Acting(st, a) && RingInv(st, s)
    ensures RingInv(Step(st, a), s)
  {
    if a.Record? && st.tasks[a.t].env.streamId == s {
      RecordRing(st, a);
    } else {
      var ring := RingOf(st, s);
      assert RingOf(Step(st, a), s) == ring && LogOf(Step(st, a), s) == LogOf(st, s);
      forall i | 0 <= i < |ring|
        ensures KeyOf(ring[i]) in Step(st, a).place && Step(st, a).place[KeyOf(ring[i])] == Ringed
      {
        if Step(st, a).place[KeyOf(ring[i])] != Ringed { PlacesMoved(st, a, KeyOf(ring[i])); }
      }
    }
  }

  /** Recording keeps in the ring every event of it but the front. */
  lemma RecordKeepsInRing(st: State, a: Action, k: Key)
    requires Acting(st, a) && a.Record? && k.stream == st.tasks[a.t].env.streamId
    requires k == KeyOf(st.tasks[a.t].env) || (InRing(st, k) && Step(st, a).place[k] == Ringed)
    requires k in Step(st, a).place
    ensures InRing(Step(st, a), k)
  {
    var ring, ring' := RingOf(st, k.stream), RingOf(Step(st, a), k.stream);
    if k == KeyOf(st.tasks[a.t].env) {
      assert ring'[|ring'| - 1].sequence == k.sequence;
    } else {
      var i :| 0 <= i < |ring| && ring[i].sequence == k.sequence;
      assert KeyOf(ring[i]) == k;
      if |ring'| == |ring| + 1 { assert ring'[i] == ring[i]; } else { assert ring'[i - 1] == ring[i]; }
    }
  }

  lemma StepRinged(st: State, a: Action, k: Key)
    requires Acting(st, a) && k in Step(st, a).place
    requires Step(st, a).place[k] == Ringed && (k in st.place ==> PlaceInv(st, k))
    ensures InRing(Step(st, a), k)
  {
    if a.Record? && st.tasks[a.t].env.streamId == k.stream {
      RecordKeepsInRing(st, a, k);
    } else {
      assert RingOf(Step(st, a), k.stream) == RingOf(st, k.stream);
    }
  }

  lemma StepIndexed(st: State, a: Action, k: Key)
    requires Acting(st, a) && k in Step(st, a).place && (k in st.place ==> IndexLaw(st, k))
    requires k !in st.place ==> IdOf(k) !in st.index
    ensures IndexLaw(Step(st, a), k)
  {
    if a.Index? || a.Evict? {
      KeysDiffer(k, st.tasks[a.t].key);
    } else {
      StepUnindexed(st, a, k);
    }
  }

  lemma StepUnindexed(st: State, a: Action, k: Key)
    requires !a.Index? && !a.Evict? && Acting(st, a) && k in Step(st, a).place && (k in st.place ==> IndexLaw(st, k))
    requires k !in st.place ==> IdOf(k) !in st.index
    ensures IndexLaw(Step(st, a), k)
  {
    if k in st.place { SameIndexed(st, a, k); }
  }

  lemma SameIndexed(st: State, a: Action, k: Key)
    requires !a.Index? && !a.Evict? && Acting(st, a) && k in st.place && k in Step(st, a).place
    ensures Indexed(Step(st, a), k) <==> Indexed(st, k)
  {
    if Step(st, a).place[k] != st.place[k] { PlacesMoved(st, a, k); }
  }

  lemma RecordLeaving(st: State, a: Action, k: Key)
    requires Acting(st, a) && a.Record? && k in st.place && LeavingHeld(st, k) && k in Step(st, a).place
    ensures LeavingHeld(Step(st, a), k)
  {
    if Step(st, a).place[k] == st.place[k] { assert st.place[k] != Leaving(a.t); }
  }

  lemma StepLeaving(st: State, a: Action, k: Key)
    requires Acting(st, a) && k in Step(st, a).place && (k in st.place ==> LeavingHeld(st, k))
    ensures LeavingHeld(Step(st, a), k)
  {
    match a
    case Record(_) => RecordLeaving(st, a, k);
    case _ =>
  }

  lemma StepPlace(st: State, a: Action, k: Key)
    requires Acting(st, a) && k in Step(st, a).place && (k in st.place ==> PlaceInv(st, k))
    requires a.Reserve? ==> IdOf(Key(a.stream, NextOf(st, a.stream))) !in st.index
    ensures PlaceInv(Step(st, a), k)
  {
    var st' := Step(st, a);
    if st'.place[k] == Ringed { StepRinged(st, a, k); }
    StepLeaving(st, a, k);
    StepIndexed(st, a, k);
  }

  lemma BeforeStep(st: State, a: Action)
    requires Inv(st) && Enabled(st, a)
    ensures Acting(st, a)
  {
  }

  lemma NewKeyIsNotIndexed(st: State, s: StreamId)
    requires Inv(st)
    ensures Key(s, NextOf(st, s)) !in st.place && IdOf(Key(s, NextOf(st, s))) !in st.index
  {
    var k := Key(s, NextOf(st, s));
    if IdOf(k) in st.index {
      var k' :| k' in st.place && IdOf(k') == IdOf(k);
      KeysDiffer(k, k');
    }
  }

  lemma StepIndex(st: State, a: Action, id: EventId)
    requires Enabled(st, a) && id in Step(st, a).index && (a.Index? ==> TaskInv(st, a.t))
    requires id in st.index ==> exists k :: k in st.place && IdOf(k) == id
    ensures exists k :: k in Step(st, a).place && IdOf(k) == id
  {
    if id in st.index {
      var k :| k in st.place && IdOf(k) == id;
      assert k in Step(st, a).place;
    } else {
      NewlyIndexed(st, a, id);
    }
  }

  lemma NewlyIndexed(st: State, a: Action, id: EventId)
    requires Enabled(st, a) && id in Step(st, a).index && id !in st.index && (a.Index? ==> TaskInv(st, a.t))
    ensures a.Index? && IdOf(st.tasks[a.t].key) == id && st.tasks[a.t].key in Step(st, a).place
  {
  }

  lemma NextKeepsInv(st: State, a: Action)
    requires Inv(st)
    ensures Inv(Next(st, a))
  {
    if Enabled(st, a) {
      var st' := Step(st, a);
      BeforeStep(st, a);
      StepSequences(st, a);
      forall t | t in st'.tasks ensures TaskInv(st', t) { StepTask(st, a, t); }
      forall s ensures RingInv(st', s) { StepRing(st, a, s); }
      if a.Reserve? { NewKeyIsNotIndexed(st, a.stream); }
      forall k | k in st'.place ensures PlaceInv(st', k) { StepPlace(st, a, k); }
      forall id | id in st'.index ensures exists k :: k in st'.place && IdOf(k) == id { StepIndex(st, a, id); }
    }
  }

  lemma {:induction false} RunKeepsInv(st: State, acts: seq<Action>)
    requires Inv(st)
    ensures Inv(Run(st, acts))
    decreases |acts|
  {
    if acts != [] {
      NextKeepsInv(st, acts[0]);
      RunKeepsInv(Next(st, acts[0]), acts[1..]);
    }
  }

  // ---- What the invariant gives ----

  /** An envelope that keeps its index entry: retained in a ring, or minted and not yet published. */
  ghost predicate Wanted(st: State, env: Envelope)
  {
    env in RingOf(st, env.streamId) || exists t :: t in st.tasks && st.tasks[t] == Minted(env)
  }

  lemma WantedIsIndexed(st: State, env: Envelope)
    requires Inv(st) && Wanted(st, env)
    ensures env.eventId in st.index && st.index[env.eventId] == env.streamId
  {
    if env in RingOf(st, env.streamId) {
      assert RingInv(st, env.streamId);
    } else {
      var t :| t in st.tasks && st.tasks[t] == Minted(env);
      assert TaskInv(st, t);
    }
    assert PlaceInv(st, KeyOf(env));
  }

  lemma IndexedIsWanted(st: State, id: EventId) returns (env: Envelope)
    requires Inv(st) && id in st.index && forall t :: t in st.tasks ==> !st.tasks[t].Evicting?
    ensures Wanted(st, env) && env.eventId == id
  {
    var k :| k in st.place && IdOf(k) == id;
    assert PlaceInv(st, k);
    if st.place[k] == Ringed {
      var i :| 0 <= i < |RingOf(st, k.stream)| && RingOf(st, k.stream)[i].sequence == k.sequence;
      env := RingOf(st, k.stream)[i];
      assert RingInv(st, k.stream);
    } else {
      env := st.tasks[st.place[k].t].env;
      assert TaskInv(st, st.place[k].t);
    }
  }

  /**
   Over every run, once pending evictions have finished: the index holds
   exactly the ids in some ring and the ids minted but not yet published, each
   mapped to its own stream, and each ring is the last envelopes accepted.
   */
  lemma RingAndIndexAgree(capacity: nat, acts: seq<Action>)
    ensures var st := Run(Start(capacity), acts);
            && (forall s :: RingOf(st, s) == Suffix(LogOf(st, s), RingSize(capacity)))
            && (forall env :: Wanted(st, env) ==> env.eventId in st.index && st.index[env.eventId] == env.streamId)
            && ((forall t :: t in st.tasks ==> !st.tasks[t].Evicting?) ==>
                  forall id :: id in st.index ==> exists env :: Wanted(st, env) && env.eventId == id)
  {
    RunKeepsInv(Start(capacity), acts);
    CapacityIsFixed(Start(capacity), acts);
    var st := Run(Start(capacity), acts);
    forall s ensures RingOf(st, s) == Suffix(LogOf(st, s), RingSize(capacity)) { assert RingInv(st, s); }
    forall env | Wanted(st, env)
      ensures env.eventId in st.index && st.index[env.eventId] == env.streamId
    {
      WantedIsIndexed(st, env);
    }
    if forall t :: t in st.tasks ==> !st.tasks[t].Evicting? {
      forall id | id in st.index ensures exists env :: Wanted(st, env) && env.eventId == id {
        var env := IndexedIsWanted(st, id);
      }
    }
  }

  lemma {:induction false} CapacityIsFixed(st: State, acts: seq<Action>)
    ensures Run(st, acts).capacity == st.capacity
    decreases |acts|
  {
    if acts != [] { CapacityIsFixed(Next(st, acts[0]), acts[1..]); }
  }

  /** The task has the event between its reservation and its end. */
  predicate Carries(st: State, t: TaskId, k: Key)
  {
    t in st.tasks && match st.tasks[t]
      case Reserved(l) => l == k
      case Minted(env) => KeyOf(env) == k
      case Evicting(l) => l == k
      case Done => false
  }

  /**
   Sequences of a stream are handed out once each, without gaps, from one, under
   any interleaving: the next one has not been handed out, and no two tasks ever
   have the same.
   */
  lemma SequencesAreDense(capacity: nat, acts: seq<Action>, k: Key)
    ensures var st := Run(Start(capacity), acts);
            && (k in st.place <==> 1 <= k.sequence < NextOf(st, k.stream))
            && Key(k.stream, NextOf(st, k.stream)) !in st.place
            && (forall t, u :: Carries(st, t, k) && Carries(st, u, k) ==> t == u)
  {
    RunKeepsInv(Start(capacity), acts);
    var st := Run(Start(capacity), acts);
    assert SequencesInv(st);
    forall t, u | Carries(st, t, k) && Carries(st, u, k) ensures t == u { CarriedOnce(st, t, u, k); }
  }

  lemma CarriedOnce(st: State, t: TaskId, u: TaskId, k: Key)
    requires Carries(st, t, k) && Carries(st, u, k) && TaskInv(st, t) && TaskInv(st, u)
    ensures t == u
  {
  }

  // ---- Serialized publishing ----

  /** Nobody else is between reserving on the stream and recording. */
  ghost predicate Idle(st: State, s: StreamId)
  {
    forall t :: t in st.tasks ==> match st.tasks[t]
      case Reserved(k) => k.stream != s
      case Minted(env) => env.streamId != s
      case _ => true
  }

  ghost predicate SerializedRun(st: State, acts: seq<Action>)
    decreases |acts|
  {
    acts == [] || ((acts[0].Reserve? ==> Idle(st, acts[0].stream)) && SerializedRun(Next(st, acts[0]), acts[1..]))
  }

  ghost function Pending(task: Task): Option<Key>
  {
    match task
    case Reserved(k) => Some(k)
    case Minted(env) => Some(KeyOf(env))
    case _ => None
  }

  ghost predicate Holds(task: Task, s: StreamId) { Pending(task).Some? && Pending(task).value.stream == s }

  ghost predicate OrderInv(st: State, s: StreamId)
  {
    && LogBelow(LogOf(st, s), NextOf(st, s))
    && (forall t :: t in st.tasks && Holds(st.tasks[t], s) ==>
          && Pending(st.tasks[t]).value.sequence == NextOf(st, s) - 1
          && LogBelow(LogOf(st, s), NextOf(st, s) - 1))
    && (forall t, t' :: t in st.tasks && t' in st.tasks && t != t' ==>
          !(Holds(st.tasks[t], s) && Holds(st.tasks[t'], s)))
  }

  ghost predicate LogBelow(log: seq<Envelope>, n: nat)
  {
    Ascending(log) && forall i :: 0 <= i < |log| ==> log[i].sequence < n
  }

  /** The recorded envelope is the newest of its stream, and nobody else holds one. */
  lemma RecordInOrder(st: State, a: Action, s: StreamId)
    requires Enabled(st, a) && OrderInv(st, s) && a.Record? && st.tasks[a.t].env.streamId == s
    ensures LogBelow(LogOf(st, s) + [st.tasks[a.t].env], NextOf(st, s))
    ensures forall t :: t in st.tasks && t != a.t ==> !Holds(st.tasks[t], s)
  {
    assert Holds(st.tasks[a.t], s);
  }

  lemma FewerHoldersKeepOrder(st: State, st': State, s: StreamId)
    requires OrderInv(st, s) && LogOf(st', s) == LogOf(st, s) && NextOf(st', s) == NextOf(st, s)
    requires forall t :: t in st'.tasks && Holds(st'.tasks[t], s) ==>
               t in st.tasks && Pending(st'.tasks[t]) == Pending(st.tasks[t])
    ensures OrderInv(st', s)
  {
  }

  lemma ReserveKeepsOrder(st: State, a: Action)
    requires a.Reserve? && Enabled(st, a) && OrderInv(st, a.stream) && Idle(st, a.stream)
    ensures OrderInv(Step(st, a), a.stream)
  {
    assert forall t :: t in st.tasks ==> !Holds(st.tasks[t], a.stream);
  }

  lemma RecordKeepsOrder(st: State, a: Action)
    requires a.Record? && Enabled(st, a) && OrderInv(st, st.tasks[a.t].env.streamId)
    ensures OrderInv(Step(st, a), st.tasks[a.t].env.streamId)
  {
    var s := st.tasks[a.t].env.streamId;
    RecordInOrder(st, a, s);
    assert forall t :: t in Step(st, a).tasks ==> !Holds(Step(st, a).tasks[t], s);
  }

  lemma StepKeepsOrder(st: State, a: Action, s: StreamId)
    requires Enabled(st, a) && OrderInv(st, s) && (a.Reserve? ==> Idle(st, a.stream))
    ensures OrderInv(Step(st, a), s)
  {
    if a.Record? && st.tasks[a.t].env.streamId == s {
      RecordKeepsOrder(st, a);
    } else if a.Reserve? && a.stream == s {
      ReserveKeepsOrder(st, a);
    } else {
      FewerHoldersKeepOrder(st, Step(st, a), s);
    }
  }

  lemma {:induction false} SerializedRunKeepsOrder(st: State, acts: seq<Action>, s: StreamId)
    requires OrderInv(st, s) && SerializedRun(st, acts)
    ensures OrderInv(Run(st, acts), s)
    decreases |acts|
  {
    if acts != [] {
      if Enabled(st, acts[0]) { StepKeepsOrder(st, acts[0], s); }
      SerializedRunKeepsOrder(Next(st, acts[0]), acts[1..], s);
    }
  }

  /**
   With serialized publishing a replay is strictly increasing, and is exactly the retained
   envelopes above the bound.
   */
  lemma ReplayIsOrdered(capacity: nat, acts: seq<Action>, s: StreamId, after: nat)
    requires SerializedRun(Start(capacity), acts)
    ensures var st := Run(Start(capacity), acts); var replay := Newer(RingOf(st, s), after);
            && Ascending(replay)
            && forall e :: e in replay <==> e in Suffix(LogOf(st, s), RingSize(capacity)) && e.sequence > after
  {
    RingAndIndexAgree(capacity, acts);
    SerializedRunKeepsOrder(Start(capacity), acts, s);
    NewerIsFilter(RingOf(Run(Start(capacity), acts), s), after);
  }

  // ---- The objects take these steps ----

  /** The registry and the cache hold what the state holds. */
  ghost predicate Shows(cache: ReplayCache, st: State)
    reads cache, cache.registry
  {
    && cache.capacity == st.capacity && cache.rings == st.rings
    && cache.registry.next == st.next && cache.registry.byEvent == st.index
  }

  /** The steps of one publish with no other in between; the eviction is a no-op when nothing fell out. */
  function Publishing(t: TaskId, stream: StreamId, template: Envelope, tooLarge: bool): seq<Action>
  {
    [Reserve(t, stream), Index(t, template)] + [if tooLarge then Reject(t) else Record(t), Evict(t)]
  }

  lemma RunPair(st: State, a: Action, b: Action)
    ensures Run(st, [a, b]) == Next(Next(st, a), b)
  {
    assert [a, b][1..] == [b] && [b][1..] == [];
    assert Run(Next(st, a), [b]) == Next(Next(st, a), b);
  }

  lemma {:induction false} RunConcat(st: State, a: seq<Action>, b: seq<Action>)
    ensures Run(st, a + b) == Run(Run(st, a), b)
    decreases |a|
  {
    if a == [] {
      assert a + b == b;
    } else {
      assert (a + b)[0] == a[0] && (a + b)[1..] == a[1..] + b;
      RunConcat(Next(st, a[0]), a[1..], b);
    }
  }

  /** `allocate` is the reservation and the indexing. */
  lemma AllocateSteps(st: State, t: TaskId, stream: StreamId, template: Envelope)
    requires t !in st.tasks
    ensures var k := Key(stream, NextOf(st, stream)); var st2 := Next(Next(st, Reserve(t, stream)), Index(t, template));
            && st2.next == st.next[stream := k.sequence + 1] && st2.index == st.index[IdOf(k) := stream]
            && st2.rings == st.rings && st2.capacity == st.capacity && t in st2.tasks
            && st2.tasks[t] == Minted(template.(streamId := stream, sequence := k.sequence, eventId := IdOf(k)))
  {
  }

  /** The envelope that falls out of the ring, if any, carries the id of its own event. */
  ghost predicate OwnIds(ring: seq<Envelope>, env: Envelope)
  {
    env.eventId == IdOf(KeyOf(env)) && (ring != [] ==> ring[0].eventId == IdOf(KeyOf(ring[0])))
  }

  lemma MintedHasOwnIds(st: State, t: TaskId)
    requires Inv(st) && t in st.tasks && st.tasks[t].Minted?
    ensures OwnIds(RingOf(st, st.tasks[t].env.streamId), st.tasks[t].env)
  {
    assert TaskInv(st, t);
    assert RingInv(st, st.tasks[t].env.streamId);
  }

  /** Recording and the eviction are what `record` does to the rings and the index. */
  lemma RecordSteps(st: State, t: TaskId)
    requires t in st.tasks && st.tasks[t].Minted? && OwnIds(RingOf(st, st.tasks[t].env.streamId), st.tasks[t].env)
    ensures var env := st.tasks[t].env; var ring := RingOf(st, env.streamId);
            var st2 := Next(Next(st, Record(t)), Evict(t)); var evicted := Evicts(ring, st.capacity);
            && st2.next == st.next && st2.capacity == st.capacity
            && st2.rings == st.rings[env.streamId := Recorded(ring, st.capacity, env)]
            && st2.index == (if evicted.Some? then st.index - {evicted.value} else st.index)
  {
  }

  lemma RejectSteps(st: State, t: TaskId)
    requires t in st.tasks && st.tasks[t].Minted? && OwnIds([], st.tasks[t].env)
    ensures var st2 := Next(Next(st, Reject(t)), Evict(t));
            && st2.next == st.next && st2.capacity == st.capacity && st2.rings == st.rings
            && st2.index == st.index - {st.tasks[t].env.eventId}
  {
  }

  /** What a whole publish does to the registry and the cache. */
  lemma PublishSteps(st: State, t: TaskId, stream: StreamId, template: Envelope, tooLarge: bool) returns (end: State)
    requires Inv(st) && t !in st.tasks
    ensures end == Run(st, Publishing(t, stream, template, tooLarge)) && end.capacity == st.capacity
    ensures var k := Key(stream, NextOf(st, stream)); var ring := RingOf(st, stream);
            var index := st.index[IdOf(k) := stream];
            var env := template.(streamId := stream, sequence := k.sequence, eventId := IdOf(k));
            && end.next == st.next[stream := k.sequence + 1]
            && end.rings == (if tooLarge then st.rings else st.rings[stream := Recorded(ring, st.capacity, env)])
            && end.index == (if tooLarge then index - {env.eventId}
                             else if Evicts(ring, st.capacity).Some? then index - {Evicts(ring, st.capacity).value}
                             else index)
  {
    var last := if tooLarge then Reject(t) else Record(t);
    var st2 := Next(Next(st, Reserve(t, stream)), Index(t, template));
    AllocateSteps(st, t, stream, template);
    NextKeepsInv(st, Reserve(t, stream));
    NextKeepsInv(Next(st, Reserve(t, stream)), Index(t, template));
    MintedHasOwnIds(st2, t);
    if tooLarge { RejectSteps(st2, t); } else { RecordSteps(st2, t); }
    end := Next(Next(st2, last), Evict(t));
    RunConcat(st, [Reserve(t, stream), Index(t, template)], [last, Evict(t)]);
    RunPair(st, Reserve(t, stream), Index(t, template));
    RunPair(st2, last, Evict(t));
  }

  /** `publish_envelope` up to the fan-out, run undisturbed, takes the registry and the cache through those steps. */
  method PublishEnvelope(cache: ReplayCache, stream: StreamId, template: Envelope, tooLarge: bool,
                         ghost st: State, ghost t: TaskId)
      returns (env: Envelope)
    requires Inv(st) && t !in st.tasks && Shows(cache, st)
    modifies cache, cache.registry
    ensures Shows(cache, Run(st, Publishing(t, stream, template, tooLarge)))
    ensures env.streamId == stream && env.sequence == NextOf(st, stream)
    ensures env.eventId == EventIdOf(stream, env.sequence)
  {
    ghost var end := PublishSteps(st, t, stream, template, tooLarge);
    var eventId, sequence := cache.registry.Allocate(stream);
    env := template.(streamId := stream, sequence := sequence, eventId := eventId);
    cache.Admit(env, tooLarge);
    assert Shows(cache, end);
  }
}
