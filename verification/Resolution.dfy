/**
 Resolving a resource's stable id (`server.rs`).  A call reads the store, may
 read it again, and then writes it, each step under the store's own lock only,
 so calls made at the same time interleave.
 */
module Resolution {
  import opened Wrappers
  import opened Identities

  datatype Spec = Spec(kind: string, name: Option<string>)

  /** No name and the empty name give the same key. */
  function KeyOf(spec: Spec): IdentityKey
  {
    IdentityKey("static", spec.kind, if spec.name.Some? then spec.name.value else "")
  }

  /** The same kind and the same name; no name and the empty name are one. */
  ghost predicate SameIdentity(s: Spec, t: Spec)
  {
    s.kind == t.kind && (s.name == t.name || (s.name in {None, Some("")} && t.name in {None, Some("")}))
  }

  lemma KeysAreIdentities()
    ensures forall s, t :: KeyOf(s) == KeyOf(t) <==> SameIdentity(s, t)
  {
  }

  function SpecOf(record: Record): Spec { Spec(record.kind, record.name) }

  function RecordFor(spec: Spec, id: string, now: int): Record
  {
    Record(id, spec.kind, spec.name, [KeyOf(spec)], map[], now, now)
  }

  /** A call that has found no record under its explicit id and has yet to look up its key, or that has yet to write. */
  datatype Pending = ToFind(spec: Spec, explicit: Option<string>, minted: string) | ToPut(spec: Spec, id: string)

  /** `answers` are the specs that calls were made for, with the ids they returned. */
  datatype World = World(store: Indexed, pending: map<nat, Pending>, answers: set<(Spec, string)>)

  datatype Act =
    | Begin(call: nat, spec: Spec, explicit: Option<string>, minted: string)
    | FindStep(call: nat)
    | PutStep(call: nat, now: int)

  function Start(): World { World(Indexed(map[], map[]), map[], {}) }

  function Return(w: World, call: nat, spec: Spec, id: string): World
  {
    w.(pending := w.pending - {call}, answers := w.answers + {(spec, id)})
  }

  function Refuse(w: World, call: nat): World { w.(pending := w.pending - {call}) }

  function Step(w: World, act: Act): World
  {
    match act
    case Begin(call, spec, explicit, minted) =>
      if call in w.pending then w
      else if explicit.Some? && explicit.value in w.store.records then
        if SpecOf(w.store.records[explicit.value]) == spec then Return(w, call, spec, explicit.value) else w
      else w.(pending := w.pending[call := ToFind(spec, explicit, minted)])
    case FindStep(call) =>
      if call !in w.pending || !w.pending[call].ToFind? then w
      else
        var p := w.pending[call];
        var found := IndexedFind(w.store, KeyOf(p.spec));
        if p.explicit.Some? then
          if found.Some? && found.value.id != p.explicit.value then Refuse(w, call)
          else w.(pending := w.pending[call := ToPut(p.spec, p.explicit.value)])
        else if found.Some? then Return(w, call, p.spec, found.value.id)
        else w.(pending := w.pending[call := ToPut(p.spec, p.minted)])
    case PutStep(call, now) =>
      if call !in w.pending || !w.pending[call].ToPut? then w
      else
        var p := w.pending[call];
        var (store, answer) := IndexedPut(w.store, RecordFor(p.spec, p.id, now));
        if answer.Done? then Return(w.(store := store), call, p.spec, p.id) else Refuse(w, call)
  }

  function Run(w: World, acts: seq<Act>): World
    decreases |acts|
  {
    if acts == [] then w else Run(Step(w, acts[0]), acts[1..])
  }

  /** The steps of one call. */
  function Call(call: nat, spec: Spec, explicit: Option<string>, minted: string, now: int): seq<Act>
  {
    [Begin(call, spec, explicit, minted), FindStep(call), PutStep(call, now)]
  }

  lemma RunCall(w: World, call: nat, spec: Spec, explicit: Option<string>, minted: string, now: int)
    ensures Run(w, Call(call, spec, explicit, minted, now)) ==
            Step(Step(Step(w, Begin(call, spec, explicit, minted)), FindStep(call)), PutStep(call, now))
  {
    var acts := Call(call, spec, explicit, minted, now);
    assert acts[1..] == [FindStep(call), PutStep(call, now)];
    assert acts[1..][1..] == [PutStep(call, now)] && acts[1..][1..][1..] == [];
    var w1 := Step(w, acts[0]);
    var w2 := Step(w1, acts[1..][0]);
    assert Run(w2, acts[1..][1..]) == Step(w2, PutStep(call, now));
  }

  // ---- The call itself ----

  datatype Problem = IdRegistered | IdentityRegistered

  /** What the first key that is held names. */
  function FirstFound(s: Indexed, keys: seq<IdentityKey>): Option<Record>
  {
    if keys == [] then None
    else if IndexedFind(s, keys[0]).Some? then IndexedFind(s, keys[0])
    else FirstFound(s, keys[1..])
  }

  method FindAny(store: IndexedStore, keys: seq<IdentityKey>) returns (r: Option<Record>)
    ensures r == FirstFound(store.State(), keys)
  {
    for i := 0 to |keys|
      invariant FirstFound(store.State(), keys) == FirstFound(store.State(), keys[i..])
    {
      assert keys[i..][1..] == keys[i + 1..];
      r := store.FindByIdentityKey(keys[i]);
      if r.Some? {
        return;
      }
    }
    r := None;
  }

  /** One undisturbed call is its three steps in a row. */
  method Resolve(store: IndexedStore, spec: Spec, explicit: Option<string>, minted: string, now: int)
      returns (r: Result<string, Problem>)
    modifies store
    ensures var w := Run(World(old(store.State()), map[], {}), Call(0, spec, explicit, minted, now));
            store.State() == w.store && w.answers == if r.Ok? then {(spec, r.value)} else {}
    ensures r.Err? ==> (r.error == IdRegistered <==> explicit.Some? && explicit.value in old(store.records))
  {
    RunCall(World(store.State(), map[], {}), 0, spec, explicit, minted, now);
    if explicit.Some? {
      var existing := store.Get(explicit.value);
      if existing.Some? {
        return if SpecOf(existing.value) == spec then Ok(explicit.value) else Err(IdRegistered);
      }
      var found := FindAny(store, [KeyOf(spec)]);
      if found.Some? && found.value.id != explicit.value {
        return Err(IdentityRegistered);
      }
      var put := store.Put(RecordFor(spec, explicit.value, now));
      return if put.Done? then Ok(explicit.value) else Err(IdentityRegistered);
    }
    var found := FindAny(store, [KeyOf(spec)]);
    if found.Some? {
      return Ok(found.value.id);
    }
    var put := store.Put(RecordFor(spec, minted, now));
    return if put.Done? then Ok(minted) else Err(IdentityRegistered);
  }

  // ---- What every interleaving keeps ----

  /** Each record holds exactly its own identity, and was returned to some call. */
  ghost predicate Backed(w: World)
  {
    && (forall id :: id in w.store.records ==> w.store.records[id].keys == [KeyOf(SpecOf(w.store.records[id]))])
    && (forall id :: id in w.store.records ==> (SpecOf(w.store.records[id]), id) in w.answers)
  }

  ghost predicate Inv(w: World) { Inverse(w.store) && Backed(w) }

  lemma StepKeepsInv(w: World, act: Act)
    requires Inv(w)
    ensures Inv(Step(w, act)) && w.answers <= Step(w, act).answers
  {
    if act.PutStep? && act.call in w.pending && w.pending[act.call].ToPut? {
      IndexedPutMeans(w.store, RecordFor(w.pending[act.call].spec, w.pending[act.call].id, act.now));
    }
  }

  /** Every id returned so far is still the id of its identity. */
  ghost predicate Settled(w: World)
  {
    forall a :: a in w.answers ==> KeyOf(a.0) in w.store.index && w.store.index[KeyOf(a.0)] == a.1
  }

  /** A write that replaces the record of another identity. */
  ghost predicate Overwrites(w: World, act: Act)
  {
    act.PutStep? && act.call in w.pending && w.pending[act.call].ToPut? &&
    var p := w.pending[act.call];
    p.id in w.store.records && !SameIdentity(SpecOf(w.store.records[p.id]), p.spec) && KeyOf(p.spec) !in w.store.index
  }

  /** A step keeps every returned id in place exactly when it does not overwrite another identity. */
  lemma StepSettledIff(w: World, act: Act)
    requires Inv(w) && Settled(w)
    ensures Settled(Step(w, act)) <==> !Overwrites(w, act)
    ensures Overwrites(w, act) ==> !Consistent(Step(w, act).answers)
  {
    KeysAreIdentities();
    if act.PutStep? && act.call in w.pending && w.pending[act.call].ToPut? {
      PutSettledIff(w, act.call, act.now);
    } else if act.Begin? && act.explicit.Some? && act.explicit.value in w.store.records {
      assert Holds(w.store.records, act.explicit.value, KeyOf(SpecOf(w.store.records[act.explicit.value])));
    } else if act.FindStep? && act.call in w.pending && w.pending[act.call].ToFind? {
      var k := KeyOf(w.pending[act.call].spec);
      assert k in w.store.index ==> Holds(w.store.records, w.store.index[k], k);
    }
  }

  lemma PutSettledIff(w: World, call: nat, now: int)
    requires Inv(w) && Settled(w) && call in w.pending && w.pending[call].ToPut?
    ensures Settled(Step(w, PutStep(call, now))) <==> !Overwrites(w, PutStep(call, now))
    ensures Overwrites(w, PutStep(call, now)) ==> !Consistent(Step(w, PutStep(call, now)).answers)
  {
    var p := w.pending[call];
    StepKeepsInv(w, PutStep(call, now));
    IndexedPutMeans(w.store, RecordFor(p.spec, p.id, now));
    if !Clashes(w.store.records, RecordFor(p.spec, p.id, now)) {
      WriteSettledIff(w, p.spec, p.id, now, Step(w, PutStep(call, now)));
    }
  }

  lemma WriteSettledIff(w: World, spec: Spec, id: string, now: int, next: World)
    requires Inv(w) && Settled(w) && Inv(next)
    requires next.store.records == w.store.records[id := RecordFor(spec, id, now)]
    requires next.answers == w.answers + {(spec, id)}
    requires KeyOf(spec) in w.store.index ==> w.store.index[KeyOf(spec)] == id
    ensures var k := KeyOf(spec);
            var bad := id in w.store.records && !SameIdentity(SpecOf(w.store.records[id]), spec) && k !in w.store.index;
            (Settled(next) <==> !bad) && (bad ==> !Consistent(next.answers))
  {
    var k := KeyOf(spec);
    KeysAreIdentities();
    assert k in RecordFor(spec, id, now).keys && Holds(next.store.records, id, k);
    if id in w.store.records && KeyOf(SpecOf(w.store.records[id])) != k && k !in w.store.index {
      var earlier := (SpecOf(w.store.records[id]), id);
      assert earlier in next.answers && (spec, id) in next.answers;
      LostKey(next, KeyOf(earlier.0), id);
    } else {
      assert k in w.store.index ==> Holds(w.store.records, id, k);
      forall a | a in w.answers ensures KeyOf(a.0) in next.store.index && next.store.index[KeyOf(a.0)] == a.1 {
        assert Holds(w.store.records, a.1, KeyOf(a.0));
        assert Holds(next.store.records, a.1, KeyOf(a.0));
      }
    }
  }

  lemma LostKey(next: World, k: IdentityKey, id: string)
    requires Inv(next) && id in next.store.records && k !in next.store.records[id].keys
    ensures !(k in next.store.index && next.store.index[k] == id)
  {
    if k in next.store.index {
      assert Holds(next.store.records, next.store.index[k], k);
    }
  }

  /** No identity got two ids, and no id went to two identities. */
  ghost predicate Consistent(answers: set<(Spec, string)>)
  {
    forall a, b :: a in answers && b in answers ==> (SameIdentity(a.0, b.0) <==> a.1 == b.1)
  }

  lemma SettledIsConsistent(w: World)
    requires Inv(w) && Settled(w)
    ensures Consistent(w.answers)
  {
    KeysAreIdentities();
    forall a, b | a in w.answers && b in w.answers && a.1 == b.1 ensures SameIdentity(a.0, b.0) {
      assert Holds(w.store.records, a.1, KeyOf(a.0)) && Holds(w.store.records, b.1, KeyOf(b.0));
    }
  }

  ghost predicate NoOverwrite(w: World, acts: seq<Act>)
    decreases |acts|
  {
    acts == [] || (!Overwrites(w, acts[0]) && NoOverwrite(Step(w, acts[0]), acts[1..]))
  }

  lemma {:induction false} AnswersStay(w: World, acts: seq<Act>)
    requires Inv(w)
    ensures Inv(Run(w, acts)) && w.answers <= Run(w, acts).answers
    decreases |acts|
  {
    if acts != [] {
      StepKeepsInv(w, acts[0]);
      AnswersStay(Step(w, acts[0]), acts[1..]);
    }
  }

  lemma {:induction false} ConsistentFrom(w: World, acts: seq<Act>)
    requires Inv(w) && Settled(w)
    ensures Consistent(Run(w, acts).answers) <==> NoOverwrite(w, acts)
    decreases |acts|
  {
    if acts == [] {
      SettledIsConsistent(w);
    } else {
      StepKeepsInv(w, acts[0]);
      StepSettledIff(w, acts[0]);
      if Overwrites(w, acts[0]) {
        AnswersStay(Step(w, acts[0]), acts[1..]);
      } else {
        ConsistentFrom(Step(w, acts[0]), acts[1..]);
      }
    }
  }

  /**
   Over every interleaving of calls: a resolved id never changes and is never
   shared by two identities exactly when no write replaces another identity's
   record.
   */
  lemma ConsistentIff(acts: seq<Act>)
    ensures Consistent(Run(Start(), acts).answers) <==> NoOverwrite(Start(), acts)
  {
    ConsistentFrom(Start(), acts);
  }

  // ---- Calls that share no id ----

  /** Every id that a call brings along, explicit or minted, belongs to one identity. */
  ghost predicate Owns(owner: string -> Spec, acts: seq<Act>)
  {
    forall i :: 0 <= i < |acts| && acts[i].Begin? ==>
      SameIdentity(owner(if acts[i].explicit.Some? then acts[i].explicit.value else acts[i].minted), acts[i].spec)
  }

  ghost predicate Owned(owner: string -> Spec, w: World)
  {
    && (forall id :: id in w.store.records ==> SameIdentity(owner(id), SpecOf(w.store.records[id])))
    && (forall c :: c in w.pending ==> SameIdentity(owner(Brings(w.pending[c])), w.pending[c].spec))
  }

  function Brings(p: Pending): string
  {
    if p.ToPut? then p.id else if p.explicit.Some? then p.explicit.value else p.minted
  }

  lemma OwnedStep(owner: string -> Spec, w: World, act: Act)
    requires Owned(owner, w) && Owns(owner, [act])
    ensures Owned(owner, Step(w, act))
  {
    assert [act][0] == act;
    if act.PutStep? {
      OwnedPut(owner, w, act.call, act.now);
    }
  }

  lemma OwnedPut(owner: string -> Spec, w: World, call: nat, now: int)
    requires Owned(owner, w)
    ensures Owned(owner, Step(w, PutStep(call, now)))
  {
    if call in w.pending && w.pending[call].ToPut? {
      PutRecords(w.store, RecordFor(w.pending[call].spec, w.pending[call].id, now));
    }
  }

  lemma PutRecords(s: Indexed, record: Record)
    ensures IndexedPut(s, record).0.records ==
            s.records || IndexedPut(s, record).0.records == s.records[record.id := record]
  {
  }

  lemma {:induction false} OwnedCallsNeverOverwrite(owner: string -> Spec, w: World, acts: seq<Act>)
    requires Owned(owner, w) && Owns(owner, acts)
    ensures NoOverwrite(w, acts)
    decreases |acts|
  {
    if acts != [] {
      OwnedStep(owner, w, acts[0]);
      OwnedCallsNeverOverwrite(owner, Step(w, acts[0]), acts[1..]);
    }
  }

  /** Concurrent calls are consistent whenever no two identities bring the same id. */
  lemma UnsharedIdsAreConsistent(owner: string -> Spec, acts: seq<Act>)
    requires Owns(owner, acts)
    ensures Consistent(Run(Start(), acts).answers)
  {
    OwnedCallsNeverOverwrite(owner, Start(), acts);
    ConsistentIff(acts);
  }

  // ---- Calls one after another ----

  datatype Request = Request(spec: Spec, explicit: Option<string>, minted: string, now: int)

  function Calls(requests: seq<Request>): seq<Act>
  {
    if requests == [] then []
    else Call(0, requests[0].spec, requests[0].explicit, requests[0].minted, requests[0].now) + Calls(requests[1..])
  }

  /** The call will mint an id, and that id is in use. */
  predicate MintsUsed(s: Indexed, q: Request)
  {
    q.explicit.None? && KeyOf(q.spec) !in s.index && q.minted in s.records
  }

  ghost predicate FreshMints(w: World, requests: seq<Request>)
    decreases |requests|
  {
    requests == [] ||
    (!MintsUsed(w.store, requests[0]) &&
     FreshMints(Run(w, Calls(requests[..1])), requests[1..]))
  }

  lemma {:induction false} RunConcat(w: World, a: seq<Act>, b: seq<Act>)
    ensures Run(w, a + b) == Run(Run(w, a), b)
    ensures NoOverwrite(w, a + b) <==> NoOverwrite(w, a) && NoOverwrite(Run(w, a), b)
    decreases |a|
  {
    if a == [] {
      assert a + b == b;
    } else {
      assert (a + b)[0] == a[0] && (a + b)[1..] == a[1..] + b;
      RunConcat(Step(w, a[0]), a[1..], b);
    }
  }

  lemma OneCall(w: World, q: Request)
    requires Inv(w) && w.pending == map[]
    ensures var acts := Call(0, q.spec, q.explicit, q.minted, q.now);
            (NoOverwrite(w, acts) <==> !MintsUsed(w.store, q)) && Run(w, acts).pending == map[] && Inv(Run(w, acts))
  {
    var acts := Call(0, q.spec, q.explicit, q.minted, q.now);
    RunCall(w, 0, q.spec, q.explicit, q.minted, q.now);
    AnswersStay(w, acts);
    OnlyPutsOverwrite(w, acts);
    BeforeThePut(w, q);
    var w2 := Step(Step(w, acts[0]), acts[1]);
    if w2.pending == map[] {
      assert Step(w2, acts[2]) == w2;
    } else {
      assert Step(w2, acts[2]).pending == map[];
    }
  }

  lemma OnlyPutsOverwrite(w: World, acts: seq<Act>)
    requires |acts| == 3 && !acts[0].PutStep? && !acts[1].PutStep?
    ensures NoOverwrite(w, acts) <==> !Overwrites(Step(Step(w, acts[0]), acts[1]), acts[2])
  {
    var w1 := Step(w, acts[0]);
    var w2 := Step(w1, acts[1]);
    assert acts[1..][0] == acts[1] && acts[1..][1..][0] == acts[2] && acts[1..][1..][1..] == [];
    assert NoOverwrite(w1, acts[1..]) <==> NoOverwrite(w2, acts[1..][1..]);
    assert NoOverwrite(w2, acts[1..][1..]) <==> !Overwrites(w2, acts[2]);
  }

  /** An undisturbed call is about to write, over a record in use only if it minted that record's id. */
  lemma BeforeThePut(w: World, q: Request)
    requires Inv(w) && w.pending == map[]
    ensures var w2 := Step(Step(w, Begin(0, q.spec, q.explicit, q.minted)), FindStep(0));
            && (w2.pending == map[] || exists id :: w2.pending == map[0 := ToPut(q.spec, id)])
            && (Overwrites(w2, PutStep(0, q.now)) <==> MintsUsed(w.store, q))
  {
    var k := KeyOf(q.spec);
    KeysAreIdentities();
    assert k in w.store.index ==> Holds(w.store.records, w.store.index[k], k);
    if q.minted in w.store.records {
      assert Holds(w.store.records, q.minted, KeyOf(SpecOf(w.store.records[q.minted])));
    }
    var w1 := Step(w, Begin(0, q.spec, q.explicit, q.minted));
    if w1.pending != map[] {
      assert w1 == w.(pending := map[0 := ToFind(q.spec, q.explicit, q.minted)]);
      var w2 := Step(w1, FindStep(0));
      if w2.pending != map[] {
        var id := if q.explicit.Some? then q.explicit.value else q.minted;
        assert w2.pending == map[0 := ToPut(q.spec, id)];
      }
    }
  }

  lemma {:induction false} SequentialFrom(w: World, requests: seq<Request>)
    requires Inv(w) && w.pending == map[]
    ensures NoOverwrite(w, Calls(requests)) <==> FreshMints(w, requests)
    decreases |requests|
  {
    if requests != [] {
      var q := requests[0];
      var acts := Call(0, q.spec, q.explicit, q.minted, q.now);
      OneCall(w, q);
      assert requests[..1] == [q] && Calls([q]) == acts + [] == acts;
      RunConcat(w, acts, Calls(requests[1..]));
      SequentialFrom(Run(w, acts), requests[1..]);
    }
  }

  /** Calls made one after another are consistent exactly when no call mints an id that is in use. */
  lemma SequentialConsistentIff(requests: seq<Request>)
    ensures Consistent(Run(Start(), Calls(requests)).answers) <==> FreshMints(Start(), requests)
  {
    SequentialFrom(Start(), requests);
    ConsistentIff(Calls(requests));
  }

  /** The record of the identity, if there is one. */
  ghost predicate Registered(s: Indexed, spec: Spec, id: string)
  {
    id in s.records && SameIdentity(SpecOf(s.records[id]), spec)
  }

  ghost predicate OwnKeys(s: Indexed)
  {
    forall id :: id in s.records ==> s.records[id].keys == [KeyOf(SpecOf(s.records[id]))]
  }

  lemma RegisteredIsIndexed(s: Indexed, spec: Spec)
    requires Inverse(s) && OwnKeys(s)
    ensures KeyOf(spec) in s.index <==> exists id :: Registered(s, spec, id)
    ensures forall id :: Registered(s, spec, id) ==>
              IndexedFind(s, KeyOf(spec)) == Some(s.records[id]) && s.records[id].id == id
  {
    KeysAreIdentities();
    var k := KeyOf(spec);
    if k in s.index {
      assert Holds(s.records, s.index[k], k);
      assert Registered(s, spec, s.index[k]);
    }
    forall id | Registered(s, spec, id) ensures k in s.index && s.index[k] == id {
      assert Holds(s.records, id, k);
    }
  }

  /**
   What an undisturbed call answers: the id on record for its identity, or the
   explicit or new id, now on record for it; an explicit id is refused when it
   belongs to another spec or the identity has another id.
   */
  lemma CallMeans(s: Indexed, q: Request)
    requires Inverse(s) && OwnKeys(s)
    ensures var w := Run(World(s, map[], {}), Call(0, q.spec, q.explicit, q.minted, q.now));
            if q.explicit.Some? && q.explicit.value in s.records then
              && w.store == s
              && w.answers == if SpecOf(s.records[q.explicit.value]) == q.spec then {(q.spec, q.explicit.value)} else {}
            else if exists id :: Registered(s, q.spec, id) then
              && w.store == s
              && (q.explicit.Some? ==> w.answers == {})
              && (q.explicit.None? ==> forall id :: Registered(s, q.spec, id) ==> w.answers == {(q.spec, id)})
            else
              && w.store.records == s.records[Offer(q) := RecordFor(q.spec, Offer(q), q.now)]
              && w.answers == {(q.spec, Offer(q))}
  {
    var w := World(s, map[], {});
    RunCall(w, 0, q.spec, q.explicit, q.minted, q.now);
    RegisteredIsIndexed(s, q.spec);
    if !(q.explicit.Some? && q.explicit.value in s.records) {
      var w1 := Step(w, Begin(0, q.spec, q.explicit, q.minted));
      assert w1 == w.(pending := map[0 := ToFind(q.spec, q.explicit, q.minted)]);
      if KeyOf(q.spec) in s.index {
        var id :| Registered(s, q.spec, id);
        assert IndexedFind(s, KeyOf(q.spec)) == Some(s.records[id]);
      } else {
        CallWrites(w, w1, q);
      }
    }
  }

  lemma CallWrites(w: World, w1: World, q: Request)
    requires w1 == w.(pending := map[0 := ToFind(q.spec, q.explicit, q.minted)]) && KeyOf(q.spec) !in w.store.index
    ensures var w' := Step(Step(w1, FindStep(0)), PutStep(0, q.now));
            && w'.store.records == w.store.records[Offer(q) := RecordFor(q.spec, Offer(q), q.now)]
            && w'.answers == w.answers + {(q.spec, Offer(q))}
  {
    var w2, record := Step(w1, FindStep(0)), RecordFor(q.spec, Offer(q), q.now);
    assert w2 == w.(pending := map[0 := ToPut(q.spec, Offer(q))]);
    assert record.keys == [KeyOf(q.spec)] && record.keys[1..] == [];
    assert Taken(w.store.index, record.keys, record.id) == Taken(w.store.index, record.keys[1..], record.id) == None;
  }

  // ---- Every interleaving of given calls ----

  /** The id a request would have written under. */
  function Offer(q: Request): string { if q.explicit.Some? then q.explicit.value else q.minted }

  function BeginOf(requests: seq<Request>, i: nat): Act
    requires i < |requests|
  {
    Begin(i, requests[i].spec, requests[i].explicit, requests[i].minted)
  }

  /** An interleaving of the requests: each begins at most once, under its own number. */
  ghost predicate Interleaves(acts: seq<Act>, requests: seq<Request>)
  {
    && (forall k :: 0 <= k < |acts| && acts[k].Begin? ==>
          acts[k].call < |requests| && acts[k] == BeginOf(requests, acts[k].call))
    && (forall k, l :: 0 <= k < l < |acts| && acts[k].Begin? && acts[l].Begin? ==> acts[k].call != acts[l].call)
  }

  /** Requests for different identities bring different ids. */
  ghost predicate OffersApart(requests: seq<Request>)
  {
    forall i, j :: 0 <= i < |requests| && 0 <= j < |requests| && Offer(requests[i]) == Offer(requests[j]) ==>
      SameIdentity(requests[i].spec, requests[j].spec)
  }

  /** The identity of the first request that brings the id. */
  function OwnerOf(requests: seq<Request>, id: string): Spec
  {
    if requests == [] then Spec("", None)
    else if Offer(requests[0]) == id then requests[0].spec
    else OwnerOf(requests[1..], id)
  }

  lemma {:induction false} OwnerOfOffer(requests: seq<Request>, i: nat)
    requires i < |requests| && OffersApart(requests)
    ensures SameIdentity(OwnerOf(requests, Offer(requests[i])), requests[i].spec)
  {
    if Offer(requests[0]) != Offer(requests[i]) {
      OwnerOfOffer(requests[1..], i - 1);
    }
  }

  lemma ApartIsConsistent(requests: seq<Request>, acts: seq<Act>)
    requires OffersApart(requests) && Interleaves(acts, requests)
    ensures Consistent(Run(Start(), acts).answers)
  {
    var owner := (id: string) => OwnerOf(requests, id);
    forall k | 0 <= k < |acts| && acts[k].Begin?
      ensures SameIdentity(owner(if acts[k].explicit.Some? then acts[k].explicit.value else acts[k].minted),
                           acts[k].spec)
    {
      OwnerOfOffer(requests, acts[k].call);
    }
    UnsharedIdsAreConsistent(owner, acts);
  }

  // ---- The race ----

  /** Both calls look before either writes. */
  function Race(requests: seq<Request>, i: nat, j: nat): seq<Act>
    requires i < |requests| && j < |requests|
  {
    [BeginOf(requests, i), BeginOf(requests, j)] + ([FindStep(i), FindStep(j)] + [PutStep(i, 0), PutStep(j, 0)])
  }

  lemma RunTwo(w: World, a: Act, b: Act)
    ensures Run(w, [a, b]) == Step(Step(w, a), b)
  {
    assert [a, b][1..] == [b] && [b][1..] == [];
    assert Run(Step(w, a), [b]) == Step(Step(w, a), b);
  }

  lemma RaceLooks(a: Request, b: Request, i: nat, j: nat) returns (w: World)
    requires i != j
    ensures w == Step(Step(Step(Step(Start(), Begin(i, a.spec, a.explicit, a.minted)),
                                   Begin(j, b.spec, b.explicit, b.minted)),
                           FindStep(i)), FindStep(j))
    ensures w == World(Indexed(map[], map[]), map[i := ToPut(a.spec, Offer(a)), j := ToPut(b.spec, Offer(b))], {})
  {
    var w1 := Step(Start(), Begin(i, a.spec, a.explicit, a.minted));
    assert w1.pending == map[i := ToFind(a.spec, a.explicit, a.minted)];
    var w2 := Step(w1, Begin(j, b.spec, b.explicit, b.minted));
    var w3 := Step(w2, FindStep(i));
    assert w3.pending == map[i := ToPut(a.spec, Offer(a)), j := ToFind(b.spec, b.explicit, b.minted)];
    w := Step(w3, FindStep(j));
  }

  /** Two calls that bring one id for two identities both return it, and the first identity loses its record. */
  lemma RaceEnds(a: Spec, b: Spec, id: string, i: nat, j: nat, w: World)
    requires i != j && KeyOf(a) != KeyOf(b)
    requires w == World(Indexed(map[], map[]), map[i := ToPut(a, id), j := ToPut(b, id)], {})
    ensures var end := Step(Step(w, PutStep(i, 0)), PutStep(j, 0));
            && end.answers == {(a, id), (b, id)}
            && KeyOf(a) !in end.store.index && end.store.records == map[id := RecordFor(b, id, 0)]
  {
    FirstPut(a, id);
    SecondPut(a, b, id);
    var w1 := Step(w, PutStep(i, 0));
    assert w1 == World(Indexed(map[id := RecordFor(a, id, 0)], map[KeyOf(a) := id]),
                       map[j := ToPut(b, id)], {(a, id)});
  }

  lemma FirstPut(spec: Spec, id: string)
    ensures IndexedPut(Indexed(map[], map[]), RecordFor(spec, id, 0)) ==
            (Indexed(map[id := RecordFor(spec, id, 0)], map[KeyOf(spec) := id]), Done)
  {
    var keys := RecordFor(spec, id, 0).keys;
    assert keys[1..] == [] && Listed(keys) == {KeyOf(spec)};
    var none: map<IdentityKey, string> := map[];
    assert Taken(none, keys, id) == Taken(none, keys[1..], id) == None;
    assert With(Without(map[], []), keys, id) == map[KeyOf(spec) := id];
  }

  lemma SecondPut(a: Spec, b: Spec, id: string)
    requires KeyOf(a) != KeyOf(b)
    ensures IndexedPut(Indexed(map[id := RecordFor(a, id, 0)], map[KeyOf(a) := id]), RecordFor(b, id, 0)) ==
            (Indexed(map[id := RecordFor(b, id, 0)], map[KeyOf(b) := id]), Done)
  {
    var s := Indexed(map[id := RecordFor(a, id, 0)], map[KeyOf(a) := id]);
    var keys := RecordFor(b, id, 0).keys;
    assert keys[1..] == [] && Listed(keys) == {KeyOf(b)};
    assert Taken(s.index, keys, id) == Taken(s.index, keys[1..], id) == None;
    assert Without(s.index, PreviousKeys(s.records, id)) == map[];
    assert With(map[], keys, id) == map[KeyOf(b) := id];
    assert s.records[id := RecordFor(b, id, 0)] == map[id := RecordFor(b, id, 0)];
  }

  /** In the race of any two requests that bring one id for two identities, both calls succeed with it. */
  lemma RaceCollides(requests: seq<Request>, i: nat, j: nat)
    requires i < |requests| && j < |requests| && Offer(requests[i]) == Offer(requests[j])
    requires !SameIdentity(requests[i].spec, requests[j].spec)
    ensures var w := Run(Start(), Race(requests, i, j)); var id := Offer(requests[i]);
            && Interleaves(Race(requests, i, j), requests)
            && (requests[i].spec, id) in w.answers && (requests[j].spec, id) in w.answers
            && KeyOf(requests[i].spec) !in w.store.index && !Consistent(w.answers)
  {
    var a, b := requests[i], requests[j];
    KeysAreIdentities();
    var begins := [BeginOf(requests, i), BeginOf(requests, j)];
    var finds, puts := [FindStep(i), FindStep(j)], [PutStep(i, 0), PutStep(j, 0)];
    RunConcat(Start(), begins, finds + puts);
    RunTwo(Start(), begins[0], begins[1]);
    RunConcat(Run(Start(), begins), finds, puts);
    RunTwo(Run(Start(), begins), finds[0], finds[1]);
    var w := RaceLooks(a, b, i, j);
    RunTwo(w, puts[0], puts[1]);
    RaceEnds(a.spec, b.spec, Offer(a), i, j, w);
  }

  /** Every interleaving of the requests is consistent exactly when no two identities bring the same id. */
  lemma EveryInterleavingConsistentIff(requests: seq<Request>)
    ensures (forall acts :: Interleaves(acts, requests) ==> Consistent(Run(Start(), acts).answers)) <==>
            OffersApart(requests)
  {
    if OffersApart(requests) {
      forall acts | Interleaves(acts, requests) ensures Consistent(Run(Start(), acts).answers) {
        ApartIsConsistent(requests, acts);
      }
    } else {
      var i, j :| 0 <= i < |requests| && 0 <= j < |requests| && Offer(requests[i]) == Offer(requests[j])
                  && !SameIdentity(requests[i].spec, requests[j].spec);
      RaceCollides(requests, i, j);
    }
  }
}
