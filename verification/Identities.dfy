/**
 The two resource-identity stores: one keeps a reverse index
 (`persistence/mod.rs`), the other scans its table (`persistence/redb.rs`).
 They give the same answers to every sequence of operations.
 */
module Identities {
  import opened Wrappers

  datatype IdentityKey = IdentityKey(namespace: string, kind: string, key: string)

  datatype Record = Record(
    id: string,
    kind: string,
    name: Option<string>,
    keys: seq<IdentityKey>,
    labels: map<string, string>,
    createdMs: int,
    updatedMs: int)

  type Table = map<string, Record>

  /** The memory store's state: the records and the reverse index from key to id. */
  datatype Indexed = Indexed(records: Table, index: map<IdentityKey, string>)

  /** A refused `put` names an id that holds one of the keys. */
  datatype Answer = Done | Conflict(holder: string) | Found(record: Option<Record>)

  // ---- What the operations mean ----

  /** Some other record holds one of the keys. */
  ghost predicate Clashes(records: Table, record: Record)
  {
    exists id, k :: Holds(records, id, k) && id != record.id && k in record.keys
  }

  predicate Holds(records: Table, id: string, k: IdentityKey) { id in records && k in records[id].keys }

  /** Key-to-id and id-to-keys are mutually inverse, and records sit under their own id. */
  ghost predicate Inverse(s: Indexed)
  {
    && (forall id :: id in s.records ==> s.records[id].id == id)
    && (forall id, k :: Holds(s.records, id, k) ==> k in s.index && s.index[k] == id)
    && (forall k :: k in s.index ==> Holds(s.records, s.index[k], k))
  }

  // ---- The indexed store ----

  /** The first key of the list that the index gives to another id. */
  function Taken(index: map<IdentityKey, string>, keys: seq<IdentityKey>, id: string): Option<string>
  {
    if keys == [] then None
    else if keys[0] in index && index[keys[0]] != id then Some(index[keys[0]])
    else Taken(index, keys[1..], id)
  }

  function Without(index: map<IdentityKey, string>, keys: seq<IdentityKey>): map<IdentityKey, string>
  {
    map k | k in index && k !in keys :: index[k]
  }

  function With(index: map<IdentityKey, string>, keys: seq<IdentityKey>, id: string): map<IdentityKey, string>
  {
    map k | k in index.Keys + Listed(keys) :: if k in Listed(keys) then id else index[k]
  }

  function Listed(keys: seq<IdentityKey>): set<IdentityKey> { set k | k in keys }

  function PreviousKeys(records: Table, id: string): seq<IdentityKey>
  {
    if id in records then records[id].keys else []
  }

  function IndexedPut(s: Indexed, record: Record): (Indexed, Answer)
  {
    match Taken(s.index, record.keys, record.id)
    case Some(holder) => (s, Conflict(holder))
    case None =>
      var freed := Without(s.index, PreviousKeys(s.records, record.id));
      (Indexed(s.records[record.id := record], With(freed, record.keys, record.id)), Done)
  }

  function IndexedFind(s: Indexed, k: IdentityKey): Option<Record>
  {
    if k in s.index && s.index[k] in s.records then Some(s.records[s.index[k]]) else None
  }

  class IndexedStore {
    var records: Table
    var index: map<IdentityKey, string>

    constructor ()
      ensures State() == Indexed(map[], map[])
    {
      records, index := map[], map[];
    }

    ghost function State(): Indexed
      reads this
    {
      Indexed(records, index)
    }

    method Get(id: string) returns (r: Option<Record>)
      ensures r == if id in records then Some(records[id]) else None
    {
      r := if id in records then Some(records[id]) else None;
    }

    method Put(record: Record) returns (r: Answer)
      modifies this
      ensures (State(), r) == IndexedPut(old(State()), record)
    {
      var holder := HolderOf(record.keys, record.id);
      if holder.Some? {
        return Conflict(holder.value);
      }
      if record.id in records {
        RemoveKeys(records[record.id].keys);
      } else {
        assert index == Without(index, []);
      }
      InsertKeys(record.keys, record.id);
      records := records[record.id := record];
      r := Done;
    }

    method HolderOf(keys: seq<IdentityKey>, id: string) returns (holder: Option<string>)
      ensures holder == Taken(index, keys, id)
    {
      for i := 0 to |keys|
        invariant Taken(index, keys, id) == Taken(index, keys[i..], id)
      {
        assert keys[i..][1..] == keys[i + 1..];
        if keys[i] in index && index[keys[i]] != id {
          return Some(index[keys[i]]);
        }
      }
      holder := None;
    }

    method RemoveKeys(keys: seq<IdentityKey>)
      modifies this`index
      ensures index == Without(old(index), keys)
    {
      for i := 0 to |keys|
        invariant index == Without(old(index), keys[..i])
      {
        index := index - {keys[i]};
        assert keys[..i + 1] == keys[..i] + [keys[i]];
      }
      assert keys[..|keys|] == keys;
    }

    method InsertKeys(keys: seq<IdentityKey>, id: string)
      modifies this`index
      ensures index == With(old(index), keys, id)
    {
      for i := 0 to |keys|
        invariant index == With(old(index), keys[..i], id)
      {
        assert keys[..i + 1] == keys[..i] + [keys[i]];
        index := index[keys[i] := id];
      }
      assert keys[..|keys|] == keys;
    }

    method FindByIdentityKey(k: IdentityKey) returns (r: Option<Record>)
      ensures r == IndexedFind(State(), k)
    {
      if k !in index {
        return None;
      }
      r := if index[k] in records then Some(records[index[k]]) else None;
    }
  }

  // ---- The scanning store ----

  predicate Overlap(left: seq<IdentityKey>, right: seq<IdentityKey>)
  {
    exists k :: k in left && k in right
  }

  /** An order in which the table may be scanned: every id once. */
  ghost predicate ScanOrder(records: Table, order: seq<string>)
  {
    && (forall i :: 0 <= i < |order| ==> order[i] in records)
    && (forall id :: id in records ==> id in order)
  }

  /** The first scanned record of another id that shares a key. */
  function ScanTaken(records: Table, order: seq<string>, record: Record): Option<string>
    requires forall i :: 0 <= i < |order| ==> order[i] in records
  {
    if order == [] then None
    else if records[order[0]].id != record.id && Overlap(records[order[0]].keys, record.keys) then
      Some(records[order[0]].id)
    else ScanTaken(records, order[1..], record)
  }

  function ScanFind(records: Table, order: seq<string>, k: IdentityKey): Option<Record>
    requires forall i :: 0 <= i < |order| ==> order[i] in records
  {
    if order == [] then None
    else if k in records[order[0]].keys then Some(records[order[0]])
    else ScanFind(records, order[1..], k)
  }

  function ScanPut(records: Table, order: seq<string>, record: Record): (Table, Answer)
    requires forall i :: 0 <= i < |order| ==> order[i] in records
  {
    match ScanTaken(records, order, record)
    case Some(holder) => (records, Conflict(holder))
    case None => (records[record.id := record], Done)
  }

  class ScanStore {
    var records: Table

    constructor ()
      ensures records == map[]
    {
      records := map[];
    }

    method Get(id: string) returns (r: Option<Record>)
      ensures r == if id in records then Some(records[id]) else None
    {
      r := if id in records then Some(records[id]) else None;
    }

    method Put(record: Record, order: seq<string>) returns (r: Answer)
      requires ScanOrder(records, order)
      modifies this
      ensures (records, r) == ScanPut(old(records), order, record)
    {
      for i := 0 to |order|
        invariant records == old(records)
        invariant ScanTaken(records, order, record) == ScanTaken(records, order[i..], record)
      {
        assert order[i..][1..] == order[i + 1..];
        var existing := records[order[i]];
        if existing.id == record.id {
          continue;
        }
        if Overlap(existing.keys, record.keys) {
          return Conflict(existing.id);
        }
      }
      records := records[record.id := record];
      r := Done;
    }

    method FindByIdentityKey(k: IdentityKey, order: seq<string>) returns (r: Option<Record>)
      requires ScanOrder(records, order)
      ensures r == ScanFind(records, order, k)
    {
      for i := 0 to |order|
        invariant ScanFind(records, order, k) == ScanFind(records, order[i..], k)
      {
        assert order[i..][1..] == order[i + 1..];
        if k in records[order[i]].keys {
          return Some(records[order[i]]);
        }
      }
      r := None;
    }
  }

  // ---- Each operation ----

  /** The index refuses exactly the puts that clash. */
  lemma {:induction false} TakenIff(s: Indexed, keys: seq<IdentityKey>, id: string)
    requires Inverse(s)
    ensures var t := Taken(s.index, keys, id);
            && (t.None? <==> forall k :: k in keys && k in s.index ==> s.index[k] == id)
            && (t.Some? ==> t.value != id && exists k :: k in keys && Holds(s.records, t.value, k))
  {
    if keys != [] {
      TakenIff(s, keys[1..], id);
      var t := Taken(s.index, keys[1..], id);
      forall k | k in keys ensures k == keys[0] || k in keys[1..] {}
      if t.Some? {
        var k :| k in keys[1..] && Holds(s.records, t.value, k);
        assert k in keys;
      }
      if keys[0] in s.index { assert keys[0] in keys && Holds(s.records, s.index[keys[0]], keys[0]); }
    }
  }

  /**
   The indexed `put` refuses exactly the clashing records, otherwise replaces one record,
   and keeps the index inverse.
   */
  lemma IndexedPutMeans(s: Indexed, record: Record)
    requires Inverse(s)
    ensures var (next, answer) := IndexedPut(s, record);
            && Inverse(next)
            && (Clashes(s.records, record) ==> next == s && answer.Conflict? && answer.holder != record.id
                                               && exists k :: k in record.keys && Holds(s.records, answer.holder, k))
            && (!Clashes(s.records, record) ==> next.records == s.records[record.id := record] && answer == Done)
  {
    TakenIff(s, record.keys, record.id);
    if Taken(s.index, record.keys, record.id).None? {
      IndexedPutKeepsInverse(s, record);
    } else {
      var holder := Taken(s.index, record.keys, record.id).value;
      var k :| k in record.keys && Holds(s.records, holder, k);
      assert Clashes(s.records, record);
    }
  }

  lemma IndexedPutKeepsInverse(s: Indexed, record: Record)
    requires Inverse(s) && forall k :: k in record.keys && k in s.index ==> s.index[k] == record.id
    ensures Inverse(Indexed(s.records[record.id := record],
                            With(Without(s.index, PreviousKeys(s.records, record.id)), record.keys, record.id)))
  {
    var freed := Without(s.index, PreviousKeys(s.records, record.id));
    var next := Indexed(s.records[record.id := record], With(freed, record.keys, record.id));
    forall id, k | Holds(next.records, id, k) ensures k in next.index && next.index[k] == id {
      if id != record.id {
        assert Holds(s.records, id, k);
        assert k !in PreviousKeys(s.records, record.id) by {
          if k in PreviousKeys(s.records, record.id) { assert Holds(s.records, record.id, k); }
        }
      }
    }
    forall k | k in next.index ensures Holds(next.records, next.index[k], k) {
      if k !in record.keys {
        assert Holds(s.records, s.index[k], k);
      }
    }
  }

  /** The scan refuses exactly the clashing records, whatever the order. */
  lemma {:induction false} ScanTakenIff(records: Table, order: seq<string>, record: Record)
    requires forall i :: 0 <= i < |order| ==> order[i] in records
    requires forall id :: id in records ==> records[id].id == id
    ensures var t := ScanTaken(records, order, record);
            && (t.None? <==>
                  forall id, k :: id in order && Holds(records, id, k) && k in record.keys ==> id == record.id)
            && (t.Some? ==> t.value != record.id && exists k :: k in record.keys && Holds(records, t.value, k))
  {
    if order != [] {
      ScanTakenIff(records, order[1..], record);
      forall id | id in order ensures id == order[0] || id in order[1..] {}
      var first := order[0];
      if records[first].id != record.id && Overlap(records[first].keys, record.keys) {
        var k :| k in records[first].keys && k in record.keys;
        assert Holds(records, first, k) && first in order;
      } else {
        forall k | Holds(records, first, k) && k in record.keys ensures first == record.id {
          assert first != record.id ==> Overlap(records[first].keys, record.keys);
        }
        forall id | id in order[1..] ensures id in order {}
      }
    }
  }

  lemma ScanPutMeans(records: Table, order: seq<string>, record: Record)
    requires ScanOrder(records, order) && forall id :: id in records ==> records[id].id == id
    ensures var (next, answer) := ScanPut(records, order, record);
            && (Clashes(records, record) ==> next == records && answer.Conflict? && answer.holder != record.id
                                             && exists k :: k in record.keys && Holds(records, answer.holder, k))
            && (!Clashes(records, record) ==> next == records[record.id := record] && answer == Done)
  {
    ScanTakenIff(records, order, record);
    if Clashes(records, record) {
      var id, k :| Holds(records, id, k) && id != record.id && k in record.keys;
      assert id in order;
    }
  }

  /** The scan finds the record that the index names. */
  lemma {:induction false} ScanFindsIndexed(s: Indexed, order: seq<string>, k: IdentityKey)
    requires Inverse(s) && forall i :: 0 <= i < |order| ==> order[i] in s.records
    ensures ScanFind(s.records, order, k) ==
            if k in s.index && s.index[k] in order then Some(s.records[s.index[k]]) else None
  {
    if order != [] {
      ScanFindsIndexed(s, order[1..], k);
      assert k in s.records[order[0]].keys <==> Holds(s.records, order[0], k);
      assert k in s.index ==> Holds(s.records, s.index[k], k);
      forall id | id in order ensures id == order[0] || id in order[1..] {}
    }
  }

  // ---- Every sequence of operations ----

  datatype Op = Put(record: Record) | Get(id: string) | Find(key: IdentityKey)

  function IndexedStep(s: Indexed, op: Op): (Indexed, Answer)
  {
    match op
    case Put(record) => IndexedPut(s, record)
    case Get(id) => (s, Found(if id in s.records then Some(s.records[id]) else None))
    case Find(k) => (s, Found(IndexedFind(s, k)))
  }

  function ScanStep(records: Table, op: Op, order: seq<string>): (Table, Answer)
    requires forall i :: 0 <= i < |order| ==> order[i] in records
  {
    match op
    case Put(record) => ScanPut(records, order, record)
    case Get(id) => (records, Found(if id in records then Some(records[id]) else None))
    case Find(k) => (records, Found(ScanFind(records, order, k)))
  }

  /** Both stores answered alike; when a put clashes with several records they may name different holders. */
  predicate Alike(a: Answer, b: Answer) { a == b || (a.Conflict? && b.Conflict?) }

  lemma StepAgrees(s: Indexed, op: Op, order: seq<string>)
    requires Inverse(s) && ScanOrder(s.records, order)
    ensures var (next, a) := IndexedStep(s, op); var (table, b) := ScanStep(s.records, op, order);
            Inverse(next) && next.records == table && Alike(a, b)
  {
    match op
    case Put(record) =>
      IndexedPutMeans(s, record);
      ScanPutMeans(s.records, order, record);
    case Get(_) =>
    case Find(k) =>
      ScanFindsIndexed(s, order, k);
      assert k in s.index ==> Holds(s.records, s.index[k], k);
  }

  function IndexedRun(s: Indexed, ops: seq<Op>): (Indexed, seq<Answer>)
    decreases |ops|
  {
    if ops == [] then (s, [])
    else
      var (next, a) := IndexedStep(s, ops[0]);
      var (last, more) := IndexedRun(next, ops[1..]);
      (last, [a] + more)
  }

  /** Any orders in which the table could have been scanned, one per operation. */
  ghost predicate ScanRun(records: Table, ops: seq<Op>, orders: seq<seq<string>>, last: Table, answers: seq<Answer>)
    decreases |ops|
  {
    |orders| == |ops| == |answers| &&
    if ops == [] then last == records
    else ScanOrder(records, orders[0]) &&
         var (next, a) := ScanStep(records, ops[0], orders[0]);
         a == answers[0] && ScanRun(next, ops[1..], orders[1..], last, answers[1..])
  }

  /** The index refines the scan: the same records, the same answers, conflicts on the same puts. */
  lemma {:induction false} IndexRefinesScan(s: Indexed, ops: seq<Op>, orders: seq<seq<string>>, last: Table,
                                            answers: seq<Answer>)
    requires Inverse(s) && ScanRun(s.records, ops, orders, last, answers)
    ensures var (end, got) := IndexedRun(s, ops);
            && Inverse(end) && end.records == last && |got| == |answers|
            && forall i :: 0 <= i < |got| ==> Alike(got[i], answers[i])
    decreases |ops|
  {
    if ops != [] {
      StepAgrees(s, ops[0], orders[0]);
      IndexRefinesScan(IndexedStep(s, ops[0]).0, ops[1..], orders[1..], last, answers[1..]);
    }
  }
}
