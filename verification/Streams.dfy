/**
 Event ids, the per-stream sequencer with its reverse index, and the replay
 ring (`events/sequencer.rs`, `events/replay.rs`), with every interleaving of
 their separately locked steps.
 */
module Streams {
  import opened Wrappers
  import opened Envelopes

  // ---- Event ids ----

  function Digit(d: nat): char
    requires d < 10
  {
    '0' + d as char
  }

  function Decimal(n: nat): string
  {
    if n < 10 then [Digit(n)] else Decimal(n / 10) + [Digit(n % 10)]
  }

  function DecimalValue(s: string): int
  {
    if s == [] then 0 else DecimalValue(s[..|s| - 1]) * 10 + (s[|s| - 1] as int - '0' as int)
  }

  ghost predicate AllDigits(s: string) { forall i :: 0 <= i < |s| ==> '0' <= s[i] <= '9' }

  lemma {:induction false} DecimalRoundTrip(n: nat)
    ensures DecimalValue(Decimal(n)) == n && AllDigits(Decimal(n))
  {
    if n < 10 {
      assert DecimalValue([Digit(n)][..0]) == 0;
    } else {
      DecimalRoundTrip(n / 10);
      var s := Decimal(n / 10) + [Digit(n % 10)];
      assert s[..|s| - 1] == Decimal(n / 10);
    }
  }

  /** `{stream}-{sequence}` */
  function EventIdOf(stream: StreamId, sequence: nat): EventId { stream + "-" + Decimal(sequence) }

  lemma SplitAtLastDash(s: string, d: string, s': string, d': string)
    requires AllDigits(d) && AllDigits(d') && s + "-" + d == s' + "-" + d'
    ensures s == s' && d == d'
  {
    var id := s + "-" + d;
    assert id == s' + "-" + d';
    assert id[|s|] == '-' && id[|s'|] == '-';
    assert |s| == |s'|;
    assert s == id[..|s|] && s' == id[..|s'|];
    assert d == id[|s| + 1..] && d' == id[|s'| + 1..];
  }

  /** Event ids are globally unique, whatever dashes and digits the stream names contain. */
  lemma EventIdsAreInjective(s: StreamId, n: nat, s': StreamId, n': nat)
    requires EventIdOf(s, n) == EventIdOf(s', n')
    ensures s == s' && n == n'
  {
    DecimalRoundTrip(n);
    DecimalRoundTrip(n');
    SplitAtLastDash(s, Decimal(n), s', Decimal(n'));
  }

  // ---- The ring ----

  function RingSize(capacity: nat): nat { if capacity == 0 then 1 else capacity }

  function Evicts(ring: seq<Envelope>, capacity: nat): Option<EventId>
  {
    if |ring| >= capacity && ring != [] then Some(ring[0].eventId) else None
  }

  function Recorded(ring: seq<Envelope>, capacity: nat, env: Envelope): seq<Envelope>
  {
    (if |ring| >= capacity && ring != [] then ring[1..] else ring) + [env]
  }

  function Suffix(log: seq<Envelope>, n: nat): seq<Envelope>
  {
    if |log| <= n then log else log[|log| - n..]
  }

  /** Recording keeps exactly the last `max(capacity, 1)` envelopes, and evicts the one that falls out. */
  lemma RecordKeepsSuffix(log: seq<Envelope>, capacity: nat, env: Envelope)
    ensures Recorded(Suffix(log, RingSize(capacity)), capacity, env) == Suffix(log + [env], RingSize(capacity))
  {
  }

  function Newer(ring: seq<Envelope>, after: nat): seq<Envelope>
  {
    if ring == [] then []
    else
      var rest := Newer(ring[..|ring| - 1], after);
      if ring[|ring| - 1].sequence > after then rest + [ring[|ring| - 1]] else rest
  }

  ghost predicate Ascending(envs: seq<Envelope>)
  {
    forall i, j :: 0 <= i < j < |envs| ==> envs[i].sequence < envs[j].sequence
  }

  /** `events_after` keeps order and returns exactly the retained envelopes above the bound. */
  lemma {:induction false} NewerIsFilter(ring: seq<Envelope>, after: nat)
    ensures forall e :: e in Newer(ring, after) <==> e in ring && e.sequence > after
    ensures Ascending(ring) ==> Ascending(Newer(ring, after))
  {
    if ring != [] {
      var init, last := ring[..|ring| - 1], ring[|ring| - 1];
      assert ring == init + [last];
      NewerIsFilter(init, after);
      if Ascending(ring) { LastIsLater(init, Newer(init, after), last); }
    }
  }

  /** A replay of two stretches is their replays in turn, and each envelope is replayed by its own sequence. */
  lemma {:induction false} NewerConcat(a: seq<Envelope>, b: seq<Envelope>, after: nat)
    ensures Newer(a + b, after) == Newer(a, after) + Newer(b, after)
    ensures |a| == 1 ==> Newer(a, after) == if a[0].sequence > after then a else []
    decreases |b|
  {
    if |a| == 1 { assert a[..0] == [] && a == [a[0]]; }
    if b == [] {
      assert a + b == a;
    } else {
      assert (a + b)[..|a + b| - 1] == a + b[..|b| - 1];
      NewerConcat(a, b[..|b| - 1], after);
    }
  }

  lemma LastIsLater(init: seq<Envelope>, kept: seq<Envelope>, last: Envelope)
    requires Ascending(init + [last]) && forall e :: e in kept ==> e in init
    ensures Ascending(init) && (Ascending(kept) ==> Ascending(kept + [last]))
  {
    assert forall i :: 0 <= i < |init| ==> (init + [last])[i] == init[i];
    forall i | 0 <= i < |kept| ensures kept[i].sequence < last.sequence {
      assert kept[i] in kept;
      var j :| 0 <= j < |init| && init[j] == kept[i];
      assert (init + [last])[|init|] == last;
    }
  }

  class StreamRegistry {
    var next: map<StreamId, nat>
    var byEvent: map<EventId, StreamId>

    constructor ()
      ensures next == map[] && byEvent == map[]
    {
      next, byEvent := map[], map[];
    }

    /** The atomic counter of a stream starts at one. */
    method Reserve(stream: StreamId) returns (sequence: nat)
      modifies this`next
      ensures sequence == if stream in old(next) then old(next)[stream] else 1
      ensures next == old(next)[stream := sequence + 1]
    {
      sequence := if stream in next then next[stream] else 1;
      next := next[stream := sequence + 1];
    }

    method Allocate(stream: StreamId) returns (eventId: EventId, sequence: nat)
      modifies this
      ensures sequence == if stream in old(next) then old(next)[stream] else 1
      ensures eventId == EventIdOf(stream, sequence)
      ensures next == old(next)[stream := sequence + 1]
      ensures byEvent == old(byEvent)[eventId := stream]
    {
      sequence := Reserve(stream);
      eventId := EventIdOf(stream, sequence);
      byEvent := byEvent[eventId := stream];
    }

    method Evict(eventId: EventId)
      modifies this`byEvent
      ensures byEvent == old(byEvent) - {eventId}
    {
      byEvent := byEvent - {eventId};
    }
  }

  class ReplayCache {
    var rings: map<StreamId, seq<Envelope>>
    const capacity: nat
    const registry: StreamRegistry

    constructor (capacity: nat, registry: StreamRegistry)
      ensures rings == map[] && this.capacity == capacity && this.registry == registry
    {
      this.rings, this.capacity, this.registry := map[], capacity, registry;
    }

    function Ring(stream: StreamId): seq<Envelope>
      reads this
    {
      if stream in rings then rings[stream] else []
    }

    method Record(env: Envelope)
      modifies this`rings, registry`byEvent
      ensures rings == old(rings)[env.streamId := Recorded(old(Ring(env.streamId)), capacity, env)]
      ensures var evicted := Evicts(old(Ring(env.streamId)), capacity);
              registry.byEvent ==
              if evicted.Some? then old(registry.byEvent) - {evicted.value} else old(registry.byEvent)
    {
      var ring := if env.streamId in rings then rings[env.streamId] else [];
      var evicted := None;
      if |ring| >= capacity && |ring| > 0 {
        evicted := Some(ring[0].eventId);
        ring := ring[1..];
      }
      rings := rings[env.streamId := ring + [env]];
      if evicted.Some? {
        registry.Evict(evicted.value);
      }
    }

    method EventsAfter(stream: StreamId, after: nat) returns (events: seq<Envelope>)
      ensures events == Newer(Ring(stream), after)
    {
      if stream !in rings {
        return [];
      }
      var ring := rings[stream];
      events := [];
      for i := 0 to |ring|
        invariant events == Newer(ring[..i], after)
      {
        assert ring[..i + 1][..i] == ring[..i];
        if ring[i].sequence > after {
          events := events + [ring[i]];
        }
      }
      assert ring[..|ring|] == ring;
    }

    /** The front half of both publish paths: an oversized envelope gives its index entry back. */
    method Admit(env: Envelope, tooLarge: bool)
      modifies this`rings, registry`byEvent
      ensures tooLarge ==> rings == old(rings) && registry.byEvent == old(registry.byEvent) - {env.eventId}
      ensures !tooLarge ==> rings == old(rings)[env.streamId := Recorded(old(Ring(env.streamId)), capacity, env)]
      ensures !tooLarge ==>
                var evicted := Evicts(old(Ring(env.streamId)), capacity);
                registry.byEvent ==
                if evicted.Some? then old(registry.byEvent) - {evicted.value} else old(registry.byEvent)
    {
      if tooLarge {
        registry.Evict(env.eventId);
      } else {
        Record(env);
      }
    }
  }
}
