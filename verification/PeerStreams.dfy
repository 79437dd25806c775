/**
 Shared upstream streams (`http/peer_streams.rs`) and the WebSocket
 connections that hold them (`http/ws.rs`).  Each connection's dispatcher is
 sequential; the connections interleave between their hub calls.
 */
module PeerStreams {
  import opened Wrappers

  /** Peer name and topic. */
  type Key = (string, string)

  /** The entries of the hub with their reference counts. */
  type Hub = map<Key, nat>

  function MaxSubscriptions(): nat { 64 }

  // ---- The hub ----

  function Refs(hub: Hub, key: Key): nat { if key in hub then hub[key] else 0 }

  /** An entry that exists is shared; otherwise one is opened if the peer is known. */
  function Acquired(hub: Hub, key: Key, known: bool): Option<Hub>
  {
    if key in hub || known then Some(hub[key := Refs(hub, key) + 1]) else None
  }

  /** The last reference takes the entry with it; the counter wraps below zero. */
  function Released(hub: Hub, key: Key): Hub
  {
    if key !in hub then hub
    else if hub[key] == 1 then hub - {key}
    else hub[key := if hub[key] == 0 then 0xFFFF_FFFF_FFFF_FFFF else hub[key] - 1]
  }

  class PeerStreamHub {
    var entries: Hub

    constructor ()
      ensures entries == map[]
    {
      entries := map[];
    }

    method Subscribe(key: Key, known: bool) returns (shared: bool)
      modifies this
      ensures shared == Acquired(old(entries), key, known).Some?
      ensures entries == if shared then Acquired(old(entries), key, known).value else old(entries)
    {
      if key in entries {
        entries := entries[key := entries[key] + 1];
        return true;
      }
      if !known {
        return false;
      }
      entries := entries[key := 1];
      shared := true;
    }

    method Unsubscribe(key: Key)
      modifies this
      ensures entries == Released(old(entries), key)
    {
      var last := false;
      if key in entries {
        var before := entries[key];
        entries := entries[key := if before == 0 then 0xFFFF_FFFF_FFFF_FFFF else before - 1];
        last := before == 1;
      }
      if last {
        entries := entries - {key};
      }
    }
  }

  // ---- One connection ----

  /** Where the dispatcher waits: for a message, or inside a call to the hub; `Draining` after the socket closed. */
  datatype Phase =
    | Idle
    | Acquiring(app: nat, key: Key)
    | Granted(app: nat, key: Key)
    | Releasing(app: nat, key: Key, closing: bool)
    | Draining

  datatype Conn = Conn(local: map<nat, nat>, fwd: map<nat, Key>, nextApp: nat, phase: Phase)

  /**
   `admitted` says whether the topic parsed and the peer allows streaming,
   `peer` the upstream key of a topic of another node, `bus` the subscription a
   local topic gets.  Forwarder events may name any subscription, live or not.
   */
  datatype Act =
    | Subscribe(peer: Option<Key>, admitted: bool, bus: nat)
    | HubAcquire(known: bool)
    | Insert
    | Unsubscribe(app: nat)
    | LagTerminated(app: nat)
    | LocalTerminated(app: nat)
    | HubRelease
    | Close
    | DrainOne(app: nat)

  /** What a step did to the hub. */
  datatype Effect = Quiet | Takes(app: nat, key: Key) | Gives(app: nat, key: Key)

  function HubAfter(hub: Hub, eff: Effect): Hub
  {
    match eff
    case Quiet => hub
    case Takes(_, key) => hub[key := Refs(hub, key) + 1]
    case Gives(_, key) => Released(hub, key)
  }

  function FreshConn(): Conn { Conn(map[], map[], 1, Idle) }

  function Accept(c: Conn, peer: Option<Key>, admitted: bool, bus: nat): Conn
  {
    if |c.local| + |c.fwd| >= MaxSubscriptions() || !admitted then c
    else if peer.Some? then c.(nextApp := c.nextApp + 1, phase := Acquiring(c.nextApp, peer.value))
    else c.(nextApp := c.nextApp + 1, local := c.local[c.nextApp := bus])
  }

  function DropForwarded(c: Conn, app: nat, closing: bool): Conn
  {
    if app in c.fwd then c.(fwd := c.fwd - {app}, phase := Releasing(app, c.fwd[app], closing)) else c
  }

  /** A step of one connection; a step its phase does not allow changes nothing. */
  function ConnStep(hub: Hub, c: Conn, act: Act): (Conn, Effect)
  {
    match act
    case Subscribe(peer, admitted, bus) => (if c.phase.Idle? then Accept(c, peer, admitted, bus) else c, Quiet)
    case HubAcquire(known) =>
      if !c.phase.Acquiring? then (c, Quiet)
      else if Acquired(hub, c.phase.key, known).Some? then
        (c.(phase := Granted(c.phase.app, c.phase.key)), Takes(c.phase.app, c.phase.key))
      else (c.(phase := Idle), Quiet)
    case Insert => (if c.phase.Granted? then c.(fwd := c.fwd[c.phase.app := c.phase.key], phase := Idle) else c, Quiet)
    case Unsubscribe(app) =>
      (if c.phase.Idle? then DropForwarded(c.(local := c.local - {app}), app, false) else c, Quiet)
    case LagTerminated(app) => (if c.phase.Idle? then DropForwarded(c, app, false) else c, Quiet)
    case LocalTerminated(app) => (if c.phase.Idle? then c.(local := c.local - {app}) else c, Quiet)
    case HubRelease =>
      if !c.phase.Releasing? then (c, Quiet)
      else (c.(phase := if c.phase.closing then Draining else Idle), Gives(c.phase.app, c.phase.key))
    case Close => (if c.phase.Idle? then c.(local := map[], phase := Draining) else c, Quiet)
    case DrainOne(app) => (if c.phase.Draining? then DropForwarded(c, app, true) else c, Quiet)
  }

  /** Steps of one connection with no other in between. */
  function Alone(hub: Hub, c: Conn, acts: seq<Act>): (Hub, Conn)
    decreases |acts|
  {
    if acts == [] then (hub, c)
    else
      var (d, eff) := ConnStep(hub, c, acts[0]);
      Alone(HubAfter(hub, eff), d, acts[1..])
  }

  lemma AloneOne(hub: Hub, c: Conn, a: Act)
    ensures Alone(hub, c, [a]) == (HubAfter(hub, ConnStep(hub, c, a).1), ConnStep(hub, c, a).0)
  {
    assert [a][1..] == [];
  }

  lemma {:induction false} AloneConcat(hub: Hub, c: Conn, a: seq<Act>, b: seq<Act>)
    ensures Alone(hub, c, a + b) == Alone(Alone(hub, c, a).0, Alone(hub, c, a).1, b)
    decreases |a|
  {
    if a == [] {
      assert a + b == b;
    } else {
      assert (a + b)[0] == a[0] && (a + b)[1..] == a[1..] + b;
      var (d, eff) := ConnStep(hub, c, a[0]);
      AloneConcat(HubAfter(hub, eff), d, a[1..], b);
    }
  }

  lemma AloneThen(hub: Hub, c: Conn, a: Act, b: Act, h: Hub, d: Conn)
    requires (h, d) == Alone(hub, c, [a])
    ensures Alone(hub, c, [a, b]) == Alone(h, d, [b])
  {
    assert [a, b] == [a] + [b];
    AloneConcat(hub, c, [a], [b]);
  }

  /** The dispatcher of one connection, between messages. */
  class Connection {
    const hub: PeerStreamHub
    var local: map<nat, nat>
    var fwd: map<nat, Key>
    var nextApp: nat

    constructor (hub: PeerStreamHub)
      ensures State(Idle) == FreshConn() && this.hub == hub
    {
      this.hub, local, fwd, nextApp := hub, map[], map[], 1;
    }

    ghost function State(phase: Phase): Conn
      reads this
    {
      Conn(local, fwd, nextApp, phase)
    }

    /** The answer is the new subscription's number, if one was given out. */
    method OnSubscribe(peer: Option<Key>, admitted: bool, bus: nat, known: bool) returns (ack: Option<nat>)
      modifies this, hub
      ensures (hub.entries, State(Idle)) ==
              Alone(old(hub.entries), old(State(Idle)), [Subscribe(peer, admitted, bus), HubAcquire(known), Insert])
      ensures ack == if nextApp > old(nextApp) then Some(old(nextApp)) else None
      ensures ack.Some? <==> admitted && old(|local| + |fwd|) < 64
      ensures ack.Some? && peer.None? ==> local == old(local)[ack.value := bus] && fwd == old(fwd)
      ensures ack.Some? && peer.Some? ==> local == old(local)
      ensures ack.Some? && peer.Some? ==>
                fwd == if known || peer.value in old(hub.entries) then old(fwd)[ack.value := peer.value] else old(fwd)
    {
      ghost var h, c := hub.entries, State(Idle);
      SubscribeSteps(h, c, peer, admitted, bus, known);
      if |local| + |fwd| >= MaxSubscriptions() || !admitted {
        return None;
      }
      var app := nextApp;
      nextApp := nextApp + 1;
      ack := Some(app);
      if peer.Some? {
        var ok := hub.Subscribe(peer.value, known);
        if ok {
          fwd := fwd[app := peer.value];
        }
      } else {
        local := local[app := bus];
      }
    }

    method OnUnsubscribe(app: nat)
      modifies this, hub
      ensures (hub.entries, State(Idle)) == Alone(old(hub.entries), old(State(Idle)), [Unsubscribe(app), HubRelease])
      ensures local == old(local) - {app} && fwd == old(fwd) - {app}
    {
      DropSteps(hub.entries, State(Idle), Unsubscribe(app), app);
      local := local - {app};
      if app in fwd {
        var key := fwd[app];
        fwd := fwd - {app};
        hub.Unsubscribe(key);
      }
    }

    /** A late event, for a subscription already gone, changes nothing. */
    method OnLagTerminated(app: nat)
      modifies this, hub
      ensures (hub.entries, State(Idle)) == Alone(old(hub.entries), old(State(Idle)), [LagTerminated(app), HubRelease])
      ensures app !in old(fwd) ==> (hub.entries, State(Idle)) == (old(hub.entries), old(State(Idle)))
      ensures local == old(local) && fwd == old(fwd) - {app}
    {
      DropSteps(hub.entries, State(Idle), LagTerminated(app), app);
      if app in fwd {
        var key := fwd[app];
        fwd := fwd - {app};
        hub.Unsubscribe(key);
      }
    }

    method OnLocalTerminated(app: nat)
      modifies this`local
      ensures (hub.entries, State(Idle)) == Alone(old(hub.entries), old(State(Idle)), [LocalTerminated(app)])
      ensures local == old(local) - {app} && fwd == old(fwd)
    {
      AloneOne(hub.entries, State(Idle), LocalTerminated(app));
      local := local - {app};
    }

    /** Drains every subscription, in whatever order the map yields them. */
    method OnClose() returns (ghost order: seq<nat>)
      modifies this, hub
      ensures (hub.entries, State(Draining)) == Alone(old(hub.entries), old(State(Idle)), [Close] + Drains(order))
      ensures local == map[] && fwd == map[]
    {
      ghost var h, c := hub.entries, State(Idle);
      AloneOne(h, c, Close);
      order := [];
      local := map[];
      assert [Close] + Drains([]) == [Close];
      while fwd != map[]
        invariant local == map[]
        invariant (hub.entries, State(Draining)) == Alone(h, c, [Close] + Drains(order))
        decreases |fwd|
      {
        var app :| app in fwd;
        ghost var d, g := State(Draining), hub.entries;
        var key := fwd[app];
        fwd := fwd - {app};
        hub.Unsubscribe(key);
        DrainStep(g, d, app);
        AloneConcat(h, c, [Close] + Drains(order), [DrainOne(app), HubRelease]);
        assert [Close] + Drains(order) + [DrainOne(app), HubRelease] == [Close] + Drains(order + [app]);
        order := order + [app];
      }
    }
  }

  function Drains(order: seq<nat>): seq<Act>
  {
    if order == [] then [] else Drains(order[..|order| - 1]) + [DrainOne(order[|order| - 1]), HubRelease]
  }

  lemma SubscribeSteps(h: Hub, c: Conn, peer: Option<Key>, admitted: bool, bus: nat, known: bool)
    requires c.phase.Idle?
    ensures Alone(h, c, [Subscribe(peer, admitted, bus), HubAcquire(known), Insert]) ==
            if |c.local| + |c.fwd| >= MaxSubscriptions() || !admitted then (h, c)
            else if peer.None? then (h, c.(nextApp := c.nextApp + 1, local := c.local[c.nextApp := bus]))
            else match Acquired(h, peer.value, known)
              case None => (h, c.(nextApp := c.nextApp + 1))
              case Some(h1) => (h1, c.(nextApp := c.nextApp + 1, fwd := c.fwd[c.nextApp := peer.value]))
  {
    var acts := [Subscribe(peer, admitted, bus), HubAcquire(known), Insert];
    var (d, eff) := ConnStep(h, c, acts[0]);
    assert acts[1..] == [HubAcquire(known), Insert];
    var (e, eff2) := ConnStep(h, d, HubAcquire(known));
    AloneThen(h, d, HubAcquire(known), Insert, HubAfter(h, eff2), e) by { AloneOne(h, d, HubAcquire(known)); }
    AloneOne(HubAfter(h, eff2), e, Insert);
  }

  lemma DropSteps(h: Hub, c: Conn, act: Act, app: nat)
    requires c.phase.Idle? && (act == Unsubscribe(app) || act == LagTerminated(app))
    ensures Alone(h, c, [act, HubRelease]) ==
            var d := if act.Unsubscribe? then c.(local := c.local - {app}) else c;
            if app in c.fwd then (Released(h, c.fwd[app]), d.(fwd := d.fwd - {app})) else (h, d)
  {
    var (d, eff) := ConnStep(h, c, act);
    AloneOne(h, c, act);
    AloneThen(h, c, act, HubRelease, h, d);
    AloneOne(h, d, HubRelease);
  }

  lemma DrainStep(h: Hub, c: Conn, app: nat)
    requires c.phase.Draining? && app in c.fwd
    ensures Alone(h, c, [DrainOne(app), HubRelease]) == (Released(h, c.fwd[app]), c.(fwd := c.fwd - {app}))
  {
    var (d, eff) := ConnStep(h, c, DrainOne(app));
    AloneOne(h, c, DrainOne(app));
    AloneThen(h, c, DrainOne(app), HubRelease, h, d);
    AloneOne(h, d, HubRelease);
  }

  /** The references a connection holds: its forwarded subscriptions and the one it is about to record or give back. */
  function Tokens(c: Conn): map<nat, Key>
  {
    if c.phase.Granted? || c.phase.Releasing? then c.fwd[c.phase.app := c.phase.key] else c.fwd
  }

  ghost predicate ConnOk(c: Conn)
  {
    && (forall a :: a in c.fwd ==> a < c.nextApp)
    && (c.phase.Acquiring? || c.phase.Granted? || c.phase.Releasing? ==>
          c.phase.app < c.nextApp && c.phase.app !in c.fwd)
    && |c.local| + |c.fwd| + (if c.phase.Acquiring? || c.phase.Granted? then 1 else 0) <= MaxSubscriptions()
  }

  lemma MapGrows<K, V>(m: map<K, V>, k: K, v: V)
    requires k !in m
    ensures |m[k := v]| == |m| + 1
  {
    assert m[k := v].Keys == m.Keys + {k};
    assert |m.Keys + {k}| == |m.Keys| + 1;
  }

  // ---- Any number of connections ----

  type Conns = map<nat, Conn>

  /** A connection's number and the subscription's number on it. */
  type Token = (nat, nat)

  /** `granted` are all the references ever taken from the hub, `released` all that were given back. */
  datatype World = World(hub: Hub, conns: Conns, granted: set<Token>, released: multiset<Token>)

  datatype Move = Connect(conn: nat) | On(conn: nat, act: Act)

  function Start(): World { World(map[], map[], {}, multiset{}) }

  function Apply(w: World, conn: nat, eff: Effect): World
  {
    match eff
    case Quiet => w
    case Takes(app, key) => w.(hub := HubAfter(w.hub, eff), granted := w.granted + {(conn, app)})
    case Gives(app, key) => w.(hub := HubAfter(w.hub, eff), released := w.released + multiset{(conn, app)})
  }

  function Step(w: World, m: Move): World
  {
    match m
    case Connect(conn) => if conn in w.conns then w else w.(conns := w.conns[conn := FreshConn()])
    case On(conn, act) =>
      if conn !in w.conns then w
      else
        var (d, eff) := ConnStep(w.hub, w.conns[conn], act);
        Apply(w.(conns := w.conns[conn := d]), conn, eff)
  }

  function Run(w: World, moves: seq<Move>): World
    decreases |moves|
  {
    if moves == [] then w else Run(Step(w, moves[0]), moves[1..])
  }

  predicate IsHeld(conns: Conns, t: Token) { t.0 in conns && t.1 in Tokens(conns[t.0]) }

  /** The references held on a key, over all connections. */
  function Holders(conns: Conns, key: Key): set<Token>
  {
    set c, a | c in conns && a in Tokens(conns[c]) && Tokens(conns[c])[a] == key :: (c, a)
  }

  ghost predicate CountsAgree(hub: Hub, conns: Conns)
  {
    forall key :: Refs(hub, key) == |Holders(conns, key)| && (key in hub ==> hub[key] > 0)
  }

  /** Every reference ever taken is held or was given back once. */
  ghost predicate OnceEach(w: World)
  {
    && (forall t :: t in w.granted <==> IsHeld(w.conns, t) || t in w.released)
    && (forall t :: IsHeld(w.conns, t) ==> t !in w.released)
    && (forall t :: w.released[t] <= 1)
  }

  /** The connection's next references will carry new numbers. */
  predicate Used(c: Conn, app: nat) { app < c.nextApp && (c.phase.Acquiring? ==> app != c.phase.app) }

  ghost predicate NumbersFresh(granted: set<Token>, conns: Conns)
  {
    forall t :: t in granted ==> t.0 in conns && Used(conns[t.0], t.1)
  }

  ghost predicate AllOk(conns: Conns) { forall c :: c in conns ==> ConnOk(conns[c]) }

  ghost predicate Inv(w: World)
  {
    AllOk(w.conns) && CountsAgree(w.hub, w.conns) && OnceEach(w) && NumbersFresh(w.granted, w.conns)
  }

  // ---- Counting ----

  /** The references on a key that other connections hold. */
  function Others(conns: Conns, c: nat, key: Key): set<Token> { set t | t in Holders(conns, key) && t.0 != c }

  function Own(c: nat, tokens: map<nat, Key>, key: Key): set<Token>
  {
    set a | a in tokens && tokens[a] == key :: (c, a)
  }

  lemma HoldersAfter(conns: Conns, c: nat, d: Conn, key: Key)
    ensures Holders(conns[c := d], key) == Others(conns, c, key) + Own(c, Tokens(d), key)
  {
    var next := conns[c := d];
    forall e, a | e in next && a in Tokens(next[e]) && Tokens(next[e])[a] == key
      ensures (e, a) in Others(conns, c, key) + Own(c, Tokens(d), key)
    {
    }
  }

  lemma HoldersBefore(conns: Conns, c: nat, key: Key)
    requires c in conns
    ensures Holders(conns, key) == Others(conns, c, key) + Own(c, Tokens(conns[c]), key)
  {
    assert conns[c := conns[c]] == conns;
    HoldersAfter(conns, c, conns[c], key);
  }

  lemma SameTokens(conns: Conns, c: nat, d: Conn, key: Key)
    requires if c in conns then Tokens(d) == Tokens(conns[c]) else Tokens(d) == map[]
    ensures Holders(conns[c := d], key) == Holders(conns, key)
  {
    HoldersAfter(conns, c, d, key);
    if c in conns {
      HoldersBefore(conns, c, key);
    }
  }

  lemma OwnGrows(c: nat, tokens: map<nat, Key>, app: nat, key: Key, k: Key)
    requires app !in tokens
    ensures Own(c, tokens[app := key], k) == if k == key then Own(c, tokens, k) + {(c, app)} else Own(c, tokens, k)
    ensures (c, app) !in Own(c, tokens, k)
  {
  }

  lemma OwnShrinks(c: nat, tokens: map<nat, Key>, app: nat, k: Key)
    requires app in tokens
    ensures Own(c, tokens, k) ==
            if k == tokens[app] then Own(c, tokens - {app}, k) + {(c, app)} else Own(c, tokens - {app}, k)
    ensures (c, app) !in Own(c, tokens - {app}, k)
  {
  }

  lemma OneMore(others: set<Token>, own: set<Token>, t: Token)
    requires t !in others && t !in own
    ensures |others + (own + {t})| == |others + own| + 1
  {
    assert others + (own + {t}) == (others + own) + {t};
  }

  lemma TakeHolders(conns: Conns, c: nat, d: Conn, app: nat, key: Key, k: Key)
    requires c in conns && app !in Tokens(conns[c]) && Tokens(d) == Tokens(conns[c])[app := key]
    ensures |Holders(conns[c := d], k)| == |Holders(conns, k)| + if k == key then 1 else 0
  {
    HoldersAfter(conns, c, d, k);
    HoldersBefore(conns, c, k);
    OwnGrows(c, Tokens(conns[c]), app, key, k);
    OneMore(Others(conns, c, k), Own(c, Tokens(conns[c]), k), (c, app));
  }

  lemma GiveHolders(conns: Conns, c: nat, d: Conn, app: nat, key: Key, k: Key)
    requires c in conns && app in Tokens(conns[c]) && Tokens(conns[c])[app] == key
    requires Tokens(d) == Tokens(conns[c]) - {app}
    ensures |Holders(conns[c := d], k)| == |Holders(conns, k)| - if k == key then 1 else 0
    ensures k == key ==> |Holders(conns, k)| > 0
  {
    HoldersAfter(conns, c, d, k);
    HoldersBefore(conns, c, k);
    OwnShrinks(c, Tokens(conns[c]), app, k);
    OneMore(Others(conns, c, k), Own(c, Tokens(d), k), (c, app));
  }

  // ---- Each kind of step ----

  lemma QuietCounts(hub: Hub, conns: Conns, c: nat, d: Conn)
    requires CountsAgree(hub, conns) && if c in conns then Tokens(d) == Tokens(conns[c]) else Tokens(d) == map[]
    ensures CountsAgree(hub, conns[c := d])
  {
    forall key ensures Holders(conns[c := d], key) == Holders(conns, key) { SameTokens(conns, c, d, key); }
  }

  lemma TakeCounts(hub: Hub, conns: Conns, c: nat, d: Conn, app: nat, key: Key)
    requires CountsAgree(hub, conns)
    requires c in conns && app !in Tokens(conns[c]) && Tokens(d) == Tokens(conns[c])[app := key]
    ensures CountsAgree(hub[key := Refs(hub, key) + 1], conns[c := d])
  {
    var next := hub[key := Refs(hub, key) + 1];
    forall k ensures Refs(next, k) == |Holders(conns[c := d], k)| && (k in next ==> next[k] > 0) {
      TakeHolders(conns, c, d, app, key, k);
      assert Refs(hub, k) == |Holders(conns, k)|;
    }
  }

  lemma GiveCounts(hub: Hub, conns: Conns, c: nat, d: Conn, app: nat, key: Key)
    requires CountsAgree(hub, conns)
    requires c in conns && app in Tokens(conns[c]) && Tokens(conns[c])[app] == key
    requires Tokens(d) == Tokens(conns[c]) - {app}
    ensures CountsAgree(Released(hub, key), conns[c := d])
  {
    var next := Released(hub, key);
    forall k ensures Refs(next, k) == |Holders(conns[c := d], k)| && (k in next ==> next[k] > 0) {
      GiveHolders(conns, c, d, app, key, k);
      assert Refs(hub, k) == |Holders(conns, k)|;
    }
  }

  lemma QuietOnce(w: World, c: nat, d: Conn)
    requires OnceEach(w) && if c in w.conns then Tokens(d) == Tokens(w.conns[c]) else Tokens(d) == map[]
    ensures OnceEach(w.(conns := w.conns[c := d]))
  {
    forall t ensures IsHeld(w.conns[c := d], t) <==> IsHeld(w.conns, t) {}
  }

  lemma TakeOnce(w: World, c: nat, d: Conn, app: nat, key: Key)
    requires OnceEach(w) && c in w.conns && (c, app) !in w.granted && Tokens(d) == Tokens(w.conns[c])[app := key]
    ensures OnceEach(Apply(w.(conns := w.conns[c := d]), c, Takes(app, key)))
  {
    forall t ensures IsHeld(w.conns[c := d], t) <==> IsHeld(w.conns, t) || t == (c, app) {}
  }

  lemma GiveOnce(w: World, c: nat, d: Conn, app: nat, key: Key)
    requires OnceEach(w) && c in w.conns && app in Tokens(w.conns[c]) && Tokens(d) == Tokens(w.conns[c]) - {app}
    ensures OnceEach(Apply(w.(conns := w.conns[c := d]), c, Gives(app, key)))
  {
    assert IsHeld(w.conns, (c, app));
    forall t ensures IsHeld(w.conns[c := d], t) <==> IsHeld(w.conns, t) && t != (c, app) {}
  }

  /** What a connection's step may do, seen from outside it. */
  ghost predicate Follows(c: Conn, d: Conn, eff: Effect)
  {
    && ConnOk(d) && c.nextApp <= d.nextApp
    && (d.phase.Acquiring? ==> d.phase == c.phase || d.phase.app >= c.nextApp)
    && (eff.Quiet? ==> Tokens(d) == Tokens(c))
    && (eff.Takes? ==> TakesToken(c, d, eff.app, eff.key))
    && (eff.Gives? ==> eff.app in Tokens(c) && Tokens(c)[eff.app] == eff.key && Tokens(d) == Tokens(c) - {eff.app})
  }

  ghost predicate TakesToken(c: Conn, d: Conn, app: nat, key: Key)
  {
    && c.phase == Acquiring(app, key) && app < c.nextApp && !d.phase.Acquiring?
    && app !in Tokens(c) && Tokens(d) == Tokens(c)[app := key]
  }

  lemma AcceptFollows(c: Conn, peer: Option<Key>, admitted: bool, bus: nat)
    requires ConnOk(c) && c.phase.Idle?
    ensures Follows(c, Accept(c, peer, admitted, bus), Quiet)
  {
  }

  lemma LocalFollows(c: Conn, app: nat)
    requires ConnOk(c) && c.phase.Idle?
    ensures Follows(c, c.(local := c.local - {app}), Quiet)
  {
  }

  lemma DropFollows(c: Conn, app: nat, closing: bool)
    requires ConnOk(c) && (c.phase.Idle? || c.phase.Draining?)
    ensures Follows(c, DropForwarded(c, app, closing), Quiet)
  {
  }

  lemma HubStepFollows(hub: Hub, c: Conn, act: Act)
    requires ConnOk(c) && (act.HubAcquire? || act.HubRelease?)
    ensures Follows(c, ConnStep(hub, c, act).0, ConnStep(hub, c, act).1)
  {
    if c.phase.Releasing? { PutBack(c.fwd, c.phase.app, c.phase.key); }
  }

  lemma InsertFollows(hub: Hub, c: Conn)
    requires ConnOk(c)
    ensures Follows(c, ConnStep(hub, c, Insert).0, Quiet)
  {
    if c.phase.Granted? { MapGrows(c.fwd, c.phase.app, c.phase.key); }
  }

  /**
   A connection gains exactly the reference it takes, under a number it never used, and
   loses exactly the one it gives back.
   */
  lemma ConnStepFollows(hub: Hub, c: Conn, act: Act)
    requires ConnOk(c)
    ensures Follows(c, ConnStep(hub, c, act).0, ConnStep(hub, c, act).1)
  {
    match act
    case Subscribe(peer, admitted, bus) => if c.phase.Idle? { AcceptFollows(c, peer, admitted, bus); }
    case HubAcquire(_) => HubStepFollows(hub, c, act);
    case Insert => InsertFollows(hub, c);
    case Unsubscribe(app) =>
      if c.phase.Idle? {
        LocalFollows(c, app);
        DropFollows(c.(local := c.local - {app}), app, false);
      }
    case LagTerminated(app) => if c.phase.Idle? { DropFollows(c, app, false); }
    case LocalTerminated(app) => if c.phase.Idle? { LocalFollows(c, app); }
    case HubRelease => HubStepFollows(hub, c, act);
    case Close =>
    case DrainOne(app) => if c.phase.Draining? { DropFollows(c, app, true); }
  }

  lemma PutBack(m: map<nat, Key>, app: nat, key: Key)
    requires app !in m
    ensures m[app := key] - {app} == m
  {
  }

  lemma CountsFollow(w: World, c: nat, d: Conn, eff: Effect)
    requires CountsAgree(w.hub, w.conns) && c in w.conns && Follows(w.conns[c], d, eff)
    ensures var next := Apply(w.(conns := w.conns[c := d]), c, eff); CountsAgree(next.hub, next.conns)
  {
    match eff
    case Quiet => QuietCounts(w.hub, w.conns, c, d);
    case Takes(app, key) => TakeCounts(w.hub, w.conns, c, d, app, key);
    case Gives(app, key) => GiveCounts(w.hub, w.conns, c, d, app, key);
  }

  lemma OnceFollows(w: World, c: nat, d: Conn, eff: Effect)
    requires OnceEach(w) && NumbersFresh(w.granted, w.conns) && c in w.conns && Follows(w.conns[c], d, eff)
    ensures OnceEach(Apply(w.(conns := w.conns[c := d]), c, eff))
  {
    match eff
    case Quiet => QuietOnce(w, c, d);
    case Takes(app, key) => TakeOnce(w, c, d, app, key);
    case Gives(app, key) => GiveOnce(w, c, d, app, key);
  }

  lemma FollowingKeepsInv(w: World, c: nat, d: Conn, eff: Effect)
    requires Inv(w) && c in w.conns && Follows(w.conns[c], d, eff)
    ensures Inv(Apply(w.(conns := w.conns[c := d]), c, eff))
  {
    CountsFollow(w, c, d, eff);
    OnceFollows(w, c, d, eff);
    assert Apply(w.(conns := w.conns[c := d]), c, eff).conns == w.conns[c := d];
  }

  lemma StepKeepsInv(w: World, m: Move)
    requires Inv(w)
    ensures Inv(Step(w, m))
  {
    if m.On? && m.conn in w.conns {
      var c := w.conns[m.conn];
      var (d, eff) := ConnStep(w.hub, c, m.act);
      ConnStepFollows(w.hub, c, m.act);
      FollowingKeepsInv(w, m.conn, d, eff);
    } else if m.Connect? && m.conn !in w.conns {
      QuietCounts(w.hub, w.conns, m.conn, FreshConn());
      QuietOnce(w, m.conn, FreshConn());
    }
  }

  // ---- Every run ----

  lemma {:induction false} RunFrom(w: World, moves: seq<Move>)
    requires Inv(w)
    ensures Inv(Run(w, moves))
    decreases |moves|
  {
    if moves != [] {
      StepKeepsInv(w, moves[0]);
      RunFrom(Step(w, moves[0]), moves[1..]);
    }
  }

  lemma RunKeepsInv(moves: seq<Move>)
    ensures Inv(Run(Start(), moves))
  {
    forall key ensures Holders(Start().conns, key) == {} {}
    RunFrom(Start(), moves);
  }

  /**
   Over every run of any number of connections: the count of a key is the number
   of references held on it and its entry exists exactly when that is positive.
   */
  lemma CountIsReferencesHeld(moves: seq<Move>, key: Key)
    ensures var w := Run(Start(), moves);
            (key in w.hub <==> Holders(w.conns, key) != {}) && (key in w.hub ==> w.hub[key] == |Holders(w.conns, key)|)
  {
    RunKeepsInv(moves);
    var w := Run(Start(), moves);
    assert Refs(w.hub, key) == |Holders(w.conns, key)|;
  }

  /** No reference is given back twice, nor while it is held, nor without having been taken. */
  lemma ReleasedAtMostOnce(moves: seq<Move>, t: Token)
    ensures var w := Run(Start(), moves);
            w.released[t] == if t in w.granted && !IsHeld(w.conns, t) then 1 else 0
  {
    RunKeepsInv(moves);
  }

  /** No connection ever has more than 64 subscriptions, counting the one being opened. */
  lemma CapIsKept(moves: seq<Move>, c: nat)
    requires c in Run(Start(), moves).conns
    ensures var conn := Run(Start(), moves).conns[c];
            |conn.local| + |conn.fwd| + (if conn.phase.Acquiring? || conn.phase.Granted? then 1 else 0)
            <= 64
  {
    RunKeepsInv(moves);
  }

  /** The forwarded subscriptions on a key that the connections list. */
  function ListedOn(conns: Conns, key: Key): set<Token>
  {
    set c, a | c in conns && a in conns[c].fwd && conns[c].fwd[a] == key :: (c, a)
  }

  /** When no dispatcher is inside a hub call, the count is exactly the number of forwarded subscriptions. */
  lemma IdleCountIsExact(moves: seq<Move>, key: Key)
    requires forall c :: c in Run(Start(), moves).conns ==>
               !Run(Start(), moves).conns[c].phase.Granted? && !Run(Start(), moves).conns[c].phase.Releasing?
    ensures Refs(Run(Start(), moves).hub, key) == |ListedOn(Run(Start(), moves).conns, key)|
  {
    CountIsReferencesHeld(moves, key);
    var conns := Run(Start(), moves).conns;
    assert ListedOn(conns, key) == Holders(conns, key);
  }

  /** Once every connection has closed and drained, no upstream stream is left. */
  lemma DrainedHubIsEmpty(moves: seq<Move>)
    requires forall c :: c in Run(Start(), moves).conns ==>
               Run(Start(), moves).conns[c].phase.Draining? && Run(Start(), moves).conns[c].fwd == map[]
    ensures Run(Start(), moves).hub == map[]
  {
    var w := Run(Start(), moves);
    forall key ensures key !in w.hub {
      CountIsReferencesHeld(moves, key);
      assert Holders(w.conns, key) == {};
    }
  }

  /** The hub call of a release always finds its entry, so the counter never wraps. */
  lemma ReleaseFindsItsEntry(moves: seq<Move>, c: nat)
    requires c in Run(Start(), moves).conns && Run(Start(), moves).conns[c].phase.Releasing?
    ensures var w := Run(Start(), moves); var key := w.conns[c].phase.key; key in w.hub && w.hub[key] > 0
  {
    var w := Run(Start(), moves);
    var p := w.conns[c].phase;
    CountIsReferencesHeld(moves, p.key);
    assert p.app in Tokens(w.conns[c]);
    assert (c, p.app) in Holders(w.conns, p.key);
  }
}
