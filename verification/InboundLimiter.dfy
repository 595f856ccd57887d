/**
 Fixed-window limits on the frames the server receives, per session, per client address and overall
 (SignalingInboundLimiter.java), and the table of client states they are kept in.
 */
module InboundLimiter {
  import opened Common

  /** The key of a client address; keys are only compared for equality. */
  type ClientKey = nat

  datatype Limit = Limit(frames: int, bytes: int)

  datatype Config = Config(maximumTrackedClients: int, windowNanos: int, session: Limit, client: Limit, server: Limit)

  /** A window that has not been opened yet has no start. */
  datatype UsageWindow = UsageWindow(startedAt: Option<int>, frameCount: int, payloadBytes: int)

  const UNOPENED := UsageWindow(None, 0, 0)

  datatype ClientState = ClientState(window: UsageWindow, activeConnections: int)

  /** The client table with its access order, eldest first, and the window of the whole server. */
  datatype Limiter = Limiter(order: seq<ClientKey>, clients: map<ClientKey, ClientState>, serverWindow: UsageWindow)

  const NEW_LIMITER := Limiter([], map[], UNOPENED)

  datatype Verdict = Pass | FrameLimited | ByteLimited

  datatype Decision =
    | ACCEPTED
    | SESSION_FRAME_LIMITED | SESSION_BYTE_LIMITED
    | CLIENT_FRAME_LIMITED | CLIENT_BYTE_LIMITED
    | GLOBAL_FRAME_LIMITED | GLOBAL_BYTE_LIMITED

  // ----- windows -----

  predicate IsExpired(w: UsageWindow, now: int, windowNanos: int) {
    w.startedAt == None || now - w.startedAt.value >= windowNanos
  }

  /** A frame is counted whether or not it then passes. */
  function Charged(w: UsageWindow, now: int, windowNanos: int, bytes: int): UsageWindow {
    if IsExpired(w, now, windowNanos) then UsageWindow(Some(now), 1, bytes)
    else w.(frameCount := w.frameCount + 1, payloadBytes := w.payloadBytes + bytes)
  }

  function Judge(charged: UsageWindow, limit: Limit): Verdict {
    if charged.frameCount > limit.frames then FrameLimited
    else if charged.payloadBytes > limit.bytes then ByteLimited
    else Pass
  }

  function Pick(v: Verdict, frameLimited: Decision, byteLimited: Decision): Decision {
    match v
    case Pass => ACCEPTED
    case FrameLimited => frameLimited
    case ByteLimited => byteLimited
  }

  // ----- the client table -----

  predicate Active(clients: map<ClientKey, ClientState>, key: ClientKey) {
    key in clients && clients[key].activeConnections != 0
  }

  function Kept(order: seq<ClientKey>, keys: set<ClientKey>): (r: seq<ClientKey>)
    ensures forall key :: key in r <==> key in order && key in keys
    ensures NoDup(order) ==> NoDup(r)
  {
    if order == [] then []
    else (if order[0] in keys then [order[0]] else []) + Kept(order[1..], keys)
  }

  /** A lookup makes the entry the youngest. */
  function Touch(order: seq<ClientKey>, key: ClientKey): seq<ClientKey> {
    if key in order then Without(order, key) + [key] else order
  }

  /** What is left after removing inactive entries, eldest first, while the table is full. */
  function Evict(order: seq<ClientKey>, clients: map<ClientKey, ClientState>, capacity: int)
    : map<ClientKey, ClientState>
  {
    if order == [] || |clients| < capacity then clients
    else if Active(clients, order[0]) then Evict(order[1..], clients, capacity)
    else Evict(order[1..], clients - {order[0]}, capacity)
  }

  function WithClients(l: Limiter, clients: map<ClientKey, ClientState>): Limiter {
    l.(order := Kept(l.order, clients.Keys), clients := clients)
  }

  /** Whether the assertion in `retain` holds: there is room once the inactive entries are gone. */
  predicate HasRoom(l: Limiter, key: ClientKey, capacity: int) {
    key in l.clients || |Evict(l.order, l.clients, capacity)| < capacity
  }

  function Retain(l: Limiter, key: ClientKey, capacity: int): Limiter {
    if key in l.clients then
      Limiter(
        Touch(l.order, key),
        l.clients[key := l.clients[key].(activeConnections := l.clients[key].activeConnections + 1)],
        l.serverWindow)
    else
      var evicted := WithClients(l, Evict(l.order, l.clients, capacity));
      Limiter(evicted.order + [key], evicted.clients[key := ClientState(UNOPENED, 1)], l.serverWindow)
  }

  /** The table after `retain`, which has made room in vain if its assertion fails. */
  function AfterRetain(l: Limiter, key: ClientKey, capacity: int): Limiter {
    if HasRoom(l, key, capacity) then Retain(l, key, capacity)
    else WithClients(l, Evict(l.order, l.clients, capacity))
  }

  function Release(l: Limiter, key: ClientKey): Limiter {
    if key !in l.clients then l
    else l.(clients := l.clients[key := l.clients[key].(activeConnections := l.clients[key].activeConnections - 1)])
  }

  function RemoveExpiredInactive(l: Limiter, now: int, windowNanos: int): Limiter {
    WithClients(l, map key | key in l.clients
                             && (Active(l.clients, key) || !IsExpired(l.clients[key].window, now, windowNanos))
                             :: l.clients[key])
  }

  datatype Attempt = Attempt(limiter: Limiter, session: UsageWindow, decision: Decision)

  /** A frame refused at one stage is not counted at the next. */
  function TryAcquire(c: Config, l: Limiter, key: ClientKey, session: UsageWindow, now: int, bytes: int): Attempt
    requires key in l.clients
  {
    var touched := l.(order := Touch(l.order, key));
    var session' := Charged(session, now, c.windowNanos, bytes);
    if Judge(session', c.session) != Pass then
      Attempt(touched, session', Pick(Judge(session', c.session), SESSION_FRAME_LIMITED, SESSION_BYTE_LIMITED))
    else
      var client' := Charged(l.clients[key].window, now, c.windowNanos, bytes);
      var counted := touched.(clients := l.clients[key := l.clients[key].(window := client')]);
      if Judge(client', c.client) != Pass then
        Attempt(counted, session', Pick(Judge(client', c.client), CLIENT_FRAME_LIMITED, CLIENT_BYTE_LIMITED))
      else
        var server' := Charged(l.serverWindow, now, c.windowNanos, bytes);
        Attempt(counted.(serverWindow := server'), session',
                Pick(Judge(server', c.server), GLOBAL_FRAME_LIMITED, GLOBAL_BYTE_LIMITED))
  }

  // ----- the table stays consistent -----

  ghost predicate Consistent(l: Limiter) {
    && NoDup(l.order)
    && (forall key :: key in l.order <==> key in l.clients)
    && (forall key :: key in l.clients ==> l.clients[key].activeConnections >= 0)
  }

  ghost function ActiveKeys(clients: map<ClientKey, ClientState>): set<ClientKey> {
    set key | key in clients && Active(clients, key)
  }

  /** Eviction removes only inactive entries, and stops short of making room only when none is left. */
  lemma {:induction false} EvictKeepsActive(order: seq<ClientKey>, clients: map<ClientKey, ClientState>, capacity: int)
    requires NoDup(order)
    ensures var left := Evict(order, clients, capacity);
            && (forall key :: key in left ==> key in clients && left[key] == clients[key])
            && (forall key :: Active(clients, key) ==> key in left)
            && (|left| >= capacity ==> forall key :: key in left && key in order ==> Active(clients, key))
  {
    if order != [] && |clients| >= capacity {
      var rest := if Active(clients, order[0]) then clients else clients - {order[0]};
      EvictKeepsActive(order[1..], rest, capacity);
      assert forall key :: key in order ==> key == order[0] || key in order[1..];
    }
  }

  /** If fewer clients are active than the table holds, `retain` finds room for a new one. */
  lemma RoomForActive(l: Limiter, key: ClientKey, capacity: int)
    requires Consistent(l) && |ActiveKeys(l.clients)| < capacity
    ensures HasRoom(l, key, capacity)
  {
    EvictKeepsActive(l.order, l.clients, capacity);
    var left := Evict(l.order, l.clients, capacity);
    assert |left| == |left.Keys|;
    if left.Keys <= ActiveKeys(l.clients) {
      SubsetSize(left.Keys, ActiveKeys(l.clients));
    }
  }

  lemma RetainKeepsConsistent(l: Limiter, key: ClientKey, capacity: int)
    requires Consistent(l)
    ensures Consistent(Retain(l, key, capacity))
  {
    EvictKeepsActive(l.order, l.clients, capacity);
    WithoutNoDup(l.order, key);
  }

  lemma TouchKeepsConsistent(l: Limiter, key: ClientKey)
    requires Consistent(l)
    ensures Consistent(l.(order := Touch(l.order, key)))
  {
    WithoutNoDup(l.order, key);
  }

  // ----- the limiter object -----

  /** Removing the entries that a set does not name from an order leaves an order of the rest. */
  lemma {:induction false} KeptAll(order: seq<ClientKey>, keys: set<ClientKey>)
    requires forall key :: key in order ==> key in keys
    ensures Kept(order, keys) == order
  {
    if order != [] {
      KeptAll(order[1..], keys);
    }
  }

  lemma {:induction false} KeptTwice(order: seq<ClientKey>, more: set<ClientKey>, keys: set<ClientKey>)
    requires keys <= more
    ensures Kept(Kept(order, more), keys) == Kept(order, keys)
  {
    if order != [] {
      var rest := Kept(order[1..], more);
      KeptTwice(order[1..], more, keys);
      if order[0] in more {
        assert Kept(order, more) == [order[0]] + rest;
        assert ([order[0]] + rest)[1..] == rest;
      } else {
        assert Kept(order, more) == rest;
      }
    }
  }

  class SignalingInboundLimiter {
    const config: Config
    // The access order of the LinkedHashMap, eldest first, and its entries.
    var order: seq<ClientKey>
    var clients: map<ClientKey, ClientState>
    var globalWindow: UsageWindow

    ghost function Model(): Limiter
      reads this
    {
      Limiter(order, clients, globalWindow)
    }

    constructor (config: Config)
      ensures Model() == NEW_LIMITER && this.config == config
    {
      this.config := config;
      order, clients, globalWindow := [], map[], UNOPENED;
    }

    /** The caller knows that there is room once inactive entries are gone, so the source's assertion holds. */
    method RetainClient(key: ClientKey)
      requires Consistent(Model()) && HasRoom(Model(), key, config.maximumTrackedClients)
      modifies this
      ensures Model() == AfterRetain(old(Model()), key, config.maximumTrackedClients)
    {
      if key in clients {
        order := Touch(order, key);
        clients := clients[key := clients[key].(activeConnections := clients[key].activeConnections + 1)];
      } else {
        EvictInactiveForCapacity();
        assert |clients| < config.maximumTrackedClients;
        clients := clients[key := ClientState(UNOPENED, 1)];
        order := order + [key];
      }
    }

    method EvictInactiveForCapacity()
      requires Consistent(Model())
      modifies this
      ensures Model() == WithClients(old(Model()), Evict(old(order), old(clients), config.maximumTrackedClients))
    {
      var eldestFirst := order;
      KeptAll(order, clients.Keys);
      while |clients| >= config.maximumTrackedClients && eldestFirst != []
        invariant Evict(eldestFirst, clients, config.maximumTrackedClients)
                  == Evict(old(order), old(clients), config.maximumTrackedClients)
        invariant order == Kept(old(order), clients.Keys) && globalWindow == old(globalWindow)
        decreases |eldestFirst|
      {
        var eldest := eldestFirst[0];
        eldestFirst := eldestFirst[1..];
        if !Active(clients, eldest) {
          KeptTwice(old(order), clients.Keys, clients.Keys - {eldest});
          clients := clients - {eldest};
          order := Kept(order, clients.Keys);
        }
      }
    }

    method ReleaseClient(key: ClientKey)
      modifies this
      ensures Model() == Release(old(Model()), key)
    {
      if key in clients {
        clients := clients[key := clients[key].(activeConnections := clients[key].activeConnections - 1)];
      }
    }

    method TryAcquireFrame(key: ClientKey, session: UsageWindow, now: int, bytes: int)
      returns (session': UsageWindow, decision: Decision)
      requires key in clients
      modifies this
      ensures Attempt(Model(), session', decision) == TryAcquire(config, old(Model()), key, session, now, bytes)
    {
      order := Touch(order, key);
      session' := Charged(session, now, config.windowNanos, bytes);
      decision := Pick(Judge(session', config.session), SESSION_FRAME_LIMITED, SESSION_BYTE_LIMITED);
      if decision == ACCEPTED {
        var window := Charged(clients[key].window, now, config.windowNanos, bytes);
        clients := clients[key := clients[key].(window := window)];
        decision := Pick(Judge(window, config.client), CLIENT_FRAME_LIMITED, CLIENT_BYTE_LIMITED);
      }
      if decision == ACCEPTED {
        globalWindow := Charged(globalWindow, now, config.windowNanos, bytes);
        decision := Pick(Judge(globalWindow, config.server), GLOBAL_FRAME_LIMITED, GLOBAL_BYTE_LIMITED);
      }
    }

    method ForgetExpiredInactive(now: int)
      modifies this
      ensures Model() == RemoveExpiredInactive(old(Model()), now, config.windowNanos)
    {
      clients := map key | key in clients
                           && (Active(clients, key) || !IsExpired(clients[key].window, now, config.windowNanos))
                           :: clients[key];
      order := Kept(order, clients.Keys);
    }

    method Reset()
      modifies this
      ensures Model() == NEW_LIMITER
    {
      order, clients, globalWindow := [], map[], UNOPENED;
    }
  }
}
