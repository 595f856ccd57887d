/**
 When a client is held to twice its limit, and what sweeping the table of clients changes.

 The limiter forgets clients that have no connection, some because their window has expired and some
 to make room. The first is never noticed. The second is why the bound of twice a client's limit holds
 exactly as long as the table has room for all clients that ever connect.
 */
module InboundCapacity {
  import opened Common
  import opened FixedWindow
  import opened InboundLimiter
  import opened InboundHistory

  // ----- histories that the server can have -----

  /** The connections there are, by client. */
  function Live(acts: seq<Act>): multiset<ClientKey> {
    if acts == [] then multiset{} else Joined(Live(acts[..|acts| - 1]), acts[|acts| - 1])
  }

  function Joined(live: multiset<ClientKey>, act: Act): multiset<ClientKey> {
    match act
    case Connects(client) => live + multiset{client}
    case Disconnects(client) => live - multiset{client}
    case Sweeps(_) => live
    case Sends(_, _, _, _) => live
  }

  /** The admission policy has let the client in, and it is a connected client that leaves or sends. */
  predicate MayHappen(c: Config, live: multiset<ClientKey>, act: Act) {
    match act
    case Connects(_) => |live| < c.maximumTrackedClients
    case Disconnects(client) => client in live
    case Sweeps(_) => true
    case Sends(client, _, _, _) => client in live
  }

  predicate Admitted(c: Config, acts: seq<Act>)
    decreases |acts|
  {
    acts == []
    || (Admitted(c, acts[..|acts| - 1]) && MayHappen(c, Live(acts[..|acts| - 1]), acts[|acts| - 1]))
  }

  /** connect sweeps the table before it makes an entry. */
  ghost predicate Swept(acts: seq<Act>) {
    forall i :: 0 <= i < |acts| && acts[i].Connects? ==> i > 0 && acts[i - 1].Sweeps?
  }

  ghost predicate ComeFrom(acts: seq<Act>, clients: set<ClientKey>) {
    forall i :: 0 <= i < |acts| && acts[i].Connects? ==> acts[i].client in clients
  }

  /** A history of the server with nobody but these clients. */
  ghost predicate Happens(c: Config, acts: seq<Act>, now: int, clients: set<ClientKey>) {
    Ordered(acts, now) && Admitted(c, acts) && Swept(acts) && ComeFrom(acts, clients)
  }

  // ----- the bound, and what the server really accepts -----

  /** What the limit of a client has let through in a span of one window's length. */
  ghost function GotThrough(c: Config, acts: seq<Act>, client: ClientKey, m: Measure, from: int): nat {
    Weigh(Uses(OfClient(client), m, Run(c, acts).log), Within(from, from + c.windowNanos))
  }

  ghost predicate AlwaysAtMostTwice(c: Config, clients: set<ClientKey>, m: Measure)
    requires ValidConfig(c)
  {
    forall acts, now, client, from :: Happens(c, acts, now, clients)
                                      ==> GotThrough(c, acts, client, m, from) <= 2 * LimitOf(c, OfClient(client), m)
  }

  predicate AcceptedWithin(x: Entry, client: ClientKey, from: int, until: int) {
    x.client == client && x.decision == ACCEPTED && from <= x.at < until
  }

  /** The frames of a client that passed all three limits in a span. */
  function AcceptedFrames(log: seq<Entry>, client: ClientKey, from: int, until: int): nat {
    if log == [] then 0
    else AcceptedFrames(log[..|log| - 1], client, from, until) + if AcceptedWithin(log[|log| - 1], client, from, until) then 1 else 0
  }

  ghost function GotAccepted(c: Config, acts: seq<Act>, client: ClientKey, from: int): nat {
    AcceptedFrames(Run(c, acts).log, client, from, from + c.windowNanos)
  }

  ghost predicate AcceptedAtMostTwice(c: Config, clients: set<ClientKey>) {
    forall acts, now, client, from :: Happens(c, acts, now, clients)
                                      ==> GotAccepted(c, acts, client, from) <= 2 * c.client.frames
  }

  lemma {:induction false} AcceptedGotThrough(log: seq<Entry>, client: ClientKey, from: int, until: int)
    ensures AcceptedFrames(log, client, from, until) <= Weigh(Uses(OfClient(client), Frames, log), Within(from, until))
  {
    if log != [] {
      var front, x := log[..|log| - 1], log[|log| - 1];
      AcceptedGotThrough(front, client, from, until);
      OneMoreUse(front, x, client, Frames, from, until);
      assert front + [x] == log;
    }
  }

  lemma OneMoreUse(log: seq<Entry>, x: Entry, client: ClientKey, m: Measure, from: int, until: int)
    ensures Weigh(Uses(OfClient(client), m, log + [x]), Within(from, until))
            == Weigh(Uses(OfClient(client), m, log), Within(from, until))
               + if LetThrough(OfClient(client), x) && from <= x.at < until then WeightOf(m, x.bytes) else 0
  {
    var uses := Uses(OfClient(client), m, log);
    UsesMore(OfClient(client), m, log, x);
    WeighLast(uses, Use(x.at, x.clientStart, WeightOf(m, x.bytes)), Within(from, until));
    assert uses + [] == uses;
  }

  lemma OneMoreAccepted(log: seq<Entry>, x: Entry, client: ClientKey, from: int, until: int)
    ensures AcceptedFrames(log + [x], client, from, until)
            == AcceptedFrames(log, client, from, until) + if AcceptedWithin(x, client, from, until) then 1 else 0
  {
    assert (log + [x])[..|log|] == log;
  }

  // ----- with room for everybody nobody is evicted -----

  lemma NextWithin(c: Config, h: History, act: Act, clients: set<ClientKey>)
    requires Aligned(h.limiter) && h.limiter.clients.Keys <= clients && (act.Connects? ==> act.client in clients)
    ensures Next(c, h, act).limiter.clients.Keys <= clients
  {
    match act
    case Connects(_) => EvictKeepsActive(h.limiter.order, h.limiter.clients, c.maximumTrackedClients);
    case Disconnects(_) =>
    case Sweeps(_) =>
    case Sends(client, session, now, bytes) =>
      if client in h.limiter.clients {
        Outcome(c, h.limiter, client, SessionWindow(h, session), now, bytes);
      }
  }

  lemma {:induction false} RunWithin(c: Config, acts: seq<Act>, clients: set<ClientKey>)
    requires ComeFrom(acts, clients)
    ensures Run(c, acts).limiter.clients.Keys <= clients
  {
    if acts != [] {
      var front := acts[..|acts| - 1];
      RunWithin(c, front, clients);
      RunAligned(c, front);
      NextWithin(c, Run(c, front), acts[|acts| - 1], clients);
    }
  }

  /** The table is not full when somebody connects who is not in it. */
  lemma RoomLeft(c: Config, h: History, client: ClientKey, clients: set<ClientKey>)
    requires h.limiter.clients.Keys <= clients && client in clients && |clients| <= c.maximumTrackedClients
    ensures client in h.limiter.clients || |h.limiter.clients| < c.maximumTrackedClients
  {
    if client !in h.limiter.clients {
      SubsetSize(h.limiter.clients.Keys, clients);
      assert |h.limiter.clients| == |h.limiter.clients.Keys|;
    }
  }

  function StateOf(h: History, client: ClientKey): ClientState {
    if client in h.limiter.clients then h.limiter.clients[client] else ClientState(UNOPENED, 0)
  }

  /** Nothing but the table has changed. */
  ghost predicate SameRecord(h: History, h': History) {
    h'.log == h.log && h'.sessions == h.sessions && h'.limiter.serverWindow == h.limiter.serverWindow
  }

  /** Connecting with room in the table changes nobody else's entry. */
  lemma ConnectsWithRoom(c: Config, h: History, client: ClientKey, h': History)
    requires client in h.limiter.clients || |h.limiter.clients| < c.maximumTrackedClients
    requires h' == Next(c, h, Connects(client))
    ensures var s := StateOf(h, client);
            h'.limiter.clients == h.limiter.clients[client := ClientState(s.window, s.activeConnections + 1)]
    ensures SameRecord(h, h')
  {
    if client !in h.limiter.clients {
      assert Evict(h.limiter.order, h.limiter.clients, c.maximumTrackedClients) == h.limiter.clients;
    }
  }

  lemma FewClientsAreNeverEvicted(c: Config, acts: seq<Act>, clients: set<ClientKey>, client: ClientKey)
    requires ComeFrom(acts, clients) && |clients| <= c.maximumTrackedClients
    ensures NeverEvicted(c, acts, client)
  {
    forall i | 0 <= i < |acts|
      ensures !Evicts(c, Run(c, acts[..i]), acts[i], client)
    {
      if acts[i].Connects? {
        var h := Run(c, acts[..i]);
        RunWithin(c, acts[..i], clients);
        RoomLeft(c, h, acts[i].client, clients);
        ConnectsWithRoom(c, h, acts[i].client, Next(c, h, acts[i]));
      }
    }
  }

  // ----- without room for everybody the bound is broken -----

  /** A history of the server that ends now, with these connections and in this state. */
  ghost predicate Reached(c: Config, acts: seq<Act>, now: int, clients: set<ClientKey>, live: multiset<ClientKey>, h: History) {
    Happens(c, acts, now, clients) && Live(acts) == live && Run(c, acts) == h
  }

  lemma {:induction false} OrderedLater(acts: seq<Act>, now: int, later: int)
    requires Ordered(acts, now) && now <= later
    ensures Ordered(acts, later)
    decreases |acts|
  {
    if acts != [] {
      OrderedLater(acts[..|acts| - 1], TimeOf(acts[|acts| - 1], now), TimeOf(acts[|acts| - 1], later));
    }
  }

  lemma OneMoreAct(c: Config, acts: seq<Act>, now: int, clients: set<ClientKey>, live: multiset<ClientKey>, h: History, act: Act)
    requires Reached(c, acts, now, clients, live, h) && TimeOf(act, now) >= now && MayHappen(c, live, act)
    requires act.Connects? ==> act.client in clients && acts != [] && acts[|acts| - 1].Sweeps?
    ensures Reached(c, acts + [act], TimeOf(act, now), clients, Joined(live, act), Next(c, h, act))
  {
    assert (acts + [act])[..|acts|] == acts;
    OrderedLater(acts, now, TimeOf(act, now));
  }

  /** Somebody connects: the table is swept and an entry made. */
  lemma Arriving(c: Config, acts: seq<Act>, now: int, clients: set<ClientKey>, live: multiset<ClientKey>, h: History, client: ClientKey)
      returns (acts': seq<Act>)
    requires Reached(c, acts, now, clients, live, h) && |live| < c.maximumTrackedClients && client in clients
    ensures Reached(c, acts', now, clients, live + multiset{client}, Next(c, Next(c, h, Sweeps(now)), Connects(client)))
  {
    var swept := acts + [Sweeps(now)];
    OneMoreAct(c, acts, now, clients, live, h, Sweeps(now));
    OneMoreAct(c, swept, now, clients, live, Next(c, h, Sweeps(now)), Connects(client));
    acts' := swept + [Connects(client)];
  }

  /** Anything but a connection happens. */
  lemma Acting(c: Config, acts: seq<Act>, now: int, clients: set<ClientKey>, live: multiset<ClientKey>, h: History, act: Act)
      returns (acts': seq<Act>)
    requires Reached(c, acts, now, clients, live, h) && TimeOf(act, now) == now && MayHappen(c, live, act) && !act.Connects?
    ensures Reached(c, acts', now, clients, Joined(live, act), Next(c, h, act))
  {
    OneMoreAct(c, acts, now, clients, live, h, act);
    acts' := acts + [act];
  }

  /** A client and as many others as the table has room for. */
  ghost predicate Rivals(c: Config, clients: set<ClientKey>, client: ClientKey, others: seq<ClientKey>) {
    |others| == c.maximumTrackedClients && NoDup(others) && client !in others && Elems(others) + {client} <= clients
  }

  /** Nobody in the table is connected or has sent anything. */
  ghost predicate Forgettable(h: History) {
    forall client :: client in h.limiter.clients ==> h.limiter.clients[client] == ClientState(UNOPENED, 0)
  }

  /** The client has sent a frame in a window of its own, and only the server may have refused it. */
  ghost predicate Sent(c: Config, h: History, client: ClientKey, session: SessionKey, now: int, bytes: nat, h': History) {
    var server := Charged(h.limiter.serverWindow, now, c.windowNanos, bytes);
    && |h'.log| == |h.log| + 1 && h'.log == h.log + [h'.log[|h.log|]]
    && h'.log[|h.log|].client == client && h'.log[|h.log|].at == now && h'.log[|h.log|].bytes == bytes
    && Passed(h'.log[|h.log|].decision) >= 2
    && (h'.log[|h.log|].decision == ACCEPTED <==> Judge(server, c.server) == Pass)
    && h'.limiter.serverWindow == server && h'.sessions.Keys == h.sessions.Keys + {session}
  }

  lemma FirstFrame(c: Config, h: History, client: ClientKey, session: SessionKey, now: int, bytes: nat, h': History)
    requires ValidConfig(c) && bytes <= 1 && session !in h.sessions
    requires h.limiter.clients == map[client := ClientState(UNOPENED, 1)]
    requires h' == Next(c, h, Sends(client, session, now, bytes))
    ensures Sent(c, h, client, session, now, bytes, h')
    ensures h'.limiter.clients == map[client := ClientState(UsageWindow(Some(now), 1, bytes), 1)]
  {
    Outcome(c, h.limiter, client, SessionWindow(h, session), now, bytes);
    assert h'.limiter.clients.Keys == {client};
  }

  /** A client that the table does not know connects, sends one frame and leaves. */
  function Visited(c: Config, h: History, client: ClientKey, session: SessionKey, now: int, bytes: nat): History {
    var joined := Next(c, Next(c, h, Sweeps(now)), Connects(client));
    Next(c, Next(c, joined, Sends(client, session, now, bytes)), Disconnects(client))
  }

  lemma ArrivesAlone(c: Config, h: History, client: ClientKey, now: int, h': History)
    requires c.maximumTrackedClients > 0 && Forgettable(h) && h' == Next(c, Next(c, h, Sweeps(now)), Connects(client))
    ensures h'.limiter.clients == map[client := ClientState(UNOPENED, 1)] && SameRecord(h, h')
  {
    var swept := Next(c, h, Sweeps(now));
    assert swept.limiter.clients == map[];
    ConnectsWithRoom(c, swept, client, h');
  }

  lemma LeavesAlone(c: Config, h: History, client: ClientKey, window: UsageWindow, h': History)
    requires h.limiter.clients == map[client := ClientState(window, 1)] && h' == Next(c, h, Disconnects(client))
    ensures h'.limiter.clients == map[client := ClientState(window, 0)] && SameRecord(h, h')
  {
  }

  lemma VisitIsSent(c: Config, h: History, client: ClientKey, session: SessionKey, now: int, bytes: nat, h': History)
    requires ValidConfig(c) && Forgettable(h) && bytes <= 1 && session !in h.sessions
    requires h' == Visited(c, h, client, session, now, bytes)
    ensures Sent(c, h, client, session, now, bytes, h')
    ensures h'.limiter.clients == map[client := ClientState(UsageWindow(Some(now), 1, bytes), 0)]
  {
    var joined := Next(c, Next(c, h, Sweeps(now)), Connects(client));
    ArrivesAlone(c, h, client, now, joined);
    var sent := Next(c, joined, Sends(client, session, now, bytes));
    FirstFrame(c, joined, client, session, now, bytes, sent);
    LeavesAlone(c, sent, client, UsageWindow(Some(now), 1, bytes), h');
  }

  lemma Visit(c: Config, acts: seq<Act>, now: int, clients: set<ClientKey>, h: History, client: ClientKey, session: SessionKey, bytes: nat)
      returns (acts': seq<Act>)
    requires Reached(c, acts, now, clients, multiset{}, h) && client in clients && c.maximumTrackedClients > 0
    ensures Reached(c, acts', now, clients, multiset{}, Visited(c, h, client, session, now, bytes))
  {
    var joined := Next(c, Next(c, h, Sweeps(now)), Connects(client));
    var act := Sends(client, session, now, bytes);
    acts' := Arriving(c, acts, now, clients, multiset{}, h, client);
    acts' := Acting(c, acts', now, clients, multiset{client}, joined, act);
    acts' := Acting(c, acts', now, clients, multiset{client}, Next(c, joined, act), Disconnects(client));
  }

  /** One client has left, these others are connected and have sent nothing. */
  function Crowded(client: ClientKey, window: UsageWindow, others: set<ClientKey>): map<ClientKey, ClientState> {
    map k | k in others + {client} :: if k == client then ClientState(window, 0) else ClientState(UNOPENED, 1)
  }

  function AllIdle(clients: set<ClientKey>, connected: set<ClientKey>): map<ClientKey, ClientState> {
    map k | k in clients :: ClientState(UNOPENED, if k in connected then 1 else 0)
  }

  lemma SweepSparesCrowd(c: Config, h: History, client: ClientKey, window: UsageWindow, others: set<ClientKey>, now: int)
    requires c.windowNanos > 0 && window.startedAt == Some(now) && client !in others
    requires h.limiter.clients == Crowded(client, window, others)
    ensures Next(c, h, Sweeps(now)).limiter.clients == h.limiter.clients
  {
  }

  /** Making room in a table that is full removes the one client who has left. */
  lemma EvictsTheOne(order: seq<ClientKey>, clients: map<ClientKey, ClientState>, client: ClientKey, window: UsageWindow, others: set<ClientKey>)
    requires NoDup(order) && (forall key :: key in order <==> key in clients)
    requires clients == Crowded(client, window, others) && client !in others
    ensures Evict(order, clients, |others| + 1).Keys == others
  {
    var left := Evict(order, clients, |others| + 1);
    EvictKeepsActive(order, clients, |others| + 1);
    forall key | key in others
      ensures key in left
    {
      assert Active(clients, key);
    }
    assert |left| == |left.Keys| && !Active(clients, client);
    assert client in left ==> left.Keys == others + {client};
  }

  lemma EvictsToIdle(order: seq<ClientKey>, clients: map<ClientKey, ClientState>, client: ClientKey, window: UsageWindow, others: set<ClientKey>)
    requires NoDup(order) && (forall key :: key in order <==> key in clients)
    requires clients == Crowded(client, window, others) && client !in others
    ensures Evict(order, clients, |others| + 1) == AllIdle(others, others)
  {
    EvictsTheOne(order, clients, client, window, others);
    EvictKeepsActive(order, clients, |others| + 1);
  }

  /** The newcomer that finds the table full takes the place of the one who left. */
  lemma TakesThePlace(c: Config, h: History, client: ClientKey, window: UsageWindow, others: set<ClientKey>, newcomer: ClientKey, h': History)
    requires Aligned(h.limiter) && h.limiter.clients == Crowded(client, window, others)
    requires client !in others && newcomer !in others + {client} && |others| + 1 == c.maximumTrackedClients
    requires h' == Next(c, h, Connects(newcomer))
    ensures h'.limiter.clients == AllIdle(others, others)[newcomer := ClientState(UNOPENED, 1)]
  {
    EvictsToIdle(h.limiter.order, h.limiter.clients, client, window, others);
    var left := AllIdle(others, others);
    assert |left| == |left.Keys| && left.Keys == others;
  }

  lemma CrowdSize(client: ClientKey, window: UsageWindow, others: seq<ClientKey>, i: nat)
    requires NoDup(others) && client !in others && i < |others|
    ensures |Crowded(client, window, Elems(others[..i]))| == i + 1
    ensures others[i] !in Elems(others[..i]) + {client} && client !in Elems(others[..i]) && |Elems(others[..i])| == i
  {
    NoDupSize(others[..i]);
    assert Crowded(client, window, Elems(others[..i])).Keys == Elems(others[..i]) + {client};
  }

  lemma OneMoreElement(s: seq<ClientKey>, i: nat)
    requires i < |s|
    ensures Elems(s[..i + 1]) == Elems(s[..i]) + {s[i]} && multiset(s[..i + 1]) == multiset(s[..i]) + multiset{s[i]}
  {
    assert s[..i + 1] == s[..i] + [s[i]];
  }

  /** One of the others connects, with room in the table. */
  lemma Crowding(c: Config, h: History, client: ClientKey, window: UsageWindow, others: seq<ClientKey>, i: nat, now: int, h': History)
    requires c.windowNanos > 0 && window.startedAt == Some(now) && NoDup(others) && client !in others
    requires i + 1 < |others| == c.maximumTrackedClients
    requires h.limiter.clients == Crowded(client, window, Elems(others[..i]))
    requires h' == Next(c, Next(c, h, Sweeps(now)), Connects(others[i]))
    ensures h'.limiter.clients == Crowded(client, window, Elems(others[..i + 1]))
  {
    SweepSparesCrowd(c, h, client, window, Elems(others[..i]), now);
    CrowdSize(client, window, others, i);
    ConnectsWithRoom(c, Next(c, h, Sweeps(now)), others[i], h');
    OneMoreInCrowd(client, window, others, i);
  }

  lemma OneMoreInCrowd(client: ClientKey, window: UsageWindow, others: seq<ClientKey>, i: nat)
    requires i < |others| && NoDup(others) && client !in others
    ensures Crowded(client, window, Elems(others[..i]))[others[i] := ClientState(UNOPENED, 1)]
            == Crowded(client, window, Elems(others[..i + 1]))
  {
    OneMoreElement(others, i);
  }

  /** The last of the others connects, and the client who left is forgotten. */
  lemma CrowdingOut(c: Config, h: History, client: ClientKey, window: UsageWindow, others: seq<ClientKey>, i: nat, now: int, h': History)
    requires Aligned(h.limiter) && c.windowNanos > 0 && window.startedAt == Some(now) && NoDup(others) && client !in others
    requires i + 1 == |others| == c.maximumTrackedClients
    requires h.limiter.clients == Crowded(client, window, Elems(others[..i]))
    requires h' == Next(c, Next(c, h, Sweeps(now)), Connects(others[i]))
    ensures h'.limiter.clients == AllIdle(Elems(others), Elems(others))
  {
    SweepSparesCrowd(c, h, client, window, Elems(others[..i]), now);
    CrowdSize(client, window, others, i);
    NextAligned(c, h, Sweeps(now));
    TakesThePlace(c, Next(c, h, Sweeps(now)), client, window, Elems(others[..i]), others[i], h');
    AllOthers(others, i);
  }

  lemma AllOthers(others: seq<ClientKey>, i: nat)
    requires i + 1 == |others|
    ensures AllIdle(Elems(others[..i]), Elems(others[..i]))[others[i] := ClientState(UNOPENED, 1)] == AllIdle(Elems(others), Elems(others))
  {
    OneMoreElement(others, i);
    assert others[..i + 1] == others;
  }

  lemma ConnectingKeepsRecord(c: Config, h: History, now: int, client: ClientKey)
    ensures SameRecord(h, Next(c, Next(c, h, Sweeps(now)), Connects(client)))
  {
  }

  /** As many others connect as the table has room for, so that the client who left is forgotten. */
  lemma {:induction false} Displace(
    c: Config, acts: seq<Act>, now: int, clients: set<ClientKey>, h: History, client: ClientKey, window: UsageWindow,
    others: seq<ClientKey>, i: nat)
      returns (acts': seq<Act>, h': History)
    requires |others| == c.maximumTrackedClients && NoDup(others) && client !in others && Elems(others) <= clients && i < |others|
    requires Reached(c, acts, now, clients, multiset(others[..i]), h) && c.windowNanos > 0 && window.startedAt == Some(now)
    requires h.limiter.clients == Crowded(client, window, Elems(others[..i]))
    ensures Reached(c, acts', now, clients, multiset(others), h') && SameRecord(h, h')
    ensures h'.limiter.clients == AllIdle(Elems(others), Elems(others))
    decreases |others| - i
  {
    var h1 := Next(c, Next(c, h, Sweeps(now)), Connects(others[i]));
    ConnectingKeepsRecord(c, h, now, others[i]);
    OneMoreElement(others, i);
    acts' := Arriving(c, acts, now, clients, multiset(others[..i]), h, others[i]);
    h' := h1;
    if i + 1 < |others| {
      Crowding(c, h, client, window, others, i, now, h1);
      acts', h' := Displace(c, acts', now, clients, h1, client, window, others, i + 1);
    } else {
      RunAligned(c, acts);
      CrowdingOut(c, h, client, window, others, i, now, h1);
      assert others[..i + 1] == others;
    }
  }

  /** They leave again. */
  lemma {:induction false} Disperse(c: Config, acts: seq<Act>, now: int, clients: set<ClientKey>, h: History, others: seq<ClientKey>, i: nat)
      returns (acts': seq<Act>, h': History)
    requires i <= |others| && NoDup(others) && Reached(c, acts, now, clients, multiset(others[..i]), h)
    requires h.limiter.clients == AllIdle(Elems(others), Elems(others[..i]))
    ensures Reached(c, acts', now, clients, multiset{}, h') && Forgettable(h') && SameRecord(h, h')
    decreases i
  {
    if i == 0 {
      acts', h' := acts, h;
    } else {
      var h1 := Next(c, h, Disconnects(others[i - 1]));
      Dispersing(c, h, others, i, h1);
      var acts1 := OneLeaves(c, acts, now, clients, h, others, i);
      acts', h' := Disperse(c, acts1, now, clients, h1, others, i - 1);
    }
  }

  lemma OneLeaves(c: Config, acts: seq<Act>, now: int, clients: set<ClientKey>, h: History, others: seq<ClientKey>, i: nat)
      returns (acts': seq<Act>)
    requires 0 < i <= |others| && Reached(c, acts, now, clients, multiset(others[..i]), h)
    ensures Reached(c, acts', now, clients, multiset(others[..i - 1]), Next(c, h, Disconnects(others[i - 1])))
  {
    OneMoreElement(others, i - 1);
    acts' := Acting(c, acts, now, clients, multiset(others[..i]), h, Disconnects(others[i - 1]));
    assert multiset(others[..i]) - multiset{others[i - 1]} == multiset(others[..i - 1]);
  }

  lemma Dispersing(c: Config, h: History, others: seq<ClientKey>, i: nat, h': History)
    requires 0 < i <= |others| && NoDup(others) && h.limiter.clients == AllIdle(Elems(others), Elems(others[..i]))
    requires h' == Next(c, h, Disconnects(others[i - 1]))
    ensures SameRecord(h, h') && h'.limiter.clients == AllIdle(Elems(others), Elems(others[..i - 1]))
  {
    OneMoreElement(others, i - 1);
    assert others[i - 1] in Elems(others);
  }

  lemma NobodyElseYet(client: ClientKey, window: UsageWindow, others: seq<ClientKey>)
    ensures Crowded(client, window, Elems(others[..0])) == map[client := ClientState(window, 0)]
    ensures multiset(others[..0]) == multiset{} && others[..|others|] == others
  {
  }

  lemma SentAndSame(c: Config, h: History, client: ClientKey, session: SessionKey, now: int, bytes: nat, h1: History, h2: History)
    requires Sent(c, h, client, session, now, bytes, h1) && SameRecord(h1, h2)
    ensures Sent(c, h, client, session, now, bytes, h2)
  {
  }

  /** One round: the client gets a frame through, and is forgotten. */
  lemma Round(c: Config, acts: seq<Act>, now: int, clients: set<ClientKey>, h: History, client: ClientKey, others: seq<ClientKey>, session: SessionKey, bytes: nat)
      returns (acts': seq<Act>, h': History)
    requires ValidConfig(c) && Reached(c, acts, now, clients, multiset{}, h) && Forgettable(h)
    requires Rivals(c, clients, client, others)
    requires bytes <= 1 && session !in h.sessions
    ensures Reached(c, acts', now, clients, multiset{}, h') && Forgettable(h') && Sent(c, h, client, session, now, bytes, h')
  {
    var visited := Visited(c, h, client, session, now, bytes);
    VisitIsSent(c, h, client, session, now, bytes, visited);
    acts' := Visit(c, acts, now, clients, h, client, session, bytes);
    NobodyElseYet(client, UsageWindow(Some(now), 1, bytes), others);
    var crowded;
    acts', crowded := Displace(c, acts', now, clients, visited, client, UsageWindow(Some(now), 1, bytes), others, 0);
    acts', h' := Disperse(c, acts', now, clients, crowded, others, |others|);
    SentAndSame(c, h, client, session, now, bytes, visited, crowded);
    SentAndSame(c, h, client, session, now, bytes, crowded, h');
  }

  lemma NothingYet(c: Config, now: int, clients: set<ClientKey>)
    ensures Reached(c, [], now, clients, multiset{}, NO_HISTORY) && Forgettable(NO_HISTORY)
  {
  }

  /** Any number of bytes within a single window. */
  lemma ManyBytes(c: Config, clients: set<ClientKey>, client: ClientKey, others: seq<ClientKey>, n: nat) returns (acts: seq<Act>)
    requires ValidConfig(c)
    requires Rivals(c, clients, client, others)
    ensures Happens(c, acts, 0, clients) && GotThrough(c, acts, client, Bytes, 0) == n
  {
    acts := [];
    var h := NO_HISTORY;
    NothingYet(c, 0, clients);
    var i := 0;
    while i < n
      invariant i <= n
      invariant Reached(c, acts, 0, clients, multiset{}, h) && Forgettable(h)
      invariant forall s :: s in h.sessions ==> s < i
      invariant Weigh(Uses(OfClient(client), Bytes, h.log), Within(0, c.windowNanos)) == i
    {
      var before := h;
      acts, h := Round(c, acts, 0, clients, before, client, others, i, 1);
      OneMoreUse(before.log, h.log[|before.log|], client, Bytes, 0, c.windowNanos);
      i := i + 1;
    }
  }

  /** Between two rounds: nobody is connected, and the next number of a session is free. */
  ghost predicate Resting(c: Config, acts: seq<Act>, now: int, clients: set<ClientKey>, h: History) {
    && Reached(c, acts, now, clients, multiset{}, h) && Forgettable(h)
    && forall s :: s in h.sessions ==> s < |h.log|
  }

  lemma RestingLater(c: Config, acts: seq<Act>, now: int, later: int, clients: set<ClientKey>, h: History)
    requires Resting(c, acts, now, clients, h) && now <= later
    ensures Resting(c, acts, later, clients, h)
  {
    OrderedLater(acts, now, later);
  }

  /** The server has counted i frames of no length since `start`, and accepted n of the client's in the span. */
  ghost predicate Counting(c: Config, h: History, client: ClientKey, start: int, i: nat, from: int, n: nat) {
    && h.limiter.serverWindow == UsageWindow(Some(start), i, 0)
    && AcceptedFrames(h.log, client, from, from + c.windowNanos) == n
  }

  lemma RestingRound(
    c: Config, acts: seq<Act>, now: int, clients: set<ClientKey>, h: History, client: ClientKey, others: seq<ClientKey>, from: int)
      returns (acts': seq<Act>, h': History)
    requires ValidConfig(c) && Rivals(c, clients, client, others) && Resting(c, acts, now, clients, h)
    ensures Resting(c, acts', now, clients, h')
    ensures var server := Charged(h.limiter.serverWindow, now, c.windowNanos, 0);
            && h'.limiter.serverWindow == server
            && AcceptedFrames(h'.log, client, from, from + c.windowNanos)
               == AcceptedFrames(h.log, client, from, from + c.windowNanos)
                  + if Judge(server, c.server) == Pass && from <= now < from + c.windowNanos then 1 else 0
  {
    acts', h' := Round(c, acts, now, clients, h, client, others, |h.log|, 0);
    OneMoreAccepted(h.log, h'.log[|h.log|], client, from, from + c.windowNanos);
  }

  /** Some rounds with frames of no length at one time. */
  lemma {:induction false} SomeRounds(
    c: Config, acts: seq<Act>, now: int, clients: set<ClientKey>, h: History, client: ClientKey, others: seq<ClientKey>,
    k: nat, start: int, i: nat, from: int, n: nat)
      returns (acts': seq<Act>, h': History)
    requires ValidConfig(c) && Rivals(c, clients, client, others) && Resting(c, acts, now, clients, h)
    requires Counting(c, h, client, start, i, from, n) && from <= now < from + c.windowNanos
    requires now - start < c.windowNanos && i + k <= c.server.frames
    ensures Resting(c, acts', now, clients, h') && Counting(c, h', client, start, i + k, from, n + k)
    decreases k
  {
    if k == 0 {
      acts', h' := acts, h;
    } else {
      var acts1, h1 := RestingRound(c, acts, now, clients, h, client, others, from);
      acts', h' := SomeRounds(c, acts1, now, clients, h1, client, others, k - 1, start, i + 1, from, n + 1);
    }
  }

  /** A round that opens a new window of the server. */
  lemma OpeningRound(
    c: Config, acts: seq<Act>, now: int, clients: set<ClientKey>, h: History, client: ClientKey, others: seq<ClientKey>, from: int, n: nat)
      returns (acts': seq<Act>, h': History)
    requires ValidConfig(c) && Rivals(c, clients, client, others) && Resting(c, acts, now, clients, h)
    requires IsExpired(h.limiter.serverWindow, now, c.windowNanos)
    requires AcceptedFrames(h.log, client, from, from + c.windowNanos) == n
    ensures Resting(c, acts', now, clients, h')
    ensures Counting(c, h', client, now, 1, from, if from <= now < from + c.windowNanos then n + 1 else n)
  {
    acts', h' := RestingRound(c, acts, now, clients, h, client, others, from);
  }

  /** One frame opens the server's window, and just before it ends the client gets all but one of twice its limit. */
  lemma FirstWindow(c: Config, clients: set<ClientKey>, client: ClientKey, others: seq<ClientKey>, from: int, twice: nat)
      returns (acts: seq<Act>, h: History)
    requires ValidConfig(c) && Rivals(c, clients, client, others) && from == c.windowNanos - 1 && twice == 2 * c.client.frames
    ensures Resting(c, acts, from, clients, h) && Counting(c, h, client, 0, twice, from, twice - 1)
  {
    NothingYet(c, 0, clients);
    var acts1, h1 := OpeningRound(c, [], 0, clients, NO_HISTORY, client, others, from, 0);
    RestingLater(c, acts1, 0, from, clients, h1);
    acts, h := SomeRounds(c, acts1, from, clients, h1, client, others, twice - 1, 0, 1, from, 0);
  }

  /** Two more frames in the server's next window. */
  lemma SecondWindow(
    c: Config, clients: set<ClientKey>, client: ClientKey, others: seq<ClientKey>, acts: seq<Act>, h: History, from: int, twice: nat)
      returns (acts': seq<Act>, h': History)
    requires ValidConfig(c) && Rivals(c, clients, client, others) && from == c.windowNanos - 1 && twice == 2 * c.client.frames
    requires Resting(c, acts, from, clients, h) && Counting(c, h, client, 0, twice, from, twice - 1)
    ensures Resting(c, acts', from + 1, clients, h') && Counting(c, h', client, from + 1, 2, from, twice + 1)
  {
    var w := from + 1;
    RestingLater(c, acts, from, w, clients, h);
    var acts1, h1 := OpeningRound(c, acts, w, clients, h, client, others, from, twice - 1);
    acts', h' := SomeRounds(c, acts1, w, clients, h1, client, others, 1, w, 1, from, twice);
  }

  /** More than twice the client's limit of frames is accepted within one window's length. */
  lemma ManyAccepted(c: Config, clients: set<ClientKey>, client: ClientKey, others: seq<ClientKey>, from: int, twice: nat)
      returns (acts: seq<Act>, h: History)
    requires ValidConfig(c) && Rivals(c, clients, client, others) && from == c.windowNanos - 1 && twice == 2 * c.client.frames
    ensures Resting(c, acts, from + 1, clients, h) && Counting(c, h, client, from + 1, 2, from, twice + 1)
  {
    var acts1, h1 := FirstWindow(c, clients, client, others, from, twice);
    acts, h := SecondWindow(c, clients, client, others, acts1, h1, from, twice);
  }

  lemma Counted(
    c: Config, acts: seq<Act>, now: int, clients: set<ClientKey>, h: History, client: ClientKey, start: int, i: nat, from: int, n: nat)
    requires Resting(c, acts, now, clients, h) && Counting(c, h, client, start, i, from, n)
    ensures Happens(c, acts, now, clients) && GotAccepted(c, acts, client, from) == n
  {
  }

  lemma {:induction false} Enumerate(s: set<ClientKey>, n: nat) returns (r: seq<ClientKey>)
    requires n <= |s|
    ensures |r| == n && NoDup(r) && Elems(r) <= s
    decreases n
  {
    r := [];
    if n > 0 {
      var x :| x in s;
      var rest := Enumerate(s - {x}, n - 1);
      assert forall y :: y in rest ==> y in Elems(rest);
      r := [x] + rest;
    }
  }

  lemma OneTooMany(c: Config, clients: set<ClientKey>) returns (client: ClientKey, others: seq<ClientKey>)
    requires ValidConfig(c) && |clients| > c.maximumTrackedClients
    ensures Rivals(c, clients, client, others)
  {
    client :| client in clients;
    others := Enumerate(clients - {client}, c.maximumTrackedClients);
    assert client in others ==> client in Elems(others);
  }

  // ----- exactly when the bound holds -----

  lemma FewClientsAreBounded(c: Config, acts: seq<Act>, now: int, clients: set<ClientKey>, client: ClientKey, m: Measure, from: int)
    requires ValidConfig(c) && Ordered(acts, now) && ComeFrom(acts, clients) && |clients| <= c.maximumTrackedClients
    ensures GotThrough(c, acts, client, m, from) <= 2 * LimitOf(c, OfClient(client), m)
  {
    FewClientsAreNeverEvicted(c, acts, clients, client);
    AtMostTwice(c, acts, now, OfClient(client), m, from);
  }

  lemma AcceptedIsGotThrough(c: Config, acts: seq<Act>, client: ClientKey, from: int)
    ensures GotAccepted(c, acts, client, from) <= GotThrough(c, acts, client, Frames, from)
  {
    AcceptedGotThrough(Run(c, acts).log, client, from, from + c.windowNanos);
  }

  lemma RoomSuffices(c: Config, clients: set<ClientKey>)
    requires ValidConfig(c) && |clients| <= c.maximumTrackedClients
    ensures AcceptedAtMostTwice(c, clients)
  {
    forall acts, now, client, from | Happens(c, acts, now, clients)
      ensures GotAccepted(c, acts, client, from) <= 2 * c.client.frames
    {
      FewClientsAreBounded(c, acts, now, clients, client, Frames, from);
      AcceptedIsGotThrough(c, acts, client, from);
    }
  }

  lemma RoomIsNeeded(c: Config, clients: set<ClientKey>)
    requires ValidConfig(c) && |clients| > c.maximumTrackedClients
    ensures !AcceptedAtMostTwice(c, clients)
  {
    var client, others := OneTooMany(c, clients);
    var from := c.windowNanos - 1;
    var acts, h := ManyAccepted(c, clients, client, others, from, 2 * c.client.frames);
    Counted(c, acts, from + 1, clients, h, client, from + 1, 2, from, 2 * c.client.frames + 1);
  }

  /**
   Whatever the configuration: in all histories of the server each client is held to twice its limit
   of accepted frames, if and only if the table has room for all clients that ever connect. (Of accepted
   bytes there may be fewer than that anyway, if the server's limit on frames is low.)
   */
  lemma AcceptedTwiceExactlyWithRoom(c: Config, clients: set<ClientKey>)
    requires ValidConfig(c)
    ensures AcceptedAtMostTwice(c, clients) <==> |clients| <= c.maximumTrackedClients
  {
    if |clients| <= c.maximumTrackedClients {
      RoomSuffices(c, clients);
    } else {
      RoomIsNeeded(c, clients);
    }
  }

  lemma TooMuch(c: Config, clients: set<ClientKey>, client: ClientKey, others: seq<ClientKey>, m: Measure)
      returns (acts: seq<Act>, now: int, from: int)
    requires ValidConfig(c)
    requires Rivals(c, clients, client, others)
    ensures Happens(c, acts, now, clients) && GotThrough(c, acts, client, m, from) > 2 * LimitOf(c, OfClient(client), m)
  {
    if m == Bytes {
      now, from := 0, 0;
      acts := ManyBytes(c, clients, client, others, 2 * c.client.bytes + 1);
    } else {
      from := c.windowNanos - 1;
      now := from + 1;
      var h;
      acts, h := ManyAccepted(c, clients, client, others, from, 2 * c.client.frames);
      Counted(c, acts, now, clients, h, client, now, 2, from, 2 * c.client.frames + 1);
      AcceptedIsGotThrough(c, acts, client, from);
    }
  }

  /** The same for the frames, and for the bytes, that the limit of a client lets through. */
  lemma TwiceExactlyWithRoom(c: Config, clients: set<ClientKey>, m: Measure)
    requires ValidConfig(c)
    ensures AlwaysAtMostTwice(c, clients, m) <==> |clients| <= c.maximumTrackedClients
  {
    if |clients| <= c.maximumTrackedClients {
      forall acts, now, client, from | Happens(c, acts, now, clients)
        ensures GotThrough(c, acts, client, m, from) <= 2 * LimitOf(c, OfClient(client), m)
      {
        FewClientsAreBounded(c, acts, now, clients, client, m, from);
      }
    } else {
      var client, others := OneTooMany(c, clients);
      var acts, now, from := TooMuch(c, clients, client, others, m);
      assert Happens(c, acts, now, clients) && GotThrough(c, acts, client, m, from) > 2 * LimitOf(c, OfClient(client), m);
    }
  }

  // ----- sweeping changes nothing that can be seen -----

  function WithoutSweeps(acts: seq<Act>): seq<Act> {
    if acts == [] then []
    else WithoutSweeps(acts[..|acts| - 1]) + if acts[|acts| - 1].Sweeps? then [] else [acts[|acts| - 1]]
  }

  ghost predicate SameOrExpired(c: Config, a: UsageWindow, b: UsageWindow, now: int) {
    a == b || (IsExpired(a, now, c.windowNanos) && IsExpired(b, now, c.windowNanos))
  }

  /** Two states that differ only in clients nobody would miss. */
  ghost predicate Alike(c: Config, a: History, b: History, live: multiset<ClientKey>, now: int) {
    && a.log == b.log && a.sessions == b.sessions && a.limiter.serverWindow == b.limiter.serverWindow
    && (forall k: ClientKey :: StateOf(a, k).activeConnections == StateOf(b, k).activeConnections == live[k])
    && (forall k: ClientKey :: SameOrExpired(c, StateOf(a, k).window, StateOf(b, k).window, now))
  }

  lemma AlikeLater(c: Config, a: History, b: History, live: multiset<ClientKey>, now: int, later: int)
    requires Alike(c, a, b, live, now) && now <= later
    ensures Alike(c, a, b, live, later)
  {
  }

  lemma SweptAlike(c: Config, a: History, b: History, live: multiset<ClientKey>, now: int)
    requires Alike(c, a, b, live, now)
    ensures Alike(c, Next(c, a, Sweeps(now)), b, live, now)
  {
  }

  lemma ReceivedAlike(c: Config, a: History, b: History, live: multiset<ClientKey>, act: Act)
    requires c.windowNanos > 0 && act.Sends? && Alike(c, a, b, live, act.now) && act.client in live
    ensures Alike(c, Next(c, a, act), Next(c, b, act), live, act.now)
  {
    assert live[act.client] > 0 && StateOf(a, act.client).activeConnections == StateOf(b, act.client).activeConnections == live[act.client];
    Outcome(c, a.limiter, act.client, SessionWindow(a, act.session), act.now, act.bytes);
    Outcome(c, b.limiter, act.client, SessionWindow(b, act.session), act.now, act.bytes);
    var a', b' := Next(c, a, act), Next(c, b, act);
    assert a'.log == b'.log && a'.sessions == b'.sessions;
    forall k: ClientKey | k != act.client
      ensures StateOf(a', k) == StateOf(a, k) && StateOf(b', k) == StateOf(b, k)
    {
    }
  }

  lemma LeavingAlike(c: Config, a: History, b: History, live: multiset<ClientKey>, now: int, client: ClientKey)
    requires Alike(c, a, b, live, now) && client in live
    ensures Alike(c, Next(c, a, Disconnects(client)), Next(c, b, Disconnects(client)), live - multiset{client}, now)
  {
    var a', b', live' := Next(c, a, Disconnects(client)), Next(c, b, Disconnects(client)), live - multiset{client};
    assert live[client] > 0 && StateOf(a, client).activeConnections == StateOf(b, client).activeConnections == live[client];
    forall k: ClientKey
      ensures StateOf(a', k).activeConnections == StateOf(b', k).activeConnections == live'[k]
    {
      assert live'[k] == if k == client then live[k] - 1 else live[k];
    }
  }

  lemma NextAlike(c: Config, a: History, b: History, live: multiset<ClientKey>, now: int, act: Act, clients: set<ClientKey>)
    requires c.windowNanos > 0 && Alike(c, a, b, live, now) && TimeOf(act, now) == now && MayHappen(c, live, act) && !act.Sweeps?
    requires a.limiter.clients.Keys <= clients && b.limiter.clients.Keys <= clients && |clients| <= c.maximumTrackedClients
    requires act.Connects? ==> act.client in clients
    ensures Alike(c, Next(c, a, act), Next(c, b, act), Joined(live, act), now)
  {
    match act
    case Connects(client) =>
      RoomLeft(c, a, client, clients);
      RoomLeft(c, b, client, clients);
      ConnectsWithRoom(c, a, client, Next(c, a, act));
      ConnectsWithRoom(c, b, client, Next(c, b, act));
    case Disconnects(client) => LeavingAlike(c, a, b, live, now, client);
    case Sends(_, _, _, _) => ReceivedAlike(c, a, b, live, act);
  }

  lemma {:induction false} UnsweptIsAdmitted(c: Config, acts: seq<Act>)
    ensures Live(WithoutSweeps(acts)) == Live(acts)
    ensures Admitted(c, WithoutSweeps(acts)) <==> Admitted(c, acts)
  {
    if acts != [] {
      var front, last := acts[..|acts| - 1], acts[|acts| - 1];
      UnsweptIsAdmitted(c, front);
      var rest := WithoutSweeps(front);
      assert (rest + [last])[..|rest|] == rest && rest + [] == rest;
    }
  }

  lemma {:induction false} UnsweptComeFrom(acts: seq<Act>, clients: set<ClientKey>)
    ensures ComeFrom(WithoutSweeps(acts), clients) <==> ComeFrom(acts, clients)
  {
    if acts != [] {
      var front, last := acts[..|acts| - 1], acts[|acts| - 1];
      UnsweptComeFrom(front, clients);
      MoreComeFrom(front, last, clients);
      MoreComeFrom(WithoutSweeps(front), last, clients);
      assert acts == front + [last] && WithoutSweeps(front) + [] == WithoutSweeps(front);
    }
  }

  lemma MoreComeFrom(acts: seq<Act>, act: Act, clients: set<ClientKey>)
    ensures ComeFrom(acts + [act], clients) <==> ComeFrom(acts, clients) && (act.Connects? ==> act.client in clients)
  {
    assert (acts + [act])[|acts|] == act;
    if ComeFrom(acts + [act], clients) {
      assert forall i :: 0 <= i < |acts| ==> acts[i] == (acts + [act])[i];
    }
  }

  lemma {:induction false} UnsweptAlike(c: Config, acts: seq<Act>, now: int, clients: set<ClientKey>)
    requires c.windowNanos > 0 && Ordered(acts, now) && Admitted(c, acts) && ComeFrom(acts, clients) && |clients| <= c.maximumTrackedClients
    ensures Alike(c, Run(c, acts), Run(c, WithoutSweeps(acts)), Live(acts), now)
    decreases |acts|
  {
    if acts != [] {
      var front, last := acts[..|acts| - 1], acts[|acts| - 1];
      var at := TimeOf(last, now);
      UnsweptAlike(c, front, at, clients);
      var a, b := Run(c, front), Run(c, WithoutSweeps(front));
      if last.Sweeps? {
        SweptAlike(c, a, b, Live(front), at);
        assert WithoutSweeps(front) + [] == WithoutSweeps(front);
      } else {
        UnsweptIsAdmitted(c, front);
        UnsweptComeFrom(front, clients);
        RunWithin(c, front, clients);
        RunWithin(c, WithoutSweeps(front), clients);
        NextAlike(c, a, b, Live(front), at, last, clients);
        RunMore(c, WithoutSweeps(front), last);
      }
      AlikeLater(c, Run(c, acts), Run(c, WithoutSweeps(acts)), Live(acts), at, now);
    }
  }

  /**
   Forgetting clients that are inactive and whose window has expired cannot be observed: with room for
   all clients, two histories that differ only in when the table is swept decide every frame alike.
   */
  lemma SweepsAreUnobservable(c: Config, acts: seq<Act>, acts': seq<Act>, now: int, clients: set<ClientKey>)
    requires ValidConfig(c) && Ordered(acts, now) && Ordered(acts', now) && WithoutSweeps(acts) == WithoutSweeps(acts')
    requires Admitted(c, acts) && ComeFrom(acts, clients) && |clients| <= c.maximumTrackedClients
    ensures Run(c, acts).log == Run(c, acts').log
    ensures Run(c, acts).sessions == Run(c, acts').sessions
    ensures Run(c, acts).limiter.serverWindow == Run(c, acts').limiter.serverWindow
  {
    UnsweptIsAdmitted(c, acts);
    UnsweptComeFrom(acts, clients);
    UnsweptIsAdmitted(c, acts');
    UnsweptComeFrom(acts', clients);
    UnsweptAlike(c, acts, now, clients);
    UnsweptAlike(c, acts', now, clients);
  }
}
