/**
 What the inbound limiter lets through over a whole history of connections and frames. Unlike the
 TURN limiter it may forget a client that has no connection, to make room for another one.
 */
module InboundHistory {
  import opened Common
  import opened FixedWindow
  import opened InboundLimiter

  const NANOS_PER_SECOND := 1_000_000_000

  type SessionKey = nat

  /**
   What the limiter is asked to do between a start and a stop of the server, in the order of the
   server's clock. A stop closes all sessions and clears the limiter, which begins another history.
   */
  datatype Act =
    | Connects(client: ClientKey)
    | Disconnects(client: ClientKey)
    | Sweeps(now: int)
    | Sends(client: ClientKey, session: SessionKey, now: int, bytes: nat)

  /** A frame, what was decided about it, and the start of the windows it was counted in, if it was. */
  datatype Entry = Entry(
    client: ClientKey, session: SessionKey, at: int, bytes: nat, decision: Decision,
    sessionStart: int, clientStart: int, serverStart: int)

  datatype History = History(limiter: Limiter, sessions: map<SessionKey, UsageWindow>, log: seq<Entry>)

  const NO_HISTORY := History(NEW_LIMITER, map[], [])

  /**
   What SignalingProperties demands: windows of a second or more, room for one client, limits of one or
   more, and a server that allows twice what a client may use.
   */
  predicate ValidConfig(c: Config) {
    && c.maximumTrackedClients >= 1 && c.windowNanos >= NANOS_PER_SECOND
    && 1 <= c.session.frames <= c.client.frames && 1 <= c.session.bytes <= c.client.bytes
    && c.server.frames >= 2 * c.client.frames && c.server.bytes >= 2 * c.client.bytes
  }

  /** How many of the three limits the frame passed. */
  function Passed(d: Decision): nat {
    match d
    case SESSION_FRAME_LIMITED => 0 case SESSION_BYTE_LIMITED => 0
    case CLIENT_FRAME_LIMITED => 1 case CLIENT_BYTE_LIMITED => 1
    case GLOBAL_FRAME_LIMITED => 2 case GLOBAL_BYTE_LIMITED => 2
    case ACCEPTED => 3
  }

  function StartedAt(w: UsageWindow): int {
    if w.startedAt.Some? then w.startedAt.value else 0
  }

  function SessionWindow(h: History, session: SessionKey): UsageWindow {
    if session in h.sessions then h.sessions[session] else UNOPENED
  }

  /** A frame of a session whose client has a connection. */
  function Receive(c: Config, h: History, act: Act): History
    requires act.Sends? && act.client in h.limiter.clients
  {
    var a := TryAcquire(c, h.limiter, act.client, SessionWindow(h, act.session), act.now, act.bytes);
    History(
      a.limiter,
      h.sessions[act.session := a.session],
      h.log + [Entry(act.client, act.session, act.now, act.bytes, a.decision,
                     StartedAt(a.session),
                     if Passed(a.decision) >= 1 then StartedAt(a.limiter.clients[act.client].window) else 0,
                     if Passed(a.decision) >= 2 then StartedAt(a.limiter.serverWindow) else 0)])
  }

  function Next(c: Config, h: History, act: Act): History {
    match act
    case Connects(client) => h.(limiter := AfterRetain(h.limiter, client, c.maximumTrackedClients))
    case Disconnects(client) => h.(limiter := Release(h.limiter, client))
    case Sweeps(now) => h.(limiter := RemoveExpiredInactive(h.limiter, now, c.windowNanos))
    case Sends(client, _, _, _) => if client in h.limiter.clients then Receive(c, h, act) else h
  }

  function Run(c: Config, acts: seq<Act>): History {
    if acts == [] then NO_HISTORY else Next(c, Run(c, acts[..|acts| - 1]), acts[|acts| - 1])
  }

  lemma RunMore(c: Config, acts: seq<Act>, act: Act)
    ensures Run(c, acts + [act]) == Next(c, Run(c, acts), act)
  {
    assert (acts + [act])[..|acts|] == acts;
  }

  function TimeOf(act: Act, before: int): int {
    match act
    case Sweeps(now) => now
    case Sends(_, _, now, _) => now
    case Connects(_) => before
    case Disconnects(_) => before
  }

  /** The clock does not go back; `now` is at or after the last reading. */
  predicate Ordered(acts: seq<Act>, now: int)
    decreases |acts|
  {
    acts == []
    || (var last := acts[|acts| - 1];
        TimeOf(last, now) <= now && Ordered(acts[..|acts| - 1], TimeOf(last, now)))
  }

  // ----- what each counter has let through -----

  datatype Counter = OfSession(session: SessionKey) | OfClient(client: ClientKey) | OfServer

  datatype Measure = Frames | Bytes

  function WeightOf(m: Measure, bytes: nat): nat {
    if m == Frames then 1 else bytes
  }

  function UsedOf(m: Measure, w: UsageWindow): int {
    if m == Frames then w.frameCount else w.payloadBytes
  }

  function LimitOf(c: Config, k: Counter, m: Measure): nat
    requires ValidConfig(c)
  {
    if m == Frames then LimitsOf(c, k).frames else LimitsOf(c, k).bytes
  }

  /** Whether this counter has let the frame through. */
  predicate LetThrough(k: Counter, x: Entry) {
    match k
    case OfSession(session) => x.session == session && Passed(x.decision) >= 1
    case OfClient(client) => x.client == client && Passed(x.decision) >= 2
    case OfServer => Passed(x.decision) >= 3
  }

  function StartOf(k: Counter, x: Entry): int {
    match k
    case OfSession(_) => x.sessionStart
    case OfClient(_) => x.clientStart
    case OfServer => x.serverStart
  }

  function Uses(k: Counter, m: Measure, log: seq<Entry>): seq<Use> {
    if log == [] then []
    else
      var x := log[|log| - 1];
      Uses(k, m, log[..|log| - 1]) + if LetThrough(k, x) then [Use(x.at, StartOf(k, x), WeightOf(m, x.bytes))] else []
  }

  function WindowOf(h: History, k: Counter): UsageWindow {
    match k
    case OfSession(session) => SessionWindow(h, session)
    case OfClient(client) => if client in h.limiter.clients then h.limiter.clients[client].window else UNOPENED
    case OfServer => h.limiter.serverWindow
  }

  function AsWindow(w: UsageWindow, m: Measure): Window {
    if w.startedAt == None then Closed else Open(w.startedAt.value, UsedOf(m, w))
  }

  ghost predicate Tracked(c: Config, h: History, k: Counter, m: Measure, now: int)
    requires ValidConfig(c)
  {
    Tracks(Uses(k, m, h.log), c.windowNanos, LimitOf(c, k, m), AsWindow(WindowOf(h, k), m), now)
  }

  /** One window over one frame: what it lets through stays windowed. */
  lemma ChargeTracks(
    uses: seq<Use>, w: int, limit: Limit, m: Measure, before: UsageWindow, now: int, bytes: nat, max: nat)
    requires w > 0 && max == (if m == Frames then limit.frames else limit.bytes)
    requires Tracks(uses, w, max, AsWindow(before, m), now)
    ensures var after := Charged(before, now, w, bytes);
            && after.startedAt.Some?
            && Tracks(uses, w, max, AsWindow(after, m), now)
            && (Judge(after, limit) == Pass
                ==> Tracks(uses + [Use(now, after.startedAt.value, WeightOf(m, bytes))], w, max, AsWindow(after, m), now))
  {
    var after := Charged(before, now, w, bytes);
    var window := if IsExpired(before, now, w) then Open(now, 0) else AsWindow(before, m);
    if IsExpired(before, now, w) {
      TracksOpen(uses, w, max, AsWindow(before, m), now);
    }
    TracksCharge(uses, w, max, window, now, WeightOf(m, bytes));
    if Judge(after, limit) == Pass {
      TracksAdmit(uses, w, max, window, now, WeightOf(m, bytes));
    }
  }

  /** How far a frame gets, and which windows count it. */
  lemma Outcome(c: Config, l: Limiter, client: ClientKey, session: UsageWindow, now: int, bytes: int)
    requires client in l.clients
    ensures var a := TryAcquire(c, l, client, session, now, bytes);
            var session' := Charged(session, now, c.windowNanos, bytes);
            var client' := Charged(l.clients[client].window, now, c.windowNanos, bytes);
            var server' := Charged(l.serverWindow, now, c.windowNanos, bytes);
            && a.session == session'
            && (Passed(a.decision) >= 1 <==> Judge(session', c.session) == Pass)
            && (forall key :: key in l.clients <==> key in a.limiter.clients)
            && (forall key :: key in l.clients && key != client ==> a.limiter.clients[key] == l.clients[key])
            && a.limiter.clients[client].activeConnections == l.clients[client].activeConnections
            && a.limiter.clients[client].window == (if Passed(a.decision) >= 1 then client' else l.clients[client].window)
            && (Passed(a.decision) >= 1 ==> (Passed(a.decision) >= 2 <==> Judge(client', c.client) == Pass))
            && a.limiter.serverWindow == (if Passed(a.decision) >= 2 then server' else l.serverWindow)
            && (Passed(a.decision) >= 2 ==> (Passed(a.decision) >= 3 <==> Judge(server', c.server) == Pass))
  {
  }

  lemma UsesMore(k: Counter, m: Measure, log: seq<Entry>, x: Entry)
    ensures Uses(k, m, log + [x])
            == Uses(k, m, log) + if LetThrough(k, x) then [Use(x.at, StartOf(k, x), WeightOf(m, x.bytes))] else []
  {
    assert (log + [x])[..|log|] == log;
  }

  function LimitsOf(c: Config, k: Counter): Limit {
    match k case OfSession(_) => c.session case OfClient(_) => c.client case OfServer => c.server
  }

  /** Whether a frame that passed so many limits is counted here. */
  predicate Concerns(k: Counter, act: Act, passed: nat)
    requires act.Sends?
  {
    match k
    case OfSession(session) => act.session == session
    case OfClient(client) => act.client == client && passed >= 1
    case OfServer => passed >= 2
  }

  /** What one frame does to one counter. */
  lemma CounterOutcome(c: Config, h: History, act: Act, k: Counter)
    requires act.Sends? && act.client in h.limiter.clients
    ensures var h' := Receive(c, h, act);
            var x := h'.log[|h.log|];
            var charged := Charged(WindowOf(h, k), act.now, c.windowNanos, act.bytes);
            && h'.log == h.log + [x] && x.at == act.now && x.bytes == act.bytes
            && WindowOf(h', k) == (if Concerns(k, act, Passed(x.decision)) then charged else WindowOf(h, k))
            && (LetThrough(k, x) <==> Concerns(k, act, Passed(x.decision)) && Judge(charged, LimitsOf(c, k)) == Pass)
            && (LetThrough(k, x) ==> charged.startedAt == Some(StartOf(k, x)))
  {
    Outcome(c, h.limiter, act.client, SessionWindow(h, act.session), act.now, act.bytes);
  }

  /** One counter over one frame. */
  lemma ReceiveTracked(c: Config, h: History, act: Act, k: Counter, m: Measure, h': History)
    requires ValidConfig(c) && act.Sends? && act.client in h.limiter.clients
    requires Tracked(c, h, k, m, act.now) && h' == Receive(c, h, act)
    ensures Tracked(c, h', k, m, act.now)
  {
    CounterOutcome(c, h, act, k);
    UsesMore(k, m, h.log, h'.log[|h.log|]);
    ChargeTracks(Uses(k, m, h.log), c.windowNanos, LimitsOf(c, k), m, WindowOf(h, k), act.now, act.bytes, LimitOf(c, k, m));
    assert Uses(k, m, h.log) + [] == Uses(k, m, h.log);
  }

  /** The client's state is thrown away to make room for another client. */
  predicate Evicts(c: Config, h: History, act: Act, client: ClientKey) {
    act.Connects? && client in h.limiter.clients && client !in Next(c, h, act).limiter.clients
  }

  /** Making room for somebody does not touch the windows it does not throw away. */
  lemma RetainKeepsWindows(c: Config, h: History, act: Act, k: Counter)
    requires act.Connects? && NoDup(h.limiter.order)
    requires k.OfClient? ==> !Evicts(c, h, act, k.client)
    ensures WindowOf(Next(c, h, act), k) == WindowOf(h, k)
  {
    EvictKeepsActive(h.limiter.order, h.limiter.clients, c.maximumTrackedClients);
  }

  lemma SweepTracked(c: Config, h: History, now: int, k: Counter, m: Measure)
    requires ValidConfig(c) && Tracked(c, h, k, m, now)
    ensures Tracked(c, Next(c, h, Sweeps(now)), k, m, now)
  {
    TracksLater(Uses(k, m, h.log), c.windowNanos, LimitOf(c, k, m), AsWindow(WindowOf(h, k), m), now, now);
  }

  lemma NextTracked(c: Config, h: History, act: Act, k: Counter, m: Measure, before: int, now: int)
    requires ValidConfig(c) && NoDup(h.limiter.order)
    requires before <= now && TimeOf(act, now) == now && Tracked(c, h, k, m, before)
    requires k.OfClient? ==> !Evicts(c, h, act, k.client)
    ensures Tracked(c, Next(c, h, act), k, m, now)
  {
    TracksLater(Uses(k, m, h.log), c.windowNanos, LimitOf(c, k, m), AsWindow(WindowOf(h, k), m), before, now);
    match act
    case Connects(_) => RetainKeepsWindows(c, h, act, k);
    case Disconnects(_) =>
    case Sweeps(_) => SweepTracked(c, h, now, k, m);
    case Sends(client, _, _, _) =>
      if client in h.limiter.clients {
        ReceiveTracked(c, h, act, k, m, Next(c, h, act));
      }
  }

  /** The access order lists the remembered clients, each once. */
  ghost predicate Aligned(l: Limiter) {
    NoDup(l.order) && forall key :: key in l.order <==> key in l.clients
  }

  lemma RetainAligned(l: Limiter, key: ClientKey, capacity: int)
    requires Aligned(l)
    ensures Aligned(AfterRetain(l, key, capacity))
  {
    if key in l.clients {
      WithoutNoDup(l.order, key);
    } else {
      EvictKeepsActive(l.order, l.clients, capacity);
    }
  }

  lemma NextAligned(c: Config, h: History, act: Act)
    requires Aligned(h.limiter)
    ensures Aligned(Next(c, h, act).limiter)
  {
    match act
    case Connects(client) => RetainAligned(h.limiter, client, c.maximumTrackedClients);
    case Disconnects(_) =>
    case Sweeps(_) =>
    case Sends(client, session, now, bytes) =>
      WithoutNoDup(h.limiter.order, client);
      if client in h.limiter.clients {
        Outcome(c, h.limiter, client, SessionWindow(h, session), now, bytes);
      }
  }

  lemma {:induction false} RunAligned(c: Config, acts: seq<Act>)
    ensures Aligned(Run(c, acts).limiter)
  {
    if acts != [] {
      RunAligned(c, acts[..|acts| - 1]);
      NextAligned(c, Run(c, acts[..|acts| - 1]), acts[|acts| - 1]);
    }
  }

  /** At no point of the run has the client been forgotten to make room for another one. */
  ghost predicate NeverEvicted(c: Config, acts: seq<Act>, client: ClientKey) {
    forall i :: 0 <= i < |acts| ==> !Evicts(c, Run(c, acts[..i]), acts[i], client)
  }

  lemma {:induction false} RunTracked(c: Config, acts: seq<Act>, k: Counter, m: Measure, now: int)
    requires ValidConfig(c) && Ordered(acts, now)
    requires k.OfClient? ==> NeverEvicted(c, acts, k.client)
    ensures Tracked(c, Run(c, acts), k, m, now)
    decreases |acts|
  {
    if acts == [] {
      TracksNothing(c.windowNanos, LimitOf(c, k, m), now);
    } else {
      var front, last := acts[..|acts| - 1], acts[|acts| - 1];
      var at := TimeOf(last, now);
      FrontNeverEvicted(c, acts, k);
      RunTracked(c, front, k, m, at);
      RunAligned(c, front);
      NextTracked(c, Run(c, front), last, k, m, at, at);
      TracksLater(Uses(k, m, Run(c, acts).log), c.windowNanos, LimitOf(c, k, m), AsWindow(WindowOf(Run(c, acts), k), m), at, now);
    }
  }

  lemma FrontNeverEvicted(c: Config, acts: seq<Act>, k: Counter)
    requires acts != [] && (k.OfClient? ==> NeverEvicted(c, acts, k.client))
    ensures k.OfClient? ==> NeverEvicted(c, acts[..|acts| - 1], k.client)
    ensures k.OfClient? ==> !Evicts(c, Run(c, acts[..|acts| - 1]), acts[|acts| - 1], k.client)
  {
    var front := acts[..|acts| - 1];
    if k.OfClient? {
      forall i | 0 <= i < |front|
        ensures !Evicts(c, Run(c, front[..i]), front[i], k.client)
      {
        assert front[..i] == acts[..i] && front[i] == acts[i];
      }
      assert !Evicts(c, Run(c, acts[..|acts| - 1]), acts[|acts| - 1], k.client);
    }
  }

  /**
   Over any history, in any span up to the window's length, the limiter lets through at most twice
   the frames and twice the bytes of the limit, for a session and for the server always, and for a
   client as long as it has not been forgotten to make room.
   */
  lemma AtMostTwice(c: Config, acts: seq<Act>, now: int, k: Counter, m: Measure, from: int)
    requires ValidConfig(c) && Ordered(acts, now)
    requires k.OfClient? ==> NeverEvicted(c, acts, k.client)
    ensures Weigh(Uses(k, m, Run(c, acts).log), Within(from, from + c.windowNanos)) <= 2 * LimitOf(c, k, m)
  {
    RunTracked(c, acts, k, m, now);
    TwiceAtMost(Uses(k, m, Run(c, acts).log), c.windowNanos, LimitOf(c, k, m), from);
  }

  // ----- why the server's limit must be twice a client's -----

  lemma WeighLast(h: seq<Use>, u: Use, counts: Use -> bool)
    ensures Weigh(h + [u], counts) == Weigh(h, counts) + if counts(u) then u.weight else 0
  {
    assert (h + [u])[..|h|] == h;
  }

  /** The frames the server's window has counted, whether or not it let them through. */
  function Reaching(m: Measure, log: seq<Entry>): seq<Use> {
    if log == [] then []
    else
      var x := log[|log| - 1];
      Reaching(m, log[..|log| - 1]) + if Passed(x.decision) >= 2 then [Use(x.at, x.serverStart, WeightOf(m, x.bytes))] else []
  }

  /** What other clients than this one made the server count in a span. */
  ghost function FromOthers(m: Measure, log: seq<Entry>, client: ClientKey, from: int, until: int): nat {
    if log == [] then 0
    else
      var x := log[|log| - 1];
      FromOthers(m, log[..|log| - 1], client, from, until)
      + if x.client != client && Passed(x.decision) >= 2 && from <= x.at < until then WeightOf(m, x.bytes) else 0
  }

  /** The server's window has counted exactly the frames that reached it since it was opened. */
  ghost predicate ServerExact(c: Config, h: History, m: Measure) {
    var win := h.limiter.serverWindow;
    && (forall i :: 0 <= i < |h.log| && Passed(h.log[i].decision) >= 2 ==>
          && win.startedAt.Some? && h.log[i].serverStart <= win.startedAt.value
          && h.log[i].serverStart <= h.log[i].at < h.log[i].serverStart + c.windowNanos)
    && (win.startedAt.Some? ==> UsedOf(m, win) == Weigh(Reaching(m, h.log), InWindow(win.startedAt.value)))
  }

  lemma {:induction false} NothingReached(m: Measure, log: seq<Entry>, start: int)
    requires forall i :: 0 <= i < |log| && Passed(log[i].decision) >= 2 ==> log[i].serverStart != start
    ensures Weigh(Reaching(m, log), InWindow(start)) == 0
  {
    if log != [] {
      var front, x := log[..|log| - 1], log[|log| - 1];
      NothingReached(m, front, start);
      if Passed(x.decision) >= 2 {
        WeighLast(Reaching(m, front), Use(x.at, x.serverStart, WeightOf(m, x.bytes)), InWindow(start));
      } else {
        assert Reaching(m, front) + [] == Reaching(m, front);
      }
    }
  }

  lemma ReachingMore(m: Measure, log: seq<Entry>, x: Entry, start: int)
    ensures Weigh(Reaching(m, log + [x]), InWindow(start))
            == Weigh(Reaching(m, log), InWindow(start)) + if Passed(x.decision) >= 2 && x.serverStart == start then WeightOf(m, x.bytes) else 0
  {
    assert (log + [x])[..|log|] == log;
    if Passed(x.decision) >= 2 {
      WeighLast(Reaching(m, log), Use(x.at, x.serverStart, WeightOf(m, x.bytes)), InWindow(start));
    } else {
      assert Reaching(m, log) + [] == Reaching(m, log);
    }
  }

  lemma ReceiveServerExact(c: Config, h: History, act: Act, m: Measure, h': History)
    requires c.windowNanos > 0 && act.Sends? && act.client in h.limiter.clients
    requires ServerExact(c, h, m) && h' == Receive(c, h, act)
    requires h.limiter.serverWindow.startedAt.Some? ==> h.limiter.serverWindow.startedAt.value <= act.now
    ensures ServerExact(c, h', m)
  {
    CounterOutcome(c, h, act, OfServer);
    Outcome(c, h.limiter, act.client, SessionWindow(h, act.session), act.now, act.bytes);
    var x := h'.log[|h.log|];
    if Passed(x.decision) >= 2 {
      var start := h'.limiter.serverWindow.startedAt.value;
      ReachingMore(m, h.log, x, start);
      if IsExpired(h.limiter.serverWindow, act.now, c.windowNanos) {
        NothingReached(m, h.log, start);
      }
    } else if h.limiter.serverWindow.startedAt.Some? {
      ReachingMore(m, h.log, x, h.limiter.serverWindow.startedAt.value);
    }
  }

  lemma {:induction false} RunServerExact(c: Config, acts: seq<Act>, m: Measure, now: int)
    requires ValidConfig(c) && Ordered(acts, now)
    ensures ServerExact(c, Run(c, acts), m)
    ensures Run(c, acts).limiter.serverWindow.startedAt.Some? ==> Run(c, acts).limiter.serverWindow.startedAt.value <= now
    decreases |acts|
  {
    if acts != [] {
      var front, last := acts[..|acts| - 1], acts[|acts| - 1];
      var h := Run(c, front);
      RunServerExact(c, front, m, TimeOf(last, now));
      match last
      case Sends(client, session, at, bytes) =>
        if client in h.limiter.clients {
          ReceiveServerExact(c, h, last, m, Run(c, acts));
          Outcome(c, h.limiter, client, SessionWindow(h, session), at, bytes);
        }
      case Connects(_) => assert Run(c, acts).limiter.serverWindow == h.limiter.serverWindow;
      case Disconnects(_) =>
      case Sweeps(_) =>
    }
  }

  /** One more frame adds no more to the server's window than to the shares. */
  lemma ShareMore(m: Measure, log: seq<Entry>, x: Entry, client: ClientKey, start: int, w: int, server: int, own: int, others: int)
    requires Passed(x.decision) >= 2 ==> x.serverStart <= x.at < x.serverStart + w
    requires server == Weigh(Reaching(m, log), InWindow(start))
    requires own == Weigh(Uses(OfClient(client), m, log), Within(start, start + w))
    requires others == FromOthers(m, log, client, start, start + w)
    ensures Weigh(Reaching(m, log + [x]), InWindow(start)) - server
            <= (Weigh(Uses(OfClient(client), m, log + [x]), Within(start, start + w)) - own)
               + (FromOthers(m, log + [x], client, start, start + w) - others)
  {
    ReachingMore(m, log, x, start);
    UsesMore(OfClient(client), m, log, x);
    var uses := Uses(OfClient(client), m, log);
    WeighLast(uses, Use(x.at, x.clientStart, WeightOf(m, x.bytes)), Within(start, start + w));
    assert uses + [] == uses;
    assert (log + [x])[..|log|] == log;
  }

  /** What the server's window counted is this client's share and the others'. */
  lemma {:induction false} ServerShare(c: Config, m: Measure, log: seq<Entry>, client: ClientKey, start: int, w: int)
    requires forall i :: 0 <= i < |log| && Passed(log[i].decision) >= 2 ==> log[i].serverStart <= log[i].at < log[i].serverStart + w
    ensures Weigh(Reaching(m, log), InWindow(start))
            <= Weigh(Uses(OfClient(client), m, log), Within(start, start + w)) + FromOthers(m, log, client, start, start + w)
  {
    if log != [] {
      var front, x := log[..|log| - 1], log[|log| - 1];
      ServerShare(c, m, front, client, start, w);
      assert log == front + [x];
      ShareMore(m, front, x, client, start, w, Weigh(Reaching(m, front), InWindow(start)),
                Weigh(Uses(OfClient(client), m, front), Within(start, start + w)),
                FromOthers(m, front, client, start, start + w));
    }
  }

  /** The frame was within its client's limit, but the server's limit on this measure refused it. */
  predicate ServerRefuses(c: Config, h: History, act: Act, m: Measure)
    requires act.Sends?
  {
    && act.client in h.limiter.clients
    && TryAcquire(c, h.limiter, act.client, SessionWindow(h, act.session), act.now, act.bytes).decision
       == (if m == Frames then GLOBAL_FRAME_LIMITED else GLOBAL_BYTE_LIMITED)
  }

  /**
   If the server's limit refuses a frame, then within the server's window the other clients used more
   than the server has beyond twice a client's limit, unless the client had been forgotten.
   */
  lemma ServerRefusalNeedsOthers(c: Config, acts: seq<Act>, act: Act, m: Measure, h: History, h': History) returns (start: int)
    requires ValidConfig(c) && act.Sends? && Ordered(acts + [act], act.now)
    requires h == Run(c, acts) && h' == Run(c, acts + [act])
    requires NeverEvicted(c, acts + [act], act.client) && ServerRefuses(c, h, act, m)
    ensures start <= act.now < start + c.windowNanos
    ensures FromOthers(m, h'.log, act.client, start, start + c.windowNanos)
            > LimitOf(c, OfServer, m) - 2 * LimitOf(c, OfClient(act.client), m) >= 0
  {
    RunMore(c, acts, act);
    RefusalStart(c, acts, act, m, h, h');
    start := h'.limiter.serverWindow.startedAt.value;
    AtMostTwice(c, acts + [act], act.now, OfClient(act.client), m, start);
    ShareOfOthers(c, h', m, act.client, start);
  }

  lemma RefusalStart(c: Config, acts: seq<Act>, act: Act, m: Measure, h: History, h': History)
    requires ValidConfig(c) && act.Sends? && Ordered(acts + [act], act.now)
    requires h == Run(c, acts) && h' == Run(c, acts + [act]) && h' == Next(c, h, act) && ServerRefuses(c, h, act, m)
    ensures ServerExact(c, h', m)
    ensures var win := h'.limiter.serverWindow;
            && win.startedAt.Some? && win.startedAt.value <= act.now < win.startedAt.value + c.windowNanos
            && UsedOf(m, win) > LimitOf(c, OfServer, m)
  {
    assert (acts + [act])[..|acts|] == acts;
    RunServerExact(c, acts, m, act.now);
    RunServerExact(c, acts + [act], m, act.now);
    RefusedIsOverLimit(c, h, act, m, h');
  }

  lemma ShareOfOthers(c: Config, h: History, m: Measure, client: ClientKey, start: int)
    requires ValidConfig(c) && ServerExact(c, h, m) && h.limiter.serverWindow.startedAt == Some(start)
    requires UsedOf(m, h.limiter.serverWindow) > LimitOf(c, OfServer, m)
    requires Weigh(Uses(OfClient(client), m, h.log), Within(start, start + c.windowNanos)) <= 2 * LimitOf(c, OfClient(client), m)
    ensures FromOthers(m, h.log, client, start, start + c.windowNanos)
            > LimitOf(c, OfServer, m) - 2 * LimitOf(c, OfClient(client), m) >= 0
  {
    ServerShare(c, m, h.log, client, start, c.windowNanos);
  }

  lemma RefusedIsOverLimit(c: Config, h: History, act: Act, m: Measure, h': History)
    requires ValidConfig(c) && act.Sends? && ServerRefuses(c, h, act, m) && h' == Receive(c, h, act)
    requires h.limiter.serverWindow.startedAt.Some? ==> h.limiter.serverWindow.startedAt.value <= act.now
    ensures h'.limiter.serverWindow.startedAt.Some?
    ensures UsedOf(m, h'.limiter.serverWindow) > LimitOf(c, OfServer, m)
    ensures h'.limiter.serverWindow.startedAt.value <= act.now < h'.limiter.serverWindow.startedAt.value + c.windowNanos
  {
  }

  /** No other client has sent anything. */
  ghost predicate Alone(acts: seq<Act>, client: ClientKey) {
    forall i :: 0 <= i < |acts| && acts[i].Sends? ==> acts[i].client == client
  }

  /** A client that has the server to itself is never refused by the server's limits. */
  lemma LoneClientKeepsItsAllowance(c: Config, acts: seq<Act>, act: Act, m: Measure, h: History)
    requires ValidConfig(c) && act.Sends? && Ordered(acts + [act], act.now) && h == Run(c, acts)
    requires NeverEvicted(c, acts + [act], act.client) && Alone(acts, act.client)
    ensures !ServerRefuses(c, h, act, m)
  {
    if ServerRefuses(c, h, act, m) {
      var _, _ := RefusedBecauseOf(c, acts, act, m, h);
    }
  }

  lemma RefusedBecauseOf(c: Config, acts: seq<Act>, act: Act, m: Measure, h: History) returns (start: int, others: int)
    requires ValidConfig(c) && act.Sends? && Ordered(acts + [act], act.now) && h == Run(c, acts)
    requires NeverEvicted(c, acts + [act], act.client) && ServerRefuses(c, h, act, m)
    ensures others > 0 && (Alone(acts, act.client) ==> others == 0)
  {
    var h' := Run(c, acts + [act]);
    start := ServerRefusalNeedsOthers(c, acts, act, m, h, h');
    others := FromOthers(m, h'.log, act.client, start, start + c.windowNanos);
    if Alone(acts, act.client) {
      StillAlone(acts, act);
      NobodyElse(c, acts + [act], act.client, m, start, start + c.windowNanos, h');
    }
  }

  lemma StillAlone(acts: seq<Act>, act: Act)
    requires act.Sends? && Alone(acts, act.client)
    ensures Alone(acts + [act], act.client)
  {
  }

  lemma {:induction false} NobodyElse(c: Config, acts: seq<Act>, client: ClientKey, m: Measure, from: int, until: int, h': History)
    requires Alone(acts, client) && h' == Run(c, acts)
    ensures FromOthers(m, h'.log, client, from, until) == 0
    decreases |acts|
  {
    if acts != [] {
      var h := Run(c, acts[..|acts| - 1]);
      NobodyElse(c, acts[..|acts| - 1], client, m, from, until, h);
      if h'.log != h.log {
        assert h'.log[..|h'.log| - 1] == h.log;
      }
    }
  }
}
