/** What the TURN limiter lets through over a whole history of requests. */
module TurnHistory {
  import opened Common
  import opened FixedWindow
  import opened LateWindow
  import opened TurnIssuanceLimiter

  /** A request that was served, with the windows that counted it. */
  datatype Grant = Grant(
    client: ClientKey, participant: Option<ParticipantKey>, at: int,
    clientStart: int, participantStart: int, globalStart: int)

  datatype History = History(limiter: Limiter, grants: seq<Grant>)

  const NEW_LIMITER := Limiter(map[], map[], None)

  ghost function Next(c: Config, h: History, q: Request): History
    requires ValidConfig(c)
  {
    var after := After(c, h.limiter, q);
    if Refusal(c, h.limiter, q).Some? then History(after, h.grants)
    else History(after, h.grants + [Grant(
      q.client, q.participant, q.now, after.clients[q.client].startedAt,
      if q.participant.Some? then after.participants[q.participant.value].startedAt else 0,
      after.globalWindow.value.startedAt)])
  }

  ghost function Serve(c: Config, requests: seq<Request>): History
    requires ValidConfig(c)
  {
    if requests == [] then History(NEW_LIMITER, [])
    else Next(c, Serve(c, requests[..|requests| - 1]), requests[|requests| - 1])
  }

  /** Instants are read before the lock is taken; none lies further than this behind one handled before. */
  ghost predicate LateBy(requests: seq<Request>, late: nat) {
    forall i, j :: 0 <= i < j < |requests| ==> requests[i].now <= requests[j].now + late
  }

  /** The latest instant so far. */
  function Front(requests: seq<Request>): (front: int)
    requires requests != []
    ensures exists i :: 0 <= i < |requests| && requests[i].now == front
  {
    var last := requests[|requests| - 1];
    if |requests| == 1 then last.now else Max(Front(requests[..|requests| - 1]), last.now)
  }

  // ----- the uses each window has counted -----

  datatype Counter = OfClient(client: ClientKey) | OfParticipant(participant: ParticipantKey) | OfServer

  predicate Counts(k: Counter, g: Grant) {
    match k
    case OfClient(client) => g.client == client
    case OfParticipant(participant) => g.participant == Some(participant)
    case OfServer => true
  }

  function StartOf(k: Counter, g: Grant): int {
    match k
    case OfClient(_) => g.clientStart
    case OfParticipant(_) => g.participantStart
    case OfServer => g.globalStart
  }

  function Uses(k: Counter, grants: seq<Grant>): seq<Use> {
    if grants == [] then []
    else
      var g := grants[|grants| - 1];
      Uses(k, grants[..|grants| - 1]) + if Counts(k, g) then [Use(g.at, StartOf(k, g), 1)] else []
  }

  function LimitOf(c: Config, k: Counter): nat {
    match k
    case OfClient(_) => c.maxPerClient
    case OfParticipant(_) => c.maxPerParticipant
    case OfServer => c.maxGlobal
  }

  function WindowIn<K>(windows: map<K, IssuanceWindow>, key: K): Window {
    if key in windows then Open(windows[key].startedAt, windows[key].attempts) else Closed
  }

  function WindowOf(s: Limiter, k: Counter): Window {
    match k
    case OfClient(client) => WindowIn(s.clients, client)
    case OfParticipant(participant) => WindowIn(s.participants, participant)
    case OfServer =>
      if s.globalWindow.Some? then Open(s.globalWindow.value.startedAt, s.globalWindow.value.attempts) else Closed
  }

  /** A counter tracks its uses. */
  ghost predicate Exact(c: Config, h: History, k: Counter, late: nat, front: int) {
    LateTracks(Uses(k, h.grants), c.windowNanos, late, LimitOf(c, k), WindowOf(h.limiter, k), front)
  }

  lemma PrunedWindow(c: Config, s: Limiter, k: Counter, now: int)
    ensures WindowOf(Prune(s, now, c.windowNanos), k)
            == if Expired(WindowOf(s, k), c.windowNanos, now) then Closed else WindowOf(s, k)
  {
  }

  /** What a request does to one counter. */
  lemma NextCounts(c: Config, h: History, q: Request, k: Counter, h': History)
    requires ValidConfig(c) && h' == Next(c, h, q)
    ensures var pruned := Prune(h.limiter, q.now, c.windowNanos);
            || (Uses(k, h'.grants) == Uses(k, h.grants) && WindowOf(h'.limiter, k) == WindowOf(pruned, k))
            || (var before := WindowOf(pruned, k);
                var after := if before.Closed? then Open(q.now, 1) else before.(used := before.used + 1);
                && (before.Open? ==> before.used < LimitOf(c, k))
                && WindowOf(h'.limiter, k) == after
                && Uses(k, h'.grants) == Uses(k, h.grants) + [Use(q.now, after.start, 1)])
  {
    var pruned := Prune(h.limiter, q.now, c.windowNanos);
    if Refusal(c, h.limiter, q) == None {
      RefusedIff(c, h.limiter, q);
      assert !Blocks(c, pruned, q, Client) && !Blocks(c, pruned, q, Participant) && !Blocks(c, pruned, q, Global);
      assert h'.grants[..|h.grants|] == h.grants;
      assert Uses(k, h.grants) + [] == Uses(k, h.grants);
    }
  }

  /** One counter over one request. */
  lemma NextStaysExact(c: Config, h: History, q: Request, k: Counter, late: nat, front: int, h': History)
    requires ValidConfig(c) && Exact(c, h, k, late, front) && front <= q.now + late && late < c.windowNanos
    requires h' == Next(c, h, q)
    ensures Exact(c, h', k, late, Max(front, q.now))
  {
    var uses := Uses(k, h.grants);
    var pruned := Prune(h.limiter, q.now, c.windowNanos);
    PrunedWindow(c, h.limiter, k, q.now);
    LatePruned(uses, c.windowNanos, late, LimitOf(c, k), WindowOf(h.limiter, k), front, q.now);
    NextCounts(c, h, q, k, h');
    if Uses(k, h'.grants) != uses {
      LateCounted(uses, c.windowNanos, late, LimitOf(c, k), WindowOf(pruned, k), Max(front, q.now), q.now, WindowOf(h'.limiter, k));
    }
  }

  lemma {:induction false} ServeStaysExact(c: Config, requests: seq<Request>, k: Counter, late: nat, front: int)
    requires ValidConfig(c) && LateBy(requests, late) && late < c.windowNanos
    requires requests != [] ==> front == Front(requests)
    ensures Exact(c, Serve(c, requests), k, late, front)
  {
    if requests == [] {
      LateNothing(c.windowNanos, late, LimitOf(c, k), front);
    } else {
      var before, q := requests[..|requests| - 1], requests[|requests| - 1];
      var earlier := if before == [] then q.now else Front(before);
      ServeStaysExact(c, before, k, late, earlier);
      NextStaysExact(c, Serve(c, before), q, k, late, earlier, Serve(c, requests));
    }
  }

  /** Over any history no more windows are remembered than configured. */
  lemma {:induction false} ServeStaysBounded(c: Config, requests: seq<Request>)
    requires ValidConfig(c)
    ensures Bounded(c, Serve(c, requests).limiter)
  {
    if requests != [] {
      var q := requests[|requests| - 1];
      var before := Serve(c, requests[..|requests| - 1]).limiter;
      ServeStaysBounded(c, requests[..|requests| - 1]);
      PrunedIsSmaller(c, before, q.now);
      RefusedIff(c, before, q);
      var pruned := Prune(before, q.now, c.windowNanos);
      assert Refusal(c, before, q) == None
             ==> !Blocks(c, pruned, q, ClientStateCapacity) && !Blocks(c, pruned, q, ParticipantStateCapacity);
    }
  }

  // ----- at most twice in a span -----

  ghost predicate TwiceWithin(c: Config, requests: seq<Request>, k: Counter, from: int, span: nat)
    requires ValidConfig(c)
  {
    Weigh(Uses(k, Serve(c, requests).grants), Within(from, from + span)) <= 2 * LimitOf(c, k)
  }

  /** A client, a participant and the server are served at most twice their limits in any such span. */
  ghost predicate AlwaysTwice(windowNanos: int, late: nat, span: nat) {
    forall c, requests, k, from ::
      ValidConfig(c) && c.windowNanos == windowNanos && LateBy(requests, late) ==> TwiceWithin(c, requests, k, from, span)
  }

  /**
   Over all histories whose instants are at most so late, a span serves a client, a participant and
   the whole server at most twice their limits if and only if it is shorter than the window by twice
   the lateness, or at most a nanosecond longer than that. So a span of the window's own length does
   if and only if no instant is late.
   */
  lemma AtMostTwice(windowNanos: int, late: nat, span: nat)
    requires NANOS_PER_SECOND <= windowNanos <= NANOS_PER_HOUR
    ensures AlwaysTwice(windowNanos, late, span) <==> span == 0 || span + 2 * late <= windowNanos + 1
    ensures AlwaysTwice(windowNanos, late, windowNanos) <==> late == 0
  {
    TwiceUpTo(windowNanos, late, span);
    TwiceUpTo(windowNanos, late, windowNanos);
  }

  lemma TwiceUpTo(windowNanos: int, late: nat, span: nat)
    requires NANOS_PER_SECOND <= windowNanos <= NANOS_PER_HOUR
    ensures AlwaysTwice(windowNanos, late, span) <==> span == 0 || span + 2 * late <= windowNanos + 1
  {
    if span == 0 || span + 2 * late <= windowNanos + 1 {
      forall c, requests, k, from | ValidConfig(c) && c.windowNanos == windowNanos && LateBy(requests, late)
        ensures TwiceWithin(c, requests, k, from, span)
      {
        ShortSpans(c, requests, k, late, from, span);
      }
    } else {
      var c, requests, k := MoreThanTwice(windowNanos, late, span);
    }
  }

  lemma ShortSpans(c: Config, requests: seq<Request>, k: Counter, late: nat, from: int, span: nat)
    requires ValidConfig(c) && LateBy(requests, late)
    requires span == 0 || span + 2 * late <= c.windowNanos + 1
    ensures TwiceWithin(c, requests, k, from, span)
  {
    if span == 0 {
      WeighNone(Uses(k, Serve(c, requests).grants), Within(from, from + span));
    } else {
      ServeStaysExact(c, requests, k, late, if requests == [] then 0 else Front(requests));
      LateSpan(Uses(k, Serve(c, requests).grants), c.windowNanos, late, LimitOf(c, k), from, span);
    }
  }

  // ----- more than twice in a longer span -----

  function SmallConfig(windowNanos: int): Config {
    Config(windowNanos, 3, 1, 100, 10, 10)
  }

  /** The latest instant, a's window, and what a was served from one instant on and before another. */
  datatype Scene = Scene(front: int, a: Window, served: nat)

  /** Of the clients a and b, a is served, and b only comes when a's window has expired. */
  predicate Leads(c: Config, late: nat, from: int, until: int, x: Scene, q: Request, y: Scene) {
    && q.participant == None && x.front <= q.now + late && y.front == Max(x.front, q.now)
    && if q.client == "a" then
         && (x.a.Open? ==> !Expired(x.a, c.windowNanos, q.now) && x.a.used < 3)
         && y.a == (if x.a.Closed? then Open(q.now, 1) else Open(x.a.start, x.a.used + 1))
         && y.served == x.served + if from <= q.now < until then 1 else 0
       else q.client == "b" && Expired(x.a, c.windowNanos, q.now) && y.a == Closed && y.served == x.served
  }

  /** A history of a and b that has come to this scene. */
  ghost predicate Story(c: Config, requests: seq<Request>, late: nat, from: int, until: int, x: Scene)
    requires ValidConfig(c)
  {
    var h := Serve(c, requests);
    && LateBy(requests, late) && (forall i :: 0 <= i < |requests| ==> requests[i].now <= x.front)
    && h.limiter.participants == map[] && h.limiter.clients.Keys <= {"a", "b"}
    && WindowOf(h.limiter, OfClient("a")) == x.a
    && (h.limiter.globalWindow.Some? ==> h.limiter.globalWindow.value.attempts <= |requests|)
    && Weigh(Uses(OfClient("a"), h.grants), Within(from, until)) == x.served
  }

  lemma {:induction false} StoryIsTold(c: Config, requests: seq<Request>, late: nat, from: int, until: int, scenes: seq<Scene>)
    requires ValidConfig(c) && c == SmallConfig(c.windowNanos)
    requires |requests| <= 100 && |scenes| == |requests| + 1 && scenes[0] == Scene(0, Closed, 0)
    requires forall i :: 0 <= i < |requests| ==> Leads(c, late, from, until, scenes[i], requests[i], scenes[i + 1])
    ensures Story(c, requests, late, from, until, scenes[|requests|])
  {
    if requests != [] {
      var n := |requests| - 1;
      var before := requests[..n];
      StoryIsTold(c, before, late, from, until, scenes[..n + 1]);
      assert requests == before + [requests[n]];
      if requests[n].client == "a" {
        Served(c, before, late, from, until, scenes[n], requests[n], scenes[n + 1]);
      } else {
        Forgotten(c, before, late, from, until, scenes[n], requests[n], scenes[n + 1]);
      }
    }
  }

  lemma StoryBreaksTwice(c: Config, requests: seq<Request>, late: nat, from: int, span: nat, scenes: seq<Scene>)
    requires ValidConfig(c) && c == SmallConfig(c.windowNanos)
    requires |requests| <= 100 && |scenes| == |requests| + 1 && scenes[0] == Scene(0, Closed, 0)
    requires forall i :: 0 <= i < |requests| ==> Leads(c, late, from, from + span, scenes[i], requests[i], scenes[i + 1])
    requires scenes[|requests|].served > 2 * c.maxPerClient
    ensures LateBy(requests, late) && !TwiceWithin(c, requests, OfClient("a"), from, span)
  {
    StoryIsTold(c, requests, late, from, from + span, scenes);
  }

  /** a is served, in its window or in a new one. */
  lemma Served(c: Config, requests: seq<Request>, late: nat, from: int, until: int, x: Scene, q: Request, y: Scene)
    requires ValidConfig(c) && c == SmallConfig(c.windowNanos) && Story(c, requests, late, from, until, x)
    requires |requests| < 100 && q.client == "a" && Leads(c, late, from, until, x, q, y)
    ensures Story(c, requests + [q], late, from, until, y)
  {
    var more := requests + [q];
    assert more[..|requests|] == requests;
    var h := Serve(c, requests);
    var h' := Serve(c, more);
    NotRefused(c, h, q);
    PrunedWindow(c, h.limiter, OfClient("a"), q.now);
    assert h'.grants[..|h.grants|] == h.grants;
    WeighLast(Uses(OfClient("a"), h.grants), Use(q.now, y.a.start, 1), Within(from, until));
  }

  lemma NotRefused(c: Config, h: History, q: Request)
    requires ValidConfig(c) && q.participant == None && h.limiter.clients.Keys <= {"a", "b"} && c.maxTrackedClients > 2
    requires var pruned := Prune(h.limiter, q.now, c.windowNanos); !Blocks(c, pruned, q, Client) && !Blocks(c, pruned, q, Global)
    ensures Refusal(c, h.limiter, q) == None
  {
    var pruned := Prune(h.limiter, q.now, c.windowNanos);
    SubsetSize(pruned.clients.Keys, {"a", "b"});
    assert |pruned.clients| == |pruned.clients.Keys|;
    RefusedIff(c, h.limiter, q);
  }

  /** b comes when a's window has expired, so that it is forgotten. */
  lemma Forgotten(c: Config, requests: seq<Request>, late: nat, from: int, until: int, x: Scene, q: Request, y: Scene)
    requires ValidConfig(c) && Story(c, requests, late, from, until, x)
    requires q.client == "b" && Leads(c, late, from, until, x, q, y)
    ensures Story(c, requests + [q], late, from, until, y)
  {
    var more := requests + [q];
    assert more[..|requests|] == requests;
    PrunedWindow(c, Serve(c, requests).limiter, OfClient("a"), q.now);
    NextCounts(c, Serve(c, requests), q, OfClient("a"), Serve(c, more));
    var grants := Serve(c, requests).grants;
    if Serve(c, more).grants != grants {
      assert Serve(c, more).grants[..|grants|] == grants;
    }
  }

  lemma WeighLast(h: seq<Use>, u: Use, counts: Use -> bool)
    ensures Weigh(h + [u], counts) == Weigh(h, counts) + if counts(u) then u.weight else 0
  {
  }

  /**
   The end of one window, two or three uses of the next, and the whole of a third: at least seven
   uses of a limit of three. Late instants let a's windows open before the former would have ended.
   */
  lemma MoreThanTwice(w: int, late: nat, span: nat) returns (c: Config, requests: seq<Request>, k: Counter)
    requires NANOS_PER_SECOND <= w <= NANOS_PER_HOUR && span > 0 && span + 2 * late > w + 1
    ensures ValidConfig(c) && c.windowNanos == w && LateBy(requests, late)
    ensures !TwiceWithin(c, requests, k, w - 1, span)
  {
    c, k := SmallConfig(w), OfClient("a");
    var back := Min(late, w);
    var second, third := Max(w - 1, w - back), Max(w - 1, 2 * w - 2 * back);
    requests := [
      Request("a", None, 0), Request("a", None, w - 1), Request("a", None, w - 1), Request("b", None, w),
      Request("a", None, w - back), Request("a", None, second), Request("a", None, second), Request("b", None, 2 * w - back),
      Request("a", None, third), Request("a", None, third), Request("a", None, third)];
    var n, last := if back <= 1 then 3 else 2, 2 * w - back;
    var scenes := [
      Scene(0, Closed, 0), Scene(0, Open(0, 1), 0), Scene(w - 1, Open(0, 2), 1), Scene(w - 1, Open(0, 3), 2), Scene(w, Closed, 2),
      Scene(w, Open(w - back, 1), n), Scene(w, Open(w - back, 2), n + 1), Scene(w, Open(w - back, 3), n + 2), Scene(last, Closed, n + 2),
      Scene(last, Open(third, 1), n + 3), Scene(last, Open(third, 2), n + 4), Scene(last, Open(third, 3), n + 5)];
    StoryBreaksTwice(c, requests, late, w - 1, span, scenes);
  }

  // ----- a client alone -----

  /** The server's limit refuses this request, and the client's own does not. */
  ghost predicate OnlyServerRefuses(c: Config, h: History, q: Request) {
    var pruned := Prune(h.limiter, q.now, c.windowNanos);
    Blocks(c, pruned, q, Global) && !Blocks(c, pruned, q, Client)
  }

  /** Nobody but this client has a window, and the server's window is the same. */
  ghost predicate Alone(s: Limiter, client: ClientKey) {
    s.clients.Keys <= {client} && WindowOf(s, OfClient(client)) == WindowOf(s, OfServer)
  }

  lemma {:induction false} ServeStaysAlone(c: Config, requests: seq<Request>, client: ClientKey)
    requires ValidConfig(c) && forall i :: 0 <= i < |requests| ==> requests[i].client == client
    ensures Alone(Serve(c, requests).limiter, client)
  {
    if requests != [] {
      var h, q := Serve(c, requests[..|requests| - 1]), requests[|requests| - 1];
      ServeStaysAlone(c, requests[..|requests| - 1], client);
      PrunedWindow(c, h.limiter, OfClient(client), q.now);
      PrunedWindow(c, h.limiter, OfServer, q.now);
    }
  }

  /** A client that has the server to itself is never refused by the server's limit alone, however late its instants. */
  lemma LoneClientKeepsItsAllowance(c: Config, requests: seq<Request>, q: Request)
    requires ValidConfig(c) && forall i :: 0 <= i < |requests| ==> requests[i].client == q.client
    ensures !OnlyServerRefuses(c, Serve(c, requests), q)
  {
    var s := Serve(c, requests).limiter;
    ServeStaysAlone(c, requests, q.client);
    PrunedWindow(c, s, OfClient(q.client), q.now);
    PrunedWindow(c, s, OfServer, q.now);
  }
}
