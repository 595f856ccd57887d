/** Why the server's TURN limit has to be twice a client's, and for which instants that is enough. */
module TurnSharing {
  import opened Common
  import opened FixedWindow
  import opened LateWindow
  import opened TurnIssuanceLimiter
  import opened TurnHistory

  // ----- the server's window and a client's -----

  /** How often everybody but this client was served in the server's window that began then. */
  ghost function ServedOthers(grants: seq<Grant>, client: ClientKey, start: int): nat {
    if grants == [] then 0
    else
      var g := grants[|grants| - 1];
      ServedOthers(grants[..|grants| - 1], client, start) + if g.client != client && g.globalStart == start then 1 else 0
  }

  /** The uses of this client in that window of the server, with the client's own windows. */
  ghost function Shared(grants: seq<Grant>, client: ClientKey, start: int): seq<Use> {
    if grants == [] then []
    else
      var g := grants[|grants| - 1];
      Shared(grants[..|grants| - 1], client, start)
      + if g.client == client && g.globalStart == start then [Use(g.at, g.clientStart, 1)] else []
  }

  /** While the server's window lasts, only those windows of a client come to an end that began before it. */
  ghost predicate Shares(uses: seq<Use>, start: int, w: int, late: int) {
    && (forall i :: 0 <= i < |uses| ==> uses[i].start + w > start && uses[i].weight == 1)
    && (forall i, j :: 0 <= i < j < |uses| && uses[i].start != uses[j].start
                       ==> uses[i].start < start && uses[i].start + w <= uses[j].start + late)
  }

  /** The two current windows, and what they imply for the next use. */
  ghost predicate Joint(c: Config, h: History, client: ClientKey, late: int) {
    var own, server := WindowOf(h.limiter, OfClient(client)), WindowOf(h.limiter, OfServer);
    && (forall start :: Shares(Shared(h.grants, client, start), start, c.windowNanos, late))
    && (server.Open? ==> Fits(Shared(h.grants, client, server.start), own, server.start, c.windowNanos))
  }

  ghost predicate Fits(uses: seq<Use>, own: Window, start: int, w: int) {
    && (own.Open? ==> own.start + w > start)
    && forall i :: 0 <= i < |uses| ==> (own.Open? && own.start == uses[i].start) || uses[i].start < start
  }

  lemma {:induction false} SharedAmongOwn(grants: seq<Grant>, client: ClientKey, start: int)
    ensures forall u :: u in Shared(grants, client, start) ==> u in Uses(OfClient(client), grants)
    ensures forall s :: Weigh(Shared(grants, client, start), InWindow(s)) <= Weigh(Uses(OfClient(client), grants), InWindow(s))
  {
    if grants != [] {
      SharedAmongOwn(grants[..|grants| - 1], client, start);
      var g := grants[|grants| - 1];
      var shared, own := Shared(grants[..|grants| - 1], client, start), Uses(OfClient(client), grants[..|grants| - 1]);
      var use := Use(g.at, g.clientStart, 1);
      forall s
        ensures Weigh(Shared(grants, client, start), InWindow(s)) <= Weigh(Uses(OfClient(client), grants), InWindow(s))
      {
        assert Weigh(shared, InWindow(s)) <= Weigh(own, InWindow(s));
        WeighLast(shared, use, InWindow(s));
        WeighLast(own, use, InWindow(s));
        assert shared + [] == shared && own + [] == own;
      }
    }
  }

  /** No use was counted in a window of the server that began later than all that have ended. */
  lemma {:induction false} NothingShared(grants: seq<Grant>, client: ClientKey, start: int)
    requires forall i :: 0 <= i < |grants| ==> grants[i].globalStart != start
    ensures Shared(grants, client, start) == []
  {
    if grants != [] {
      NothingShared(grants[..|grants| - 1], client, start);
    }
  }

  lemma {:induction false} ServerUses(grants: seq<Grant>)
    ensures |Uses(OfServer, grants)| == |grants|
    ensures forall i :: 0 <= i < |grants| ==> Uses(OfServer, grants)[i] == Use(grants[i].at, grants[i].globalStart, 1)
  {
    if grants != [] {
      ServerUses(grants[..|grants| - 1]);
    }
  }

  /** What the server's window has counted is this client's share and the others'. */
  lemma {:induction false} ServerShare(grants: seq<Grant>, client: ClientKey, start: int)
    ensures Weigh(Uses(OfServer, grants), InWindow(start)) == |Shared(grants, client, start)| + ServedOthers(grants, client, start)
  {
    if grants != [] {
      var g := grants[|grants| - 1];
      ServerShare(grants[..|grants| - 1], client, start);
      WeighLast(Uses(OfServer, grants[..|grants| - 1]), Use(g.at, g.globalStart, 1), InWindow(start));
    }
  }

  // ----- how much of the server's window one client can take -----

  ghost function StartedFrom(from: int): Use -> bool { (u: Use) => u.start >= from }

  lemma {:induction false} LaterWindows(uses: seq<Use>, start: int, w: int, late: int, max: nat, from: int, m: nat)
    requires Shares(uses, start, w, late) && late < w && forall s :: Weigh(uses, InWindow(s)) <= max
    requires from + m * (w - late) >= start
    ensures Weigh(uses, StartedFrom(from)) <= (m + 1) * max
    decreases m
  {
    if i: nat :| FirstOf(uses, StartedFrom(from), i) {
      var s := uses[i].start;
      assert Weigh(uses, InWindow(s)) <= max;
      if m == 0 {
        WeighLess(uses, StartedFrom(from), InWindow(s));
      } else {
        assert m * (w - late) == (m - 1) * (w - late) + (w - late);
        LaterWindows(uses, start, w, late, max, from + w - late, m - 1);
        WeighSplit(uses, StartedFrom(from), InWindow(s), StartedFrom(from + w - late));
        OneMore(m, max);
      }
    } else {
      NoFirst(uses, StartedFrom(from));
      WeighNone(uses, StartedFrom(from));
      assert 0 <= (m + 1) * max;
    }
  }

  lemma {:induction false} WeighAll(uses: seq<Use>, counts: Use -> bool)
    requires forall i :: 0 <= i < |uses| ==> counts(uses[i]) && uses[i].weight == 1
    ensures Weigh(uses, counts) == |uses|
  {
    if uses != [] {
      WeighAll(uses[..|uses| - 1], counts);
    }
  }

  /** A client that is at most so late takes at most m + 2 of its own windows' worth. */
  lemma ShareBound(uses: seq<Use>, start: int, w: int, late: int, max: nat, m: nat)
    requires Shares(uses, start, w, late) && late < w && forall s :: Weigh(uses, InWindow(s)) <= max
    requires m * (w - late) + 1 >= late
    ensures |uses| <= (m + 2) * max
  {
    assert (m + 1) * (w - late) == m * (w - late) + (w - late);
    LaterWindows(uses, start, w, late, max, start - w + 1, m + 1);
    WeighAll(uses, StartedFrom(start - w + 1));
  }

  // ----- over every history -----

  lemma PruneStaysJoint(c: Config, h: History, client: ClientKey, late: int, now: int)
    requires Joint(c, h, client, late)
    ensures Joint(c, h.(limiter := Prune(h.limiter, now, c.windowNanos)), client, late)
  {
    PrunedWindow(c, h.limiter, OfClient(client), now);
    PrunedWindow(c, h.limiter, OfServer, now);
  }

  /** The server's window, or the one a use at this instant would begin. */
  function Current(win: Window, now: int): int {
    if win.Open? then win.start else now
  }

  lemma MemberStarts(uses: seq<Use>, w: int, late: int, max: nat, win: Window, front: int, now: int, u: Use)
    requires LateTracks(uses, w, late, max, win, front) && u in uses && front <= now + late
    requires u.start != Current(win, now)
    ensures u.start + w <= Current(win, now) + late
  {
    var i :| 0 <= i < |uses| && uses[i] == u;
  }

  /** One more use of the client: it shares the server's window with those before. */
  lemma OneMoreShared(shared: seq<Use>, all: seq<Use>, own: Window, server: Window, w: int, late: int, max: nat, front: int, now: int)
    requires LateTracks(all, w, late, max, own, front) && now <= front <= now + late && late < w
    requires forall u :: u in shared ==> u in all
    requires Shares(shared, Current(server, now), w, late)
    requires if server.Open? then Fits(shared, own, server.start, w) && server.start <= front else shared == []
    requires own.Open? ==> !Expired(own, w, now)
    ensures var more := shared + [Use(now, Current(own, now), 1)];
            Shares(more, Current(server, now), w, late) && Fits(more, Open(Current(own, now), 1), Current(server, now), w)
  {
    forall i | 0 <= i < |shared| && shared[i].start != Current(own, now)
      ensures shared[i].start + w <= Current(own, now) + late
    {
      MemberStarts(all, w, late, max, own, front, now, shared[i]);
    }
  }

  lemma NothingYet(c: Config, h: History, client: ClientKey, late: nat, front: int, now: int)
    requires Exact(c, h, OfServer, late, front) && WindowOf(h.limiter, OfServer).Closed?
    requires front <= now + late && late < c.windowNanos
    ensures Shared(h.grants, client, now) == []
  {
    ServerUses(h.grants);
    forall i | 0 <= i < |h.grants|
      ensures h.grants[i].globalStart != now
    {
      assert Uses(OfServer, h.grants)[i].start + c.windowNanos <= front;
    }
    NothingShared(h.grants, client, now);
  }

  /** What a request that is served does, once expired windows are gone. */
  lemma GrantIs(c: Config, h: History, q: Request, pruned: Limiter, h': History)
    requires ValidConfig(c) && h' == Next(c, h, q) && Refusal(c, h.limiter, q) == None
    requires pruned == Prune(h.limiter, q.now, c.windowNanos)
    ensures |h'.grants| == |h.grants| + 1 && h'.grants[..|h.grants|] == h.grants
    ensures var g := h'.grants[|h.grants|];
            && g.at == q.now && g.client == q.client
            && g.clientStart == Current(WindowOf(pruned, OfClient(q.client)), q.now)
            && g.globalStart == Current(WindowOf(pruned, OfServer), q.now)
    ensures forall client :: client != q.client ==> WindowOf(h'.limiter, OfClient(client)) == WindowOf(pruned, OfClient(client))
    ensures WindowOf(h'.limiter, OfClient(q.client)).Open?
    ensures WindowOf(h'.limiter, OfClient(q.client)).start == Current(WindowOf(pruned, OfClient(q.client)), q.now)
    ensures WindowOf(h'.limiter, OfServer).Open?
    ensures WindowOf(h'.limiter, OfServer).start == Current(WindowOf(pruned, OfServer), q.now)
  {
  }

  lemma SharedStep(grants: seq<Grant>, client: ClientKey, start: int)
    requires grants != []
    ensures var g := grants[|grants| - 1];
            Shared(grants, client, start) == if g.client == client && g.globalStart == start
                                             then Shared(grants[..|grants| - 1], client, start) + [Use(g.at, g.clientStart, 1)]
                                             else Shared(grants[..|grants| - 1], client, start)
  {
  }

  lemma NextStaysJoint(c: Config, h: History, q: Request, client: ClientKey, late: nat, front: int, h': History)
    requires ValidConfig(c) && late < c.windowNanos && front <= q.now + late && h' == Next(c, h, q)
    requires Exact(c, h, OfClient(client), late, front) && Exact(c, h, OfServer, late, front) && Joint(c, h, client, late)
    ensures Joint(c, h', client, late)
  {
    var pruned := Prune(h.limiter, q.now, c.windowNanos);
    var hp := h.(limiter := pruned);
    PruneStaysJoint(c, h, client, late, q.now);
    PruneStaysExact(c, h, OfClient(client), late, front, q.now);
    PruneStaysExact(c, h, OfServer, late, front, q.now);
    if Refusal(c, h.limiter, q) == None {
      GrantStaysJoint(c, h, q, client, late, Max(front, q.now), pruned, h');
    }
  }

  lemma PruneStaysExact(c: Config, h: History, k: Counter, late: nat, front: int, now: int)
    requires Exact(c, h, k, late, front)
    ensures Exact(c, h.(limiter := Prune(h.limiter, now, c.windowNanos)), k, late, Max(front, now))
    ensures !Expired(WindowOf(h.limiter, k), c.windowNanos, now) || WindowOf(Prune(h.limiter, now, c.windowNanos), k).Closed?
  {
    PrunedWindow(c, h.limiter, k, now);
    LatePruned(Uses(k, h.grants), c.windowNanos, late, LimitOf(c, k), WindowOf(h.limiter, k), front, now);
  }

  lemma GrantStaysJoint(c: Config, h: History, q: Request, client: ClientKey, late: nat, front: int, pruned: Limiter, h': History)
    requires ValidConfig(c) && late < c.windowNanos && q.now <= front <= q.now + late
    requires pruned == Prune(h.limiter, q.now, c.windowNanos)
    requires h' == Next(c, h, q) && Refusal(c, h.limiter, q) == None
    requires Exact(c, h.(limiter := pruned), OfClient(client), late, front) && Exact(c, h.(limiter := pruned), OfServer, late, front)
    requires Joint(c, h.(limiter := pruned), client, late)
    ensures Joint(c, h', client, late)
  {
    var own, server := WindowOf(pruned, OfClient(client)), WindowOf(pruned, OfServer);
    var start := Current(server, q.now);
    GrantIs(c, h, q, pruned, h');
    PrunedWindow(c, h.limiter, OfClient(client), q.now);
    if server.Closed? {
      NothingYet(c, h.(limiter := pruned), client, late, front, q.now);
    }
    var shared := Shared(h.grants, client, start);
    assert Shares(shared, start, c.windowNanos, late);
    if q.client == client {
      SharedAmongOwn(h.grants, client, start);
      OneMoreShared(shared, Uses(OfClient(client), h.grants), own, server, c.windowNanos, late, c.maxPerClient, front, q.now);
    }
    forall s
      ensures Shares(Shared(h'.grants, client, s), s, c.windowNanos, late)
    {
      SharedStep(h'.grants, client, s);
      assert Shares(Shared(h.grants, client, s), s, c.windowNanos, late);
    }
    SharedStep(h'.grants, client, start);
  }

  lemma {:induction false} ServeStaysJoint(c: Config, requests: seq<Request>, client: ClientKey, late: nat)
    requires ValidConfig(c) && LateBy(requests, late) && late < c.windowNanos
    ensures Joint(c, Serve(c, requests), client, late)
  {
    if requests != [] {
      var before, q := requests[..|requests| - 1], requests[|requests| - 1];
      var front := if before == [] then q.now else Front(before);
      ServeStaysJoint(c, before, client, late);
      ServeStaysExact(c, before, OfClient(client), late, front);
      ServeStaysExact(c, before, OfServer, late, front);
      NextStaysJoint(c, Serve(c, before), q, client, late, front, Serve(c, requests));
    }
  }

  // ----- what a refusal by the server says -----

  /** The others were served more in the server's window than it has beyond n times a client's limit. */
  ghost predicate OthersTook(c: Config, h: History, q: Request, n: nat) {
    && h.limiter.globalWindow.Some?
    && ServedOthers(h.grants, q.client, h.limiter.globalWindow.value.startedAt) > c.maxGlobal - n * c.maxPerClient
  }

  /** The refused use would still have been within the client's own limit. */
  lemma RoomInShare(shared: seq<Use>, all: seq<Use>, own: Window, server: Window, w: int, late: nat, max: nat, front: int, now: int, m: nat)
    requires LateTracks(all, w, late, max, own, front) && now <= front <= now + late && late < w && max > 0
    requires forall u :: u in shared ==> u in all
    requires forall s :: Weigh(shared, InWindow(s)) <= Weigh(all, InWindow(s))
    requires server.Open? && server.start <= front && Shares(shared, server.start, w, late) && Fits(shared, own, server.start, w)
    requires own.Open? ==> !Expired(own, w, now) && own.used < max
    requires m * (w - late) + 1 >= late
    ensures |shared| < (m + 2) * max
  {
    var use := Use(now, Current(own, now), 1);
    OneMoreShared(shared, all, own, server, w, late, max, front, now);
    LateCounted(all, w, late, max, own, front, now, if own.Closed? then Open(now, 1) else own.(used := own.used + 1));
    forall s
      ensures Weigh(shared + [use], InWindow(s)) <= max
    {
      assert Weigh(all + [use], InWindow(s)) <= max;
      WeighLast(all, use, InWindow(s));
      WeighLast(shared, use, InWindow(s));
    }
    ShareBound(shared + [use], server.start, w, late, max, m);
  }

  lemma RoomForOneMore(c: Config, h: History, q: Request, late: nat, front: int, m: nat)
    requires ValidConfig(c) && late < c.windowNanos && q.now <= front <= q.now + late && m * (c.windowNanos - late) + 1 >= late
    requires h.limiter == Prune(h.limiter, q.now, c.windowNanos) && !Blocks(c, h.limiter, q, Client)
    requires Exact(c, h, OfClient(q.client), late, front) && Exact(c, h, OfServer, late, front) && Joint(c, h, q.client, late)
    requires h.limiter.globalWindow.Some?
    ensures |Shared(h.grants, q.client, h.limiter.globalWindow.value.startedAt)| < (m + 2) * c.maxPerClient
  {
    var own, server := WindowOf(h.limiter, OfClient(q.client)), WindowOf(h.limiter, OfServer);
    var shared, all := Shared(h.grants, q.client, server.start), Uses(OfClient(q.client), h.grants);
    PrunedWindow(c, h.limiter, OfClient(q.client), q.now);
    SharedAmongOwn(h.grants, q.client, server.start);
    assert Shares(shared, server.start, c.windowNanos, late);
    RoomInShare(shared, all, own, server, c.windowNanos, late, c.maxPerClient, front, q.now, m);
  }

  /**
   If the server's limit refuses a client that is within its own limit, then in the server's window
   the others took what the server has beyond m + 2 times a client's limit; instants may be so late
   that m windows, each shorter by the lateness, are as long as that.
   */
  lemma ServerRefusalNeedsOthers(c: Config, requests: seq<Request>, late: nat, h: History, q: Request, m: nat)
    requires ValidConfig(c) && LateBy(requests + [q], late) && h == Serve(c, requests)
    requires late < c.windowNanos && m * (c.windowNanos - late) + 1 >= late
    requires OnlyServerRefuses(c, h, q)
    ensures OthersTook(c, h, q, m + 2)
  {
    var before := requests + [q];
    assert forall i, j :: 0 <= i < j < |requests| ==> before[i] == requests[i] && before[j] == requests[j];
    var front := if requests == [] then q.now else Front(requests);
    FrontIsReached(requests, q, late);
    ServeStaysJoint(c, requests, q.client, late);
    ServeStaysExact(c, requests, OfClient(q.client), late, front);
    ServeStaysExact(c, requests, OfServer, late, front);
    PruneStaysJoint(c, h, q.client, late, q.now);
    PruneStaysExact(c, h, OfClient(q.client), late, front, q.now);
    PruneStaysExact(c, h, OfServer, late, front, q.now);
    var hp := h.(limiter := Prune(h.limiter, q.now, c.windowNanos));
    PruneTwice(h.limiter, q.now, q.now, c.windowNanos);
    RoomForOneMore(c, hp, q, late, Max(front, q.now), m);
    ServerShare(h.grants, q.client, h.limiter.globalWindow.value.startedAt);
  }

  lemma FrontIsReached(requests: seq<Request>, q: Request, late: nat)
    requires LateBy(requests + [q], late)
    ensures requests != [] ==> Front(requests) <= q.now + late
  {
    if requests != [] {
      var i :| 0 <= i < |requests| && requests[i].now == Front(requests);
      assert (requests + [q])[i] == requests[i] && (requests + [q])[|requests|] == q;
    }
  }

  // ----- twice is enough for punctual instants only -----

  /** A refusal by the server alone always means that the others took more than the server has beyond twice a client's limit. */
  ghost predicate TwiceIsEnough(windowNanos: int, late: nat) {
    forall c, requests, q ::
      (ValidConfig(c) && c.windowNanos == windowNanos && LateBy(requests + [q], late) && OnlyServerRefuses(c, Serve(c, requests), q))
      ==> OthersTook(c, Serve(c, requests), q, 2)
  }

  function FewConfig(windowNanos: int): Config {
    Config(windowNanos, 2, 1, 6, 10, 10)
  }

  /** The latest instant, the windows of the clients a and b and of the server, and how often b was served in one of the latter. */
  datatype Moment = Moment(front: int, a: Window, b: Window, server: Window, others: nat)

  function Live(win: Window, w: int, now: int): Window {
    if Expired(win, w, now) then Closed else win
  }

  function OneMoreUsed(win: Window, now: int): Window {
    if win.Closed? then Open(now, 1) else Open(win.start, win.used + 1)
  }

  /** One of the clients a and b is served. */
  predicate Brings(c: Config, late: nat, start: int, x: Moment, q: Request, y: Moment) {
    var a, b, server := Live(x.a, c.windowNanos, q.now), Live(x.b, c.windowNanos, q.now), Live(x.server, c.windowNanos, q.now);
    && q.participant == None && q.client in {"a", "b"} && x.front <= q.now + late && y.front == Max(x.front, q.now)
    && (server.Open? ==> server.used < c.maxGlobal) && y.server == OneMoreUsed(server, q.now)
    && (if q.client == "a" then (a.Open? ==> a.used < c.maxPerClient) && y.a == OneMoreUsed(a, q.now) && y.b == b
        else (b.Open? ==> b.used < c.maxPerClient) && y.a == a && y.b == OneMoreUsed(b, q.now))
    && y.others == x.others + if q.client == "b" && y.server.start == start then 1 else 0
  }

  ghost predicate Tale(c: Config, requests: seq<Request>, late: nat, start: int, x: Moment)
    requires ValidConfig(c)
  {
    && LateBy(requests, late) && (forall i :: 0 <= i < |requests| ==> requests[i].now <= x.front)
    && Shows(Serve(c, requests), start, x)
  }

  ghost predicate Shows(h: History, start: int, x: Moment) {
    && h.limiter.participants == map[] && h.limiter.clients.Keys <= {"a", "b"}
    && WindowOf(h.limiter, OfClient("a")) == x.a && WindowOf(h.limiter, OfClient("b")) == x.b
    && WindowOf(h.limiter, OfServer) == x.server && ServedOthers(h.grants, "a", start) == x.others
  }

  lemma {:induction false} TaleIsTold(c: Config, requests: seq<Request>, late: nat, start: int, moments: seq<Moment>)
    requires ValidConfig(c) && c == FewConfig(c.windowNanos)
    requires |moments| == |requests| + 1 && moments[0] == Moment(0, Closed, Closed, Closed, 0)
    requires forall i :: 0 <= i < |requests| ==> Brings(c, late, start, moments[i], requests[i], moments[i + 1])
    ensures Tale(c, requests, late, start, moments[|requests|])
  {
    if requests != [] {
      var n := |requests| - 1;
      TaleIsTold(c, requests[..n], late, start, moments[..n + 1]);
      assert requests == requests[..n] + [requests[n]];
      TaleGoesOn(c, requests[..n], late, start, moments[n], requests[n], moments[n + 1]);
    }
  }

  lemma TaleGoesOn(c: Config, requests: seq<Request>, late: nat, start: int, x: Moment, q: Request, y: Moment)
    requires ValidConfig(c) && c == FewConfig(c.windowNanos) && Tale(c, requests, late, start, x)
    requires Brings(c, late, start, x, q, y)
    ensures Tale(c, requests + [q], late, start, y)
  {
    assert (requests + [q])[..|requests|] == requests;
    MomentPasses(c, Serve(c, requests), late, start, x, q, y, Serve(c, requests + [q]));
  }

  lemma MomentPasses(c: Config, h: History, late: nat, start: int, x: Moment, q: Request, y: Moment, h': History)
    requires ValidConfig(c) && c == FewConfig(c.windowNanos) && Shows(h, start, x)
    requires Brings(c, late, start, x, q, y) && h' == Next(c, h, q)
    ensures Shows(h', start, y)
  {
    var pruned := Prune(h.limiter, q.now, c.windowNanos);
    PrunedWindow(c, h.limiter, OfClient("a"), q.now);
    PrunedWindow(c, h.limiter, OfClient("b"), q.now);
    PrunedWindow(c, h.limiter, OfServer, q.now);
    NotRefused(c, h, q);
    GrantIs(c, h, q, pruned, h');
  }

  /** a is served in three of its own windows during one of the server's: as b comes, its first and its second are forgotten early. */
  lemma ThreeWindowsShare(w: int, late: nat) returns (c: Config, requests: seq<Request>, q: Request)
    requires NANOS_PER_SECOND <= w <= NANOS_PER_HOUR && late >= 2
    ensures ValidConfig(c) && c.windowNanos == w && LateBy(requests + [q], late)
    ensures OnlyServerRefuses(c, Serve(c, requests), q) && !OthersTook(c, Serve(c, requests), q, 2)
  {
    c, q := FewConfig(w), Request("a", None, 2 * w - 3);
    requests := [
      Request("b", None, 0), Request("a", None, 1), Request("a", None, w), Request("b", None, w + 1),
      Request("a", None, w - 1), Request("a", None, w - 1), Request("b", None, 2 * w - 1), q];
    var moments := [
      Moment(0, Closed, Closed, Closed, 0),
      Moment(0, Closed, Open(0, 1), Open(0, 1), 0), Moment(1, Open(1, 1), Open(0, 1), Open(0, 2), 0),
      Moment(w, Open(1, 2), Closed, Open(w, 1), 0), Moment(w + 1, Closed, Open(w + 1, 1), Open(w, 2), 1),
      Moment(w + 1, Open(w - 1, 1), Open(w + 1, 1), Open(w, 3), 1), Moment(w + 1, Open(w - 1, 2), Open(w + 1, 1), Open(w, 4), 1),
      Moment(2 * w - 1, Closed, Open(w + 1, 2), Open(w, 5), 2), Moment(2 * w - 1, Open(2 * w - 3, 1), Open(w + 1, 2), Open(w, 6), 2)];
    TaleIsTold(c, requests, late, w, moments);
    RefusedInTheEnd(c, requests, late, w, moments[8], q);
  }

  lemma RefusedInTheEnd(c: Config, requests: seq<Request>, late: nat, start: int, x: Moment, q: Request)
    requires ValidConfig(c) && Tale(c, requests, late, start, x) && q.client == "a" && x.front <= q.now + late
    requires Live(x.a, c.windowNanos, q.now).Open? && x.a.used < c.maxPerClient
    requires Live(x.server, c.windowNanos, q.now).Open? && x.server.used >= c.maxGlobal && x.server.start == start
    requires x.others <= c.maxGlobal - 2 * c.maxPerClient
    ensures LateBy(requests + [q], late)
    ensures OnlyServerRefuses(c, Serve(c, requests), q) && !OthersTook(c, Serve(c, requests), q, 2)
  {
    var s := Serve(c, requests).limiter;
    PrunedWindow(c, s, OfClient("a"), q.now);
    PrunedWindow(c, s, OfServer, q.now);
  }

  /** That the server's limit is twice a client's is enough if and only if no instant is more than a nanosecond late. */
  lemma TwiceIsEnoughExactly(windowNanos: int, late: nat)
    requires NANOS_PER_SECOND <= windowNanos <= NANOS_PER_HOUR
    ensures TwiceIsEnough(windowNanos, late) <==> late <= 1
  {
    if late <= 1 {
      forall c, requests, q | ValidConfig(c) && c.windowNanos == windowNanos && LateBy(requests + [q], late)
                              && OnlyServerRefuses(c, Serve(c, requests), q)
        ensures OthersTook(c, Serve(c, requests), q, 2)
      {
        ServerRefusalNeedsOthers(c, requests, late, Serve(c, requests), q, 0);
      }
    } else {
      var c, requests, q := ThreeWindowsShare(windowNanos, late);
    }
  }
}
