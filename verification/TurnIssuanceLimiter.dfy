/**
 The rate limiter of TURN credentials (TurnIssuanceLimiter.java): fixed windows per client, per
 participant and for the whole server, with a bound on how many windows are remembered.
 */
module TurnIssuanceLimiter {
  import opened Common

  const NANOS_PER_SECOND := 1_000_000_000
  const NANOS_PER_HOUR := 3_600_000_000_000

  type ClientKey = string

  type ParticipantKey = string

  /** In the order the source declares them, which breaks ties between equal delays. */
  datatype Scope = Client | Participant | Global | ClientStateCapacity | ParticipantStateCapacity

  function Rank(s: Scope): nat {
    match s
    case Client => 0
    case Participant => 1
    case Global => 2
    case ClientStateCapacity => 3
    case ParticipantStateCapacity => 4
  }

  datatype Config = Config(
    windowNanos: int, maxPerClient: nat, maxPerParticipant: nat, maxGlobal: nat,
    maxTrackedClients: nat, maxTrackedParticipants: nat)

  /** What TurnProperties validates. */
  predicate ValidConfig(c: Config) {
    && NANOS_PER_SECOND <= c.windowNanos <= NANOS_PER_HOUR
    && 1 <= c.maxPerClient <= 10_000 && 1 <= c.maxPerParticipant <= 10_000 && 1 <= c.maxGlobal <= 1_000_000
    && 1 <= c.maxTrackedClients <= 1_000_000 && 1 <= c.maxTrackedParticipants <= 1_000_000
    && c.maxGlobal >= 2 * c.maxPerClient
  }

  datatype IssuanceWindow = IssuanceWindow(startedAt: int, attempts: int)

  datatype Rejected = Rejected(retryAfterNanos: int, scope: Scope)

  datatype Limiter = Limiter(
    clients: map<ClientKey, IssuanceWindow>,
    participants: map<ParticipantKey, IssuanceWindow>,
    globalWindow: Option<IssuanceWindow>)

  datatype Request = Request(client: ClientKey, participant: Option<ParticipantKey>, now: int)

  predicate IsExpired(w: IssuanceWindow, now: int, windowNanos: int) {
    now - w.startedAt >= windowNanos
  }

  function RetryAfter(w: IssuanceWindow, now: int, windowNanos: int): int {
    Max(1, windowNanos - Max(0, now - w.startedAt))
  }

  function Unexpired<K>(windows: map<K, IssuanceWindow>, now: int, windowNanos: int): map<K, IssuanceWindow> {
    map k | k in windows && !IsExpired(windows[k], now, windowNanos) :: windows[k]
  }

  function Prune(s: Limiter, now: int, windowNanos: int): Limiter {
    Limiter(
      Unexpired(s.clients, now, windowNanos),
      Unexpired(s.participants, now, windowNanos),
      if s.globalWindow.Some? && IsExpired(s.globalWindow.value, now, windowNanos) then None else s.globalWindow)
  }

  ghost predicate Soonest<K>(windows: map<K, IssuanceWindow>, now: int, windowNanos: int, delay: int) {
    && (exists k :: k in windows && delay == RetryAfter(windows[k], now, windowNanos))
    && (forall k :: k in windows ==> delay <= RetryAfter(windows[k], now, windowNanos))
  }

  lemma {:induction false} SoonestExists<K>(windows: map<K, IssuanceWindow>, now: int, windowNanos: int)
    requires windows != map[]
    ensures exists delay :: Soonest(windows, now, windowNanos, delay)
    decreases |windows|
  {
    var k :| k in windows;
    var own := RetryAfter(windows[k], now, windowNanos);
    var rest := windows - {k};
    if rest == map[] {
      assert forall x :: x in windows ==> x == k || x in rest;
      assert Soonest(windows, now, windowNanos, own);
    } else {
      SoonestExists(rest, now, windowNanos);
      var other :| Soonest(rest, now, windowNanos, other);
      assert forall x :: x in windows ==> x == k || x in rest;
      assert Soonest(windows, now, windowNanos, Min(own, other));
    }
  }

  /** When the first of the remembered windows is forgotten. */
  ghost function RetryAfterCapacity<K>(windows: map<K, IssuanceWindow>, now: int, windowNanos: int): (delay: int)
    requires windows != map[]
    ensures Soonest(windows, now, windowNanos, delay)
  {
    SoonestExists(windows, now, windowNanos);
    var delay :| Soonest(windows, now, windowNanos, delay);
    delay
  }

  /** Whether a limiter without expired windows refuses the request on account of this scope. */
  predicate Blocks(c: Config, s: Limiter, q: Request, scope: Scope) {
    match scope
    case Client => q.client in s.clients && s.clients[q.client].attempts >= c.maxPerClient
    case Participant =>
      && q.participant.Some? && q.participant.value in s.participants
      && s.participants[q.participant.value].attempts >= c.maxPerParticipant
    case Global => s.globalWindow.Some? && s.globalWindow.value.attempts >= c.maxGlobal
    case ClientStateCapacity => q.client !in s.clients && |s.clients| >= c.maxTrackedClients
    case ParticipantStateCapacity =>
      && q.participant.Some? && q.participant.value !in s.participants
      && |s.participants| >= c.maxTrackedParticipants
  }

  ghost function DelayOf(c: Config, s: Limiter, q: Request, scope: Scope): int
    requires ValidConfig(c) && Blocks(c, s, q, scope)
  {
    match scope
    case Client => RetryAfter(s.clients[q.client], q.now, c.windowNanos)
    case Participant => RetryAfter(s.participants[q.participant.value], q.now, c.windowNanos)
    case Global => RetryAfter(s.globalWindow.value, q.now, c.windowNanos)
    case ClientStateCapacity => RetryAfterCapacity(s.clients, q.now, c.windowNanos)
    case ParticipantStateCapacity => RetryAfterCapacity(s.participants, q.now, c.windowNanos)
  }

  ghost function Rejections(c: Config, s: Limiter, q: Request, scopes: seq<Scope>): (r: seq<Rejected>)
    requires ValidConfig(c)
    ensures forall x :: x in r ==> x.scope in scopes && Blocks(c, s, q, x.scope)
                                   && x.retryAfterNanos == DelayOf(c, s, q, x.scope)
    ensures forall scope :: scope in scopes && Blocks(c, s, q, scope)
                            ==> Rejected(DelayOf(c, s, q, scope), scope) in r
  {
    if scopes == [] then []
    else
      (if Blocks(c, s, q, scopes[0]) then [Rejected(DelayOf(c, s, q, scopes[0]), scopes[0])] else [])
      + Rejections(c, s, q, scopes[1..])
  }

  /** The order in which the source looks for reasons to refuse. */
  const SCOPES := [Participant, Client, Global, ParticipantStateCapacity, ClientStateCapacity]

  predicate Later(a: Rejected, b: Rejected) {
    a.retryAfterNanos > b.retryAfterNanos
    || (a.retryAfterNanos == b.retryAfterNanos && Rank(a.scope) >= Rank(b.scope))
  }

  function Latest(rs: seq<Rejected>): (r: Rejected)
    requires rs != []
    ensures r in rs && forall x :: x in rs ==> Later(r, x)
  {
    if |rs| == 1 then rs[0]
    else
      var rest := Latest(rs[1..]);
      assert forall x :: x in rs ==> x == rs[0] || x in rs[1..];
      if Later(rs[0], rest) then rs[0] else rest
  }

  function Counted<K>(windows: map<K, IssuanceWindow>, key: K, now: int): map<K, IssuanceWindow> {
    var w := if key in windows then windows[key] else IssuanceWindow(now, 0);
    windows[key := w.(attempts := w.attempts + 1)]
  }

  function Count(s: Limiter, q: Request): Limiter {
    var g := if s.globalWindow.Some? then s.globalWindow.value else IssuanceWindow(q.now, 0);
    Limiter(
      Counted(s.clients, q.client, q.now),
      if q.participant.Some? then Counted(s.participants, q.participant.value, q.now) else s.participants,
      Some(g.(attempts := g.attempts + 1)))
  }

  ghost function Refusal(c: Config, s: Limiter, q: Request): Option<Rejected>
    requires ValidConfig(c)
  {
    var rs := Rejections(c, Prune(s, q.now, c.windowNanos), q, SCOPES);
    if rs == [] then None else Some(Latest(rs))
  }

  /** The limiter after a request; a refused request is not counted anywhere. */
  ghost function After(c: Config, s: Limiter, q: Request): Limiter
    requires ValidConfig(c)
  {
    var pruned := Prune(s, q.now, c.windowNanos);
    if Refusal(c, s, q).Some? then pruned else Count(pruned, q)
  }

  // ----- the promised delay is exact -----

  ghost predicate Bounded(c: Config, s: Limiter) {
    |s.clients| <= c.maxTrackedClients && |s.participants| <= c.maxTrackedParticipants
  }

  /** When the limiter forgets the first of some windows. */
  ghost predicate FirstForgotten<K>(windows: map<K, IssuanceWindow>, windowNanos: int, release: int) {
    && (exists k :: k in windows && release == windows[k].startedAt + windowNanos)
    && (forall k :: k in windows ==> release <= windows[k].startedAt + windowNanos)
  }

  /** The instant at which a reason to refuse ends by itself. */
  ghost predicate EndsAt(c: Config, s: Limiter, q: Request, scope: Scope, release: int) {
    match scope
    case Client => q.client in s.clients && release == s.clients[q.client].startedAt + c.windowNanos
    case Participant =>
      && q.participant.Some? && q.participant.value in s.participants
      && release == s.participants[q.participant.value].startedAt + c.windowNanos
    case Global => s.globalWindow.Some? && release == s.globalWindow.value.startedAt + c.windowNanos
    case ClientStateCapacity => FirstForgotten(s.clients, c.windowNanos, release)
    case ParticipantStateCapacity => FirstForgotten(s.participants, c.windowNanos, release)
  }

  lemma AllScopes()
    ensures forall scope: Scope :: scope in SCOPES
  {
    forall scope: Scope
      ensures scope in SCOPES
    {
      var i := match scope case Participant => 0 case Client => 1 case Global => 2
                           case ParticipantStateCapacity => 3 case ClientStateCapacity => 4;
      assert SCOPES[i] == scope;
    }
  }

  lemma RefusedIff(c: Config, s: Limiter, q: Request)
    requires ValidConfig(c)
    ensures Refusal(c, s, q).Some? <==> exists scope :: Blocks(c, Prune(s, q.now, c.windowNanos), q, scope)
  {
  }

  /** A window that is forgotten at one instant counts again at another. */
  ghost predicate Revives<K>(windows: map<K, IssuanceWindow>, now: int, later: int, windowNanos: int) {
    exists k :: k in windows && IsExpired(windows[k], now, windowNanos) && !IsExpired(windows[k], later, windowNanos)
  }

  lemma UnexpiredTwice<K>(windows: map<K, IssuanceWindow>, now: int, later: int, windowNanos: int)
    ensures Unexpired(Unexpired(windows, now, windowNanos), later, windowNanos) == Unexpired(windows, later, windowNanos)
            <==> !Revives(windows, now, later, windowNanos)
  {
    var once, twice := Unexpired(windows, later, windowNanos), Unexpired(Unexpired(windows, now, windowNanos), later, windowNanos);
    if k :| k in windows && IsExpired(windows[k], now, windowNanos) && !IsExpired(windows[k], later, windowNanos) {
      assert k in once && k !in twice;
    } else {
      assert once == twice;
    }
  }

  /**
   Forgetting expired windows early is unobservable exactly if none of them counts again at the
   later instant; so it is unless that is really an earlier one.
   */
  lemma PruneTwice(s: Limiter, now: int, later: int, windowNanos: int)
    ensures Prune(Prune(s, now, windowNanos), later, windowNanos) == Prune(s, later, windowNanos)
            <==> && !Revives(s.clients, now, later, windowNanos) && !Revives(s.participants, now, later, windowNanos)
                 && !(s.globalWindow.Some? && IsExpired(s.globalWindow.value, now, windowNanos)
                      && !IsExpired(s.globalWindow.value, later, windowNanos))
    ensures now <= later ==> Prune(Prune(s, now, windowNanos), later, windowNanos) == Prune(s, later, windowNanos)
  {
    UnexpiredTwice(s.clients, now, later, windowNanos);
    UnexpiredTwice(s.participants, now, later, windowNanos);
  }

  lemma ForgottenFirst<K>(windows: map<K, IssuanceWindow>, now: int, later: int, windowNanos: int)
    returns (release: int)
    requires windows != map[] && now <= later && windowNanos > 0
    requires windows == Unexpired(windows, now, windowNanos)
    ensures FirstForgotten(windows, windowNanos, release)
    ensures RetryAfterCapacity(windows, now, windowNanos) == Min(release, now + windowNanos) - now
    ensures |Unexpired(windows, later, windowNanos)| <= |windows|
    ensures |Unexpired(windows, later, windowNanos)| == |windows| <==> later < release
  {
    var k := EarliestWindow(windows);
    release := windows[k].startedAt + windowNanos;
    var kept := Unexpired(windows, later, windowNanos);
    SubsetSize(kept.Keys, windows.Keys);
    assert |kept| == |kept.Keys| && |windows| == |windows.Keys|;
    if later < release {
      assert kept.Keys == windows.Keys;
    } else {
      assert k !in kept;
    }
    assert k in Unexpired(windows, now, windowNanos);
    var delay := RetryAfterCapacity(windows, now, windowNanos);
    var j :| j in windows && delay == RetryAfter(windows[j], now, windowNanos);
    assert j in Unexpired(windows, now, windowNanos);
    assert delay <= RetryAfter(windows[k], now, windowNanos);
  }

  lemma {:induction false} EarliestWindow<K>(windows: map<K, IssuanceWindow>) returns (k: K)
    requires windows != map[]
    ensures k in windows && forall j :: j in windows ==> windows[k].startedAt <= windows[j].startedAt
    decreases |windows|
  {
    k :| k in windows;
    var rest := windows - {k};
    if rest != map[] {
      var other := EarliestWindow(rest);
      assert forall j :: j in windows ==> j == k || j in rest;
      k := if windows[k].startedAt <= windows[other].startedAt then k else other;
    }
  }

  /** A reason to refuse lasts until its end, no new one appears by waiting, and its delay says when. */
  lemma ReasonLasts(c: Config, s: Limiter, q: Request, later: int, scope: Scope)
    returns (release: int)
    requires ValidConfig(c) && Bounded(c, s) && q.now <= later
    requires s == Prune(s, q.now, c.windowNanos)
    ensures Blocks(c, Prune(s, later, c.windowNanos), q.(now := later), scope)
            <==> Blocks(c, s, q, scope) && later < release
    ensures Blocks(c, s, q, scope) ==>
              && EndsAt(c, s, q, scope, release)
              && DelayOf(c, s, q, scope) == Min(release, q.now + c.windowNanos) - q.now
  {
    assert forall k :: k in s.clients ==> k in Unexpired(s.clients, q.now, c.windowNanos);
    assert forall k :: k in s.participants ==> k in Unexpired(s.participants, q.now, c.windowNanos);
    release := 0;
    match scope {
      case Client =>
        if Blocks(c, s, q, scope) {
          release := s.clients[q.client].startedAt + c.windowNanos;
        }
      case Participant =>
        if Blocks(c, s, q, scope) {
          release := s.participants[q.participant.value].startedAt + c.windowNanos;
        }
      case Global =>
        if Blocks(c, s, q, scope) {
          release := s.globalWindow.value.startedAt + c.windowNanos;
        }
      case ClientStateCapacity =>
        if s.clients != map[] {
          release := ForgottenFirst(s.clients, q.now, later, c.windowNanos);
        }
      case ParticipantStateCapacity =>
        if s.participants != map[] {
          release := ForgottenFirst(s.participants, q.now, later, c.windowNanos);
        }
    }
  }

  /**
   Whether some reason to refuse ends later than a full window from now: the windows behind it were
   opened after the instant of the request, which was read before the limiter's lock was taken.
   */
  ghost predicate LateReason(c: Config, s: Limiter, q: Request)
    requires ValidConfig(c)
  {
    exists scope, release ::
      && Blocks(c, s, q, scope) && EndsAt(c, s, q, scope, release)
      && release > q.now + c.windowNanos
  }

  ghost predicate RefusedAt(c: Config, s: Limiter, q: Request, later: int)
    requires ValidConfig(c)
  {
    Refusal(c, After(c, s, q), q.(now := later)).Some?
  }

  lemma EndIsUnique(c: Config, s: Limiter, q: Request, scope: Scope, a: int, b: int)
    requires EndsAt(c, s, q, scope, a) && EndsAt(c, s, q, scope, b)
    ensures a == b
  {
  }

  /**
   A refusal's delay is exact over every combination of reasons if and only if no reason is late:
   the same request, with no other in between, is then refused at every earlier instant and
   accepted at every instant from then on.
   */
  lemma RetryAfterIsExact(c: Config, s: Limiter, q: Request)
    requires ValidConfig(c) && Bounded(c, s)
    requires Refusal(c, s, q).Some?
    ensures (forall later :: q.now <= later ==>
               (RefusedAt(c, s, q, later) <==> later < q.now + Refusal(c, s, q).value.retryAfterNanos))
            <==> !LateReason(c, Prune(s, q.now, c.windowNanos), q)
  {
    var pruned := Prune(s, q.now, c.windowNanos);
    var delay := Refusal(c, s, q).value.retryAfterNanos;
    if LateReason(c, pruned, q) {
      var scope, release :| Blocks(c, pruned, q, scope) && EndsAt(c, pruned, q, scope, release)
                            && release > q.now + c.windowNanos;
      var later := q.now + delay;
      PruneTwice(s, q.now, q.now, c.windowNanos);
      PrunedIsSmaller(c, s, q.now);
      LatestIsLatest(c, pruned, q);
      DelayWithinWindow(c, pruned, q);
      var r := RefusedWhile(c, s, q, later, scope);
      EndIsUnique(c, pruned, q, scope, release, r);
      assert RefusedAt(c, s, q, later);
    } else {
      forall later | q.now <= later
        ensures RefusedAt(c, s, q, later) <==> later < q.now + delay
      {
        ExactWithoutLateReason(c, s, q, later);
      }
    }
  }

  lemma DelayWithinWindow(c: Config, s: Limiter, q: Request)
    requires ValidConfig(c) && Bounded(c, s)
    requires s == Prune(s, q.now, c.windowNanos)
    ensures forall scope :: Blocks(c, s, q, scope) ==> 0 < DelayOf(c, s, q, scope) <= c.windowNanos
  {
    forall scope | Blocks(c, s, q, scope)
      ensures 0 < DelayOf(c, s, q, scope) <= c.windowNanos
    {
      var release := ReasonLasts(c, s, q, q.now, scope);
    }
  }

  lemma RefusedWhile(c: Config, s: Limiter, q: Request, later: int, scope: Scope) returns (release: int)
    requires ValidConfig(c) && Bounded(c, s) && q.now <= later
    requires Blocks(c, Prune(s, q.now, c.windowNanos), q, scope)
    ensures EndsAt(c, Prune(s, q.now, c.windowNanos), q, scope, release)
    ensures DelayOf(c, Prune(s, q.now, c.windowNanos), q, scope) == Min(release, q.now + c.windowNanos) - q.now
    ensures later < release ==> RefusedAt(c, s, q, later)
  {
    var pruned := Prune(s, q.now, c.windowNanos);
    PruneTwice(s, q.now, q.now, c.windowNanos);
    PrunedIsSmaller(c, s, q.now);
    RefusedIff(c, s, q);
    RefusedIff(c, pruned, q.(now := later));
    release := ReasonLasts(c, pruned, q, later, scope);
  }

  lemma ExactWithoutLateReason(c: Config, s: Limiter, q: Request, later: int)
    requires ValidConfig(c) && Bounded(c, s) && q.now <= later
    requires Refusal(c, s, q).Some? && !LateReason(c, Prune(s, q.now, c.windowNanos), q)
    ensures RefusedAt(c, s, q, later) <==> later < q.now + Refusal(c, s, q).value.retryAfterNanos
  {
    var pruned := Prune(s, q.now, c.windowNanos);
    PruneTwice(s, q.now, q.now, c.windowNanos);
    PrunedIsSmaller(c, s, q.now);
    RefusedIff(c, s, q);
    RefusedIff(c, pruned, q.(now := later));
    LatestIsLatest(c, pruned, q);
    var latest := Refusal(c, s, q).value;
    forall scope
      ensures Blocks(c, Prune(pruned, later, c.windowNanos), q.(now := later), scope)
              <==> Blocks(c, pruned, q, scope) && later < q.now + DelayOf(c, pruned, q, scope)
    {
      var release := ReasonLasts(c, pruned, q, later, scope);
    }
    assert Blocks(c, pruned, q, latest.scope);
  }

  lemma LatestIsLatest(c: Config, s: Limiter, q: Request)
    requires ValidConfig(c) && Rejections(c, s, q, SCOPES) != []
    ensures var latest := Latest(Rejections(c, s, q, SCOPES));
            && Blocks(c, s, q, latest.scope) && latest.retryAfterNanos == DelayOf(c, s, q, latest.scope)
            && forall scope :: Blocks(c, s, q, scope) ==> DelayOf(c, s, q, scope) <= latest.retryAfterNanos
  {
    var rs := Rejections(c, s, q, SCOPES);
    forall scope | Blocks(c, s, q, scope)
      ensures DelayOf(c, s, q, scope) <= Latest(rs).retryAfterNanos
    {
      AllScopes();
      assert Rejected(DelayOf(c, s, q, scope), scope) in rs;
    }
  }

  lemma PrunedIsSmaller(c: Config, s: Limiter, now: int)
    requires Bounded(c, s)
    ensures Bounded(c, Prune(s, now, c.windowNanos))
  {
    var p := Prune(s, now, c.windowNanos);
    SubsetSize(p.clients.Keys, s.clients.Keys);
    SubsetSize(p.participants.Keys, s.participants.Keys);
    assert |p.clients| == |p.clients.Keys| && |s.clients| == |s.clients.Keys|;
    assert |p.participants| == |p.participants.Keys| && |s.participants| == |s.participants.Keys|;
  }

  /** Rejected.retryAfterSeconds: Math.ceilDiv. */
  function RetryAfterSeconds(r: Rejected): int {
    (r.retryAfterNanos + NANOS_PER_SECOND - 1) / NANOS_PER_SECOND
  }

  ghost predicate ReasonsEndBy(c: Config, s: Limiter, q: Request, until: int) {
    forall scope, release :: Blocks(c, s, q, scope) && EndsAt(c, s, q, scope, release) ==> release <= until
  }

  /** Waiting the whole seconds of the Retry-After header suffices exactly if every reason ends by then. */
  lemma WaitingTheHeaderSuffices(c: Config, s: Limiter, q: Request, until: int)
    requires ValidConfig(c) && Bounded(c, s) && Refusal(c, s, q).Some?
    requires until == q.now + RetryAfterSeconds(Refusal(c, s, q).value) * NANOS_PER_SECOND
    ensures (forall later :: until <= later ==> !RefusedAt(c, s, q, later))
            <==> ReasonsEndBy(c, Prune(s, q.now, c.windowNanos), q, until)
    ensures RetryAfterSeconds(Refusal(c, s, q).value) >= 1
    ensures !LateReason(c, Prune(s, q.now, c.windowNanos), q) ==> forall later :: until <= later ==> !RefusedAt(c, s, q, later)
  {
    var pruned := Prune(s, q.now, c.windowNanos);
    PruneTwice(s, q.now, q.now, c.windowNanos);
    PrunedIsSmaller(c, s, q.now);
    LatestIsLatest(c, pruned, q);
    DelayWithinWindow(c, pruned, q);
    forall scope, release | Blocks(c, pruned, q, scope) && EndsAt(c, pruned, q, scope, release)
      ensures until < release ==> RefusedAt(c, s, q, until)
    {
      var r := RefusedWhile(c, s, q, until, scope);
      EndIsUnique(c, pruned, q, scope, release, r);
    }
    forall later | until <= later && RefusedAt(c, s, q, later)
      ensures exists scope, release :: Blocks(c, pruned, q, scope) && EndsAt(c, pruned, q, scope, release) && until < release
    {
      var scope, release := StillRefusedBy(c, s, q, later);
    }
    if !LateReason(c, pruned, q) {
      forall later | until <= later
        ensures !RefusedAt(c, s, q, later)
      {
        ExactWithoutLateReason(c, s, q, later);
      }
    }
  }

  /** A reason for which the same request is refused later on is one that has not ended by then. */
  lemma StillRefusedBy(c: Config, s: Limiter, q: Request, later: int) returns (scope: Scope, release: int)
    requires ValidConfig(c) && Bounded(c, s) && q.now <= later
    requires Refusal(c, s, q).Some? && RefusedAt(c, s, q, later)
    ensures Blocks(c, Prune(s, q.now, c.windowNanos), q, scope)
    ensures EndsAt(c, Prune(s, q.now, c.windowNanos), q, scope, release) && later < release
  {
    var pruned := Prune(s, q.now, c.windowNanos);
    PruneTwice(s, q.now, q.now, c.windowNanos);
    PrunedIsSmaller(c, s, q.now);
    RefusedIff(c, pruned, q.(now := later));
    scope :| Blocks(c, Prune(pruned, later, c.windowNanos), q.(now := later), scope);
    release := ReasonLasts(c, pruned, q, later, scope);
  }

  /**
   A late reason is possible: a request whose instant was read first can reach the limiter second,
   and is then told to come back while it will still be refused.
   */
  lemma EarlyReaderIsToldTooLittle()
    ensures var c := Config(NANOS_PER_SECOND, 1, 1, 2, 10, 10);
            var s := Limiter(map["a" := IssuanceWindow(5, 1)], map[], Some(IssuanceWindow(5, 1)));
            var q := Request("a", None, 0);
            && ValidConfig(c) && Bounded(c, s)
            && Refusal(c, s, q).Some? && Refusal(c, s, q).value.retryAfterNanos == NANOS_PER_SECOND
            && Refusal(c, After(c, s, q), q.(now := NANOS_PER_SECOND)).Some?
  {
    var c := Config(NANOS_PER_SECOND, 1, 1, 2, 10, 10);
    var s := Limiter(map["a" := IssuanceWindow(5, 1)], map[], Some(IssuanceWindow(5, 1)));
    var q := Request("a", None, 0);
    assert Prune(s, 0, NANOS_PER_SECOND) == s;
    assert Prune(s, NANOS_PER_SECOND, NANOS_PER_SECOND) == s;
    assert Blocks(c, s, q, Client);
    RefusedIff(c, s, q);
    LatestIsLatest(c, s, q);
    assert Blocks(c, s, q.(now := NANOS_PER_SECOND), Client);
    RefusedIff(c, s, q.(now := NANOS_PER_SECOND));
  }

  // ----- the limiter object -----

  /** One reason looked for, the next one to come. */
  lemma RejectionsStep(c: Config, s: Limiter, q: Request, i: nat, found: seq<Rejected>, all: seq<Rejected>)
    requires ValidConfig(c) && i < |SCOPES| && all == found + Rejections(c, s, q, SCOPES[i..])
    ensures all == (if Blocks(c, s, q, SCOPES[i]) then found + [Rejected(DelayOf(c, s, q, SCOPES[i]), SCOPES[i])] else found)
                   + Rejections(c, s, q, SCOPES[i + 1..])
  {
    assert SCOPES[i..][1..] == SCOPES[i + 1..];
  }

  lemma RejectionsEnds(c: Config, s: Limiter, q: Request)
    requires ValidConfig(c)
    ensures Rejections(c, s, q, SCOPES) == [] + Rejections(c, s, q, SCOPES[0..])
    ensures Rejections(c, s, q, SCOPES[5..]) == []
  {
  }

  class TurnIssuanceLimiter {
    const config: Config
    var clientWindows: map<ClientKey, IssuanceWindow>
    var participantWindows: map<ParticipantKey, IssuanceWindow>
    var globalWindow: Option<IssuanceWindow>

    ghost function Model(): Limiter
      reads this
    {
      Limiter(clientWindows, participantWindows, globalWindow)
    }

    constructor (config: Config)
      ensures Model() == Limiter(map[], map[], None) && this.config == config
    {
      this.config := config;
      clientWindows, participantWindows, globalWindow := map[], map[], None;
    }

    static method RemoveExpiredWindows<K(==)>(windows: map<K, IssuanceWindow>, now: int, windowNanos: int)
      returns (kept: map<K, IssuanceWindow>)
      ensures kept == Unexpired(windows, now, windowNanos)
    {
      kept := windows;
      var unseen := windows.Keys;
      while unseen != {}
        invariant unseen <= kept.Keys <= windows.Keys
        invariant forall k :: k in kept ==> kept[k] == windows[k] && (k in unseen || !IsExpired(windows[k], now, windowNanos))
        invariant forall k :: k in windows && !IsExpired(windows[k], now, windowNanos) ==> k in kept
        decreases |unseen|
      {
        var k :| k in unseen;
        unseen := unseen - {k};
        if IsExpired(kept[k], now, windowNanos) {
          kept := kept - {k};
        }
      }
    }

    /** The shortest time until one of the windows is forgotten. */
    static method RetryAfterCapacityNanos<K(==)>(windows: map<K, IssuanceWindow>, now: int, windowNanos: int) returns (delay: int)
      requires windows != map[]
      ensures delay == RetryAfterCapacity(windows, now, windowNanos)
    {
      var first :| first in windows;
      delay := RetryAfter(windows[first], now, windowNanos);
      var unseen := windows.Keys - {first};
      while unseen != {}
        invariant unseen <= windows.Keys
        invariant exists k :: k in windows && delay == RetryAfter(windows[k], now, windowNanos)
        invariant forall k :: k in windows && k !in unseen ==> delay <= RetryAfter(windows[k], now, windowNanos)
        decreases |unseen|
      {
        var k :| k in unseen;
        unseen := unseen - {k};
        delay := Min(delay, RetryAfter(windows[k], now, windowNanos));
      }
      assert Soonest(windows, now, windowNanos, delay);
    }

    /** Counts and returns nothing, or counts nothing and returns the refusal to report. */
    method TryAcquire(q: Request) returns (rejected: Option<Rejected>)
      requires ValidConfig(config)
      modifies this
      ensures rejected == Refusal(config, old(Model()), q)
      ensures Model() == After(config, old(Model()), q)
    {
      clientWindows := RemoveExpiredWindows(clientWindows, q.now, config.windowNanos);
      participantWindows := RemoveExpiredWindows(participantWindows, q.now, config.windowNanos);
      if globalWindow.Some? && IsExpired(globalWindow.value, q.now, config.windowNanos) {
        globalWindow := None;
      }
      assert Model() == Prune(old(Model()), q.now, config.windowNanos);
      var rejections := FindRejections(q);
      if rejections != [] {
        return Some(Latest(rejections));
      }
      clientWindows := Counted(clientWindows, q.client, q.now);
      if q.participant.Some? {
        participantWindows := Counted(participantWindows, q.participant.value, q.now);
      }
      var window := if globalWindow.Some? then globalWindow.value else IssuanceWindow(q.now, 0);
      globalWindow := Some(window.(attempts := window.attempts + 1));
      return None;
    }

    /** Every reason to refuse, once expired windows are gone. */
    method FindRejections(q: Request) returns (rejections: seq<Rejected>)
      requires ValidConfig(config)
      ensures rejections == Rejections(config, Model(), q, SCOPES)
    {
      ghost var all := Rejections(config, Model(), q, SCOPES);
      RejectionsEnds(config, Model(), q);
      rejections := LookAt(q, 0, [], all);
      rejections := LookAt(q, 1, rejections, all);
      rejections := LookAt(q, 2, rejections, all);
      rejections := LookAt(q, 3, rejections, all);
      rejections := LookAt(q, 4, rejections, all);
    }

    /** The i-th of the reasons the source looks for. */
    method LookAt(q: Request, i: nat, found: seq<Rejected>, ghost all: seq<Rejected>) returns (rejections: seq<Rejected>)
      requires ValidConfig(config) && i < |SCOPES|
      requires all == found + Rejections(config, Model(), q, SCOPES[i..])
      ensures all == rejections + Rejections(config, Model(), q, SCOPES[i + 1..])
    {
      RejectionsStep(config, Model(), q, i, found, all);
      var blocks, delay := false, 0;
      match SCOPES[i] {
        case Participant =>
          if q.participant.Some? && q.participant.value in participantWindows {
            var window := participantWindows[q.participant.value];
            blocks, delay := window.attempts >= config.maxPerParticipant, RetryAfter(window, q.now, config.windowNanos);
          }
        case Client =>
          if q.client in clientWindows {
            var window := clientWindows[q.client];
            blocks, delay := window.attempts >= config.maxPerClient, RetryAfter(window, q.now, config.windowNanos);
          }
        case Global =>
          if globalWindow.Some? {
            var window := globalWindow.value;
            blocks, delay := window.attempts >= config.maxGlobal, RetryAfter(window, q.now, config.windowNanos);
          }
        case ParticipantStateCapacity =>
          if q.participant.Some? && q.participant.value !in participantWindows
             && |participantWindows| >= config.maxTrackedParticipants {
            blocks := true;
            delay := RetryAfterCapacityNanos(participantWindows, q.now, config.windowNanos);
          }
        case ClientStateCapacity =>
          if q.client !in clientWindows && |clientWindows| >= config.maxTrackedClients {
            blocks := true;
            delay := RetryAfterCapacityNanos(clientWindows, q.now, config.windowNanos);
          }
      }
      rejections := if blocks then found + [Rejected(delay, SCOPES[i])] else found;
    }
  }
}
