/**
 Timers of rooms that everybody has left. The server keeps at most a thousand of them, each for ten
 minutes; here it is said exactly, from what has happened to the rooms, which of them come back.
 */
module SignalingParking {
  import opened Common
  import opened Frames
  import opened SignalingState
  import opened SignalingRooms
  import Runs = SignalingRuns
  import Events = SignalingEvents
  import Study = RoomStudyState

  // ----- what the log says -----

  predicate Concerns(x: Parking, room: RoomId) {
    x.Clears? || x.room == room
  }

  /** The k-th entry is the last that concerns the room. */
  ghost predicate LastWord(parkings: seq<Parking>, room: RoomId, k: nat) {
    && k < |parkings| && Concerns(parkings[k], room)
    && forall j :: k < j < |parkings| ==> !Concerns(parkings[j], room)
  }

  /** The rooms that were left behind meanwhile and nobody has come back to. */
  function Waiting(since: seq<Parking>): set<RoomId> {
    if since == [] then {} else Awaits(Waiting(since[..|since| - 1]), since[|since| - 1])
  }

  function Awaits(rooms: set<RoomId>, x: Parking): set<RoomId> {
    match x
    case Parks(room, _, _) => rooms + {room}
    case Drops(room) => rooms - {room}
    case Takes(room) => rooms - {room}
    case Clears => {}
  }

  /** At no time were a thousand newer timers parked. */
  ghost predicate Uncrowded(since: seq<Parking>) {
    forall i :: 0 <= i <= |since| ==> |Waiting(since[..i])| < MAX_PARKED_STUDY_STATES
  }

  /** The clock does not go back. */
  ghost predicate Chronological(parkings: seq<Parking>, now: int) {
    && (forall i, j :: 0 <= i < j < |parkings| && parkings[i].Parks? && parkings[j].Parks? ==> parkings[i].at <= parkings[j].at)
    && (forall i :: 0 <= i < |parkings| && parkings[i].Parks? ==> parkings[i].at <= now)
  }

  /**
   The last that happened to the timer of the room is that it was parked, less than ten minutes ago,
   and at no time since were a thousand newer ones parked.
   */
  ghost predicate Recoverable(parkings: seq<Parking>, room: RoomId, k: nat, now: int) {
    && LastWord(parkings, room, k) && parkings[k].Parks?
    && now - parkings[k].at < PARKED_STUDY_RETENTION_NANOS
    && Uncrowded(parkings[k + 1..])
  }

  // ----- the list of parked timers -----

  ghost function RoomsOf(parked: seq<Parked>): set<RoomId> {
    set i | 0 <= i < |parked| :: parked[i].room
  }

  lemma {:induction false} RetainedSum(a: seq<Parked>, b: seq<Parked>, now: int, except: RoomId)
    ensures Retained(a + b, now, except) == Retained(a, now, except) + Retained(b, now, except)
  {
    if a == [] {
      assert a + b == b;
    } else {
      assert (a + b)[1..] == a[1..] + b;
      RetainedSum(a[1..], b, now, except);
    }
  }

  lemma {:induction false} WithoutParkedSum(a: seq<Parked>, b: seq<Parked>, room: RoomId)
    ensures WithoutParked(a + b, room) == WithoutParked(a, room) + WithoutParked(b, room)
  {
    if a == [] {
      assert a + b == b;
    } else {
      assert (a + b)[1..] == a[1..] + b;
      WithoutParkedSum(a[1..], b, room);
    }
  }

  /** As long as none of them is too old, only the room itself is taken out. */
  lemma {:induction false} RetainsYoung(parked: seq<Parked>, now: int, room: RoomId)
    requires forall i :: 0 <= i < |parked| ==> now - parked[i].parkedAt < PARKED_STUDY_RETENTION_NANOS
    ensures Retained(parked, now, room) == WithoutParked(parked, room)
  {
    if parked != [] {
      RetainsYoung(parked[1..], now, room);
    }
  }

  lemma {:induction false} RoomsWithoutOne(parked: seq<Parked>, room: RoomId)
    ensures RoomsOf(WithoutParked(parked, room)) == RoomsOf(parked) - {room}
  {
    if parked != [] {
      var rest := WithoutParked(parked[1..], room);
      RoomsWithoutOne(parked[1..], room);
      FirstRoom(parked);
      if parked[0].room == room {
        assert WithoutParked(parked, room) == [] + rest == rest;
      } else {
        FirstRoom([parked[0]] + rest);
        assert ([parked[0]] + rest)[1..] == rest;
      }
    }
  }

  lemma FirstRoom(parked: seq<Parked>)
    requires parked != []
    ensures RoomsOf(parked) == {parked[0].room} + RoomsOf(parked[1..])
  {
    forall room | room in RoomsOf(parked)
      ensures room in {parked[0].room} + RoomsOf(parked[1..])
    {
      var i :| 0 <= i < |parked| && parked[i].room == room;
      assert i > 0 ==> parked[1..][i - 1].room == room;
    }
    forall room | room in RoomsOf(parked[1..])
      ensures room in RoomsOf(parked)
    {
      var i :| 0 <= i < |parked[1..]| && parked[1..][i].room == room;
      assert parked[i + 1].room == room;
    }
  }

  lemma RoomsSum(parked: seq<Parked>, x: Parked)
    ensures RoomsOf(parked + [x]) == RoomsOf(parked) + {x.room}
  {
    assert (parked + [x])[|parked|] == x;
    forall i | 0 <= i < |parked|
      ensures parked[i].room in RoomsOf(parked + [x])
    {
      assert (parked + [x])[i] == parked[i];
    }
  }

  lemma {:induction false} RoomsCount(parked: seq<Parked>)
    requires DistinctRooms(parked)
    ensures |RoomsOf(parked)| == |parked|
  {
    if parked != [] {
      RoomsCount(parked[1..]);
      FirstRoom(parked);
      assert parked[0].room !in RoomsOf(parked[1..]);
    }
  }

  lemma {:induction false} ReplayOk(parkings: seq<Parking>)
    ensures DistinctRooms(Replay(parkings)) && |Replay(parkings)| <= MAX_PARKED_STUDY_STATES
  {
    if parkings != [] {
      var front, x := parkings[..|parkings| - 1], parkings[|parkings| - 1];
      ReplayOk(front);
      match x
      case Parks(room, timer, at) => ParkedOk(Replay(front), room, timer, at);
      case Drops(room) => WithoutParkedDistinct(Replay(front), room);
      case Takes(room) => WithoutParkedDistinct(Replay(front), room);
      case Clears =>
    }
  }

  lemma ParkedOk(parked: seq<Parked>, room: RoomId, timer: Study.Timer, at: int)
    requires DistinctRooms(parked) && |parked| <= MAX_PARKED_STUDY_STATES
    ensures DistinctRooms(Park(parked, room, timer, at)) && |Park(parked, room, timer, at)| <= MAX_PARKED_STUDY_STATES
    ensures DistinctRooms(Retained(parked, at, room) + [Parked(room, timer, at)])
  {
    RetainedDistinct(parked, at, room);
    var kept := Retained(parked, at, room);
    forall i | 0 <= i < |kept|
      ensures kept[i].room != room
    {
      assert kept[i] in kept;
    }
  }

  // ----- where a timer is -----

  /** Behind x are the timers of these rooms, all parked later. */
  ghost predicate Behind(x: Parked, newer: seq<Parked>, rooms: set<RoomId>) {
    RoomsOf(newer) == rooms && forall i :: 0 <= i < |newer| ==> x.parkedAt <= newer[i].parkedAt
  }

  lemma RetainedAround(older: seq<Parked>, x: Parked, newer: seq<Parked>, room: RoomId, at: int)
    requires room != x.room && at < x.parkedAt + PARKED_STUDY_RETENTION_NANOS
    requires forall i :: 0 <= i < |newer| ==> x.parkedAt <= newer[i].parkedAt
    ensures Retained(older + [x] + newer, at, room) == Retained(older, at, room) + [x] + WithoutParked(newer, room)
  {
    RetainedSum(older + [x], newer, at, room);
    RetainedSum(older, [x], at, room);
    RetainsYoung(newer, at, room);
    assert Retained([x], at, room) == [x];
  }

  lemma StillBehind(x: Parked, newer: seq<Parked>, rooms: set<RoomId>, room: RoomId)
    requires Behind(x, newer, rooms)
    ensures Behind(x, WithoutParked(newer, room), rooms - {room})
  {
    RoomsWithoutOne(newer, room);
    var kept := WithoutParked(newer, room);
    forall i | 0 <= i < |kept|
      ensures x.parkedAt <= kept[i].parkedAt
    {
      assert kept[i] in kept;
    }
  }

  /** Another room's timer is parked: before the list is cut to size. */
  lemma ParksBehind(older: seq<Parked>, x: Parked, newer: seq<Parked>, rooms: set<RoomId>, room: RoomId, timer: Study.Timer, at: int, newer': seq<Parked>)
    requires Behind(x, newer, rooms) && room != x.room && x.parkedAt <= at < x.parkedAt + PARKED_STUDY_RETENTION_NANOS
    requires newer' == WithoutParked(newer, room) + [Parked(room, timer, at)]
    ensures Behind(x, newer', rooms + {room})
    ensures Retained(older + [x] + newer, at, room) + [Parked(room, timer, at)] == Retained(older, at, room) + [x] + newer'
  {
    RetainedAround(older, x, newer, room, at);
    Associated(Retained(older, at, room) + [x], WithoutParked(newer, room), [Parked(room, timer, at)]);
    StillBehind(x, newer, rooms, room);
    OneMoreBehind(x, WithoutParked(newer, room), rooms - {room}, Parked(room, timer, at));
    assert rooms - {room} + {room} == rooms + {room};
  }

  lemma OneMoreBehind(x: Parked, newer: seq<Parked>, rooms: set<RoomId>, y: Parked)
    requires Behind(x, newer, rooms) && x.parkedAt <= y.parkedAt
    ensures Behind(x, newer + [y], rooms + {y.room})
  {
    RoomsSum(newer, y);
  }

  lemma Associated(a: seq<Parked>, b: seq<Parked>, c: seq<Parked>)
    ensures a + b + c == a + (b + c)
  {
  }

  /** It is cut to size: x is dropped exactly if a thousand are behind it. */
  lemma CutToSize(before: seq<Parked>, older: seq<Parked>, x: Parked, newer: seq<Parked>, room: RoomId, timer: Study.Timer, at: int)
    requires DistinctRooms(before) && |before| <= MAX_PARKED_STUDY_STATES
    requires Retained(before, at, room) + [Parked(room, timer, at)] == older + [x] + newer
    ensures |RoomsOf(newer)| < MAX_PARKED_STUDY_STATES ==>
              Park(before, room, timer, at) == (if |older + [x] + newer| > MAX_PARKED_STUDY_STATES && older != [] then older[1..] else older) + [x] + newer
    ensures |RoomsOf(newer)| >= MAX_PARKED_STUDY_STATES ==>
              forall i :: 0 <= i < |Park(before, room, timer, at)| ==> Park(before, room, timer, at)[i].room != x.room
  {
    ParkedOk(before, room, timer, at);
    var all := older + [x] + newer;
    assert DistinctRooms(newer) by {
      assert forall i :: 0 <= i < |newer| ==> newer[i] == all[|older| + 1 + i];
    }
    RoomsCount(newer);
    if |newer| >= MAX_PARKED_STUDY_STATES {
      assert older == [];
      assert all[0] == x && all[1..] == newer;
    } else if |all| > MAX_PARKED_STUDY_STATES {
      assert older != [];
    }
  }

  lemma TakesBehind(older: seq<Parked>, x: Parked, newer: seq<Parked>, rooms: set<RoomId>, room: RoomId)
    requires Behind(x, newer, rooms) && room != x.room
    ensures Behind(x, WithoutParked(newer, room), rooms - {room})
    ensures WithoutParked(older + [x] + newer, room) == WithoutParked(older, room) + [x] + WithoutParked(newer, room)
  {
    WithoutParkedSum(older + [x], newer, room);
    WithoutParkedSum(older, [x], room);
    assert WithoutParked([x], room) == [x];
    StillBehind(x, newer, rooms, room);
  }

  /** The state of the list after one more entry that does not concern the room of x. */
  lemma OneStep(before: seq<Parked>, older: seq<Parked>, x: Parked, newer: seq<Parked>, rooms: set<RoomId>, entry: Parking)
      returns (older': seq<Parked>, newer': seq<Parked>)
    requires DistinctRooms(before) && |before| <= MAX_PARKED_STUDY_STATES && before == older + [x] + newer && Behind(x, newer, rooms)
    requires !Concerns(entry, x.room)
    requires entry.Parks? ==> x.parkedAt <= entry.at < x.parkedAt + PARKED_STUDY_RETENTION_NANOS
    ensures Behind(x, newer', Awaits(rooms, entry))
    ensures |Awaits(rooms, entry)| < MAX_PARKED_STUDY_STATES ==> Replayed(before, entry) == older' + [x] + newer'
    ensures |Awaits(rooms, entry)| >= MAX_PARKED_STUDY_STATES && |rooms| < MAX_PARKED_STUDY_STATES ==>
              forall i :: 0 <= i < |Replayed(before, entry)| ==> Replayed(before, entry)[i].room != x.room
  {
    match entry
    case Parks(room, timer, at) =>
      newer' := WithoutParked(newer, room) + [Parked(room, timer, at)];
      older' := Retained(older, at, room);
      ParksBehind(older, x, newer, rooms, room, timer, at, newer');
      CutToSize(before, older', x, newer', room, timer, at);
      if |older' + [x] + newer'| > MAX_PARKED_STUDY_STATES && older' != [] {
        older' := older'[1..];
      }
    case Drops(room) =>
      older', newer' := WithoutParked(older, room), WithoutParked(newer, room);
      TakesBehind(older, x, newer, rooms, room);
      SubsetSize(rooms - {room}, rooms);
    case Takes(room) =>
      older', newer' := WithoutParked(older, room), WithoutParked(newer, room);
      TakesBehind(older, x, newer, rooms, room);
      SubsetSize(rooms - {room}, rooms);
    case Clears => assert false;
  }

  // ----- what the list is after a history -----

  lemma WaitingMore(since: seq<Parking>, x: Parking)
    ensures Waiting(since + [x]) == Awaits(Waiting(since), x)
  {
    assert (since + [x])[..|since|] == since;
  }

  lemma UncrowdedMore(since: seq<Parking>, x: Parking)
    ensures Uncrowded(since + [x]) <==> Uncrowded(since) && |Waiting(since + [x])| < MAX_PARKED_STUDY_STATES
  {
    var more := since + [x];
    assert more[..|more|] == more && forall i :: 0 <= i <= |since| ==> more[..i] == since[..i];
  }

  lemma FrontWord(parkings: seq<Parking>, room: RoomId, k: nat, now: int)
    requires LastWord(parkings, room, k) && k + 1 < |parkings| && Chronological(parkings, now)
    ensures LastWord(parkings[..|parkings| - 1], room, k) && Chronological(parkings[..|parkings| - 1], now)
    ensures parkings[k + 1..] == parkings[..|parkings| - 1][k + 1..] + [parkings[|parkings| - 1]]
    ensures parkings[..|parkings| - 1][k] == parkings[k] && !Concerns(parkings[|parkings| - 1], room)
  {
  }

  /** The timer whose parking is the last word on its room. */
  function TimerOf(x: Parking): Parked
    requires x.Parks?
  {
    Parked(x.room, x.timer, x.at)
  }

  /** While it is not crowded out, a timer is in the list, with the waiting ones behind it. */
  lemma {:induction false} Placed(parkings: seq<Parking>, room: RoomId, k: nat, now: int) returns (older: seq<Parked>, newer: seq<Parked>)
    requires Chronological(parkings, now) && Recoverable(parkings, room, k, now)
    ensures Replay(parkings) == older + [TimerOf(parkings[k])] + newer
    ensures Behind(TimerOf(parkings[k]), newer, Waiting(parkings[k + 1..]))
    decreases |parkings|
  {
    var front, last := parkings[..|parkings| - 1], parkings[|parkings| - 1];
    ReplayOk(front);
    if k == |front| {
      older, newer := JustParked(Replay(front), last.room, last.timer, last.at);
      assert parkings[k + 1..] == [];
    } else {
      FrontWord(parkings, room, k, now);
      UncrowdedMore(front[k + 1..], last);
      WaitingMore(front[k + 1..], last);
      older, newer := Placed(front, room, k, now);
      older, newer := OneStep(Replay(front), older, TimerOf(parkings[k]), newer, Waiting(front[k + 1..]), last);
    }
  }

  lemma JustParked(parked: seq<Parked>, room: RoomId, timer: Study.Timer, at: int) returns (older: seq<Parked>, newer: seq<Parked>)
    requires DistinctRooms(parked) && |parked| <= MAX_PARKED_STUDY_STATES
    ensures Park(parked, room, timer, at) == older + [Parked(room, timer, at)] + newer
    ensures newer == []
  {
    older, newer := Retained(parked, at, room), [];
    if |older| + 1 > MAX_PARKED_STUDY_STATES {
      assert (older + [Parked(room, timer, at)])[1..] == older[1..] + [Parked(room, timer, at)];
      older := older[1..];
    }
  }

  ghost predicate Absent(parked: seq<Parked>, room: RoomId) {
    forall i :: 0 <= i < |parked| ==> parked[i].room != room
  }

  lemma StaysAbsent(parked: seq<Parked>, room: RoomId, x: Parking)
    requires Absent(parked, room) && !Concerns(x, room)
    ensures Absent(Replayed(parked, x), room)
  {
    forall y | y in Replayed(parked, x)
      ensures y.room != room
    {
      OnlyFromBefore(parked, x, y);
    }
    assert forall i :: 0 <= i < |Replayed(parked, x)| ==> Replayed(parked, x)[i] in Replayed(parked, x);
  }

  /** What is in the list was in it before, or has just been parked. */
  lemma OnlyFromBefore(parked: seq<Parked>, x: Parking, y: Parked)
    requires y in Replayed(parked, x)
    ensures (y in parked && !Concerns(x, y.room)) || (x.Parks? && y == TimerOf(x))
  {
    match x
    case Parks(room, timer, at) =>
      var more := Retained(parked, at, room) + [Parked(room, timer, at)];
      assert y in more;
    case Drops(_) =>
    case Takes(_) =>
    case Clears =>
  }

  lemma NothingSince(parkings: seq<Parking>)
    ensures Uncrowded(parkings[|parkings|..])
  {
    assert parkings[|parkings|..] == [];
  }

  /** A timer that was crowded out is not in the list. */
  lemma {:induction false} CrowdedOut(parkings: seq<Parking>, room: RoomId, k: nat, now: int)
    requires Chronological(parkings, now) && LastWord(parkings, room, k) && parkings[k].Parks?
    requires now - parkings[k].at < PARKED_STUDY_RETENTION_NANOS && !Uncrowded(parkings[k + 1..])
    ensures Absent(Replay(parkings), room)
    decreases |parkings|
  {
    var front, last := parkings[..|parkings| - 1], parkings[|parkings| - 1];
    NothingSince(parkings);
    if k < |front| {
      FrontWord(parkings, room, k, now);
      UncrowdedMore(front[k + 1..], last);
      if Uncrowded(front[k + 1..]) {
        var older, newer := Placed(front, room, k, now);
        ReplayOk(front);
        WaitingMore(front[k + 1..], last);
        assert front[k + 1..][..|front[k + 1..]|] == front[k + 1..];
        var _, _ := OneStep(Replay(front), older, TimerOf(parkings[k]), newer, Waiting(front[k + 1..]), last);
      } else {
        CrowdedOut(front, room, k, now);
        StaysAbsent(Replay(front), room, last);
      }
    }
  }

  /** A timer in the list is the one whose parking is the last word on its room. */
  lemma {:induction false} WordOf(parkings: seq<Parking>, y: Parked) returns (k: nat)
    requires y in Replay(parkings)
    ensures LastWord(parkings, y.room, k) && parkings[k].Parks? && y == TimerOf(parkings[k])
    decreases |parkings|
  {
    var front, last := parkings[..|parkings| - 1], parkings[|parkings| - 1];
    OnlyFromBefore(Replay(front), last, y);
    if last.Parks? && y == TimerOf(last) {
      k := |front|;
    } else {
      k := WordOf(front, y);
      StillLastWord(front, last, y.room, k);
      assert parkings == front + [last];
    }
  }

  lemma StillLastWord(parkings: seq<Parking>, x: Parking, room: RoomId, k: nat)
    requires LastWord(parkings, room, k) && !Concerns(x, room)
    ensures LastWord(parkings + [x], room, k) && (parkings + [x])[k] == parkings[k]
  {
  }

  lemma {:induction false} FoundInside(parked: seq<Parked>, room: RoomId)
    ensures FindParked(parked, room).Some? ==> FindParked(parked, room).value in parked && FindParked(parked, room).value.room == room
  {
    if parked != [] && parked[0].room != room {
      FoundInside(parked[1..], room);
    }
  }

  lemma {:induction false} FoundAt(parked: seq<Parked>, x: Parked)
    requires x in parked && DistinctRooms(parked)
    ensures FindParked(parked, x.room) == Some(x)
  {
    if parked[0] != x {
      var i :| 0 <= i < |parked| && parked[i] == x;
      assert parked[1..][i - 1] == x;
      FoundAt(parked[1..], x);
    }
  }

  /** A timer that can be recovered is found in the list. */
  lemma RecoverableIsFound(parkings: seq<Parking>, room: RoomId, k: nat, now: int)
    requires Chronological(parkings, now) && Recoverable(parkings, room, k, now)
    ensures FindParked(Replay(parkings), room) == Some(TimerOf(parkings[k]))
  {
    var older, newer := Placed(parkings, room, k, now);
    ReplayOk(parkings);
    assert Replay(parkings)[|older|] == TimerOf(parkings[k]);
    FoundAt(Replay(parkings), TimerOf(parkings[k]));
  }

  /** A timer that is found, and is young enough, can be recovered. */
  lemma FoundIsRecoverable(parkings: seq<Parking>, room: RoomId, now: int, x: Parked) returns (k: nat)
    requires Chronological(parkings, now) && FindParked(Replay(parkings), room) == Some(x)
    requires now - x.parkedAt < PARKED_STUDY_RETENTION_NANOS
    ensures Recoverable(parkings, room, k, now)
  {
    FoundInside(Replay(parkings), room);
    k := WordOf(parkings, x);
    if !Uncrowded(parkings[k + 1..]) {
      CrowdedOut(parkings, room, k, now);
      assert false;
    }
  }

  /**
   When somebody enters a room in which nobody is, then after any run of the server its timer comes
   back if and only if it was parked when the room was last left, less than ten minutes ago, nobody has
   entered the room and the server has not stopped since, and at no time since were a thousand newer
   timers parked. It is then the timer that was parked.
   */
  lemma TimerComesBack(c: Config, turns: seq<Events.Turn>, room: RoomId, now: int, h: House)
    requires ValidConfig(c) && h == Runs.Reached(c, turns).house && room !in h.rooms && Chronological(h.parkings, now)
    ensures var studies := RestoreParked(h, room, now).studies;
            && (room in studies <==> exists k: nat :: Recoverable(h.parkings, room, k, now))
            && (forall k: nat :: Recoverable(h.parkings, room, k, now) ==> room in studies && studies[room] == h.parkings[k].timer)
  {
    Runs.RoomsAreWellFormed(c, turns);
    assert room !in h.studies && h.parked == Replay(h.parkings);
    forall k: nat | Recoverable(h.parkings, room, k, now)
      ensures FindParked(h.parked, room) == Some(TimerOf(h.parkings[k]))
    {
      RecoverableIsFound(h.parkings, room, k, now);
    }
    if room in RestoreParked(h, room, now).studies {
      var k := FoundIsRecoverable(h.parkings, room, now, FindParked(h.parked, room).value);
    }
  }

  /** The last member's departure is the last word on the room: its timer is parked, or dropped if it left by request. */
  lemma DepartureIsTheLastWord(
    c: Config, connected: set<PeerId>, peers: map<PeerId, Peer>, h: House, p: PeerId, leftAt: int, leftByRequest: bool, h': House)
    requires HouseOk(c, connected, peers, h) && p in connected && peers[p].room.Some? && Without(h.rooms[peers[p].room.value], p) == []
    requires h' == RemovePeerFromRoom(peers, h, p, leftAt, leftByRequest).house
    ensures var room := peers[p].room.value;
            && room !in h'.rooms && LastWord(h'.parkings, room, |h.parkings|)
            && (h'.parkings[|h.parkings|].Parks? <==> !leftByRequest && room in h.studies)
            && (h'.parkings[|h.parkings|].Parks? ==> TimerOf(h'.parkings[|h.parkings|]) == Parked(room, h.studies[room], leftAt))
  {
    assert Member(h.rooms, peers[p].room.value, p);
  }
}
