/**
 Joining a room: an older session of the same person gives way first, a parked timer comes back, and
 the newcomer is announced to the others only once its own `room.joined` is on its queue.
 */
module SignalingJoin {
  import opened Common
  import opened Frames
  import opened SignalingState
  import opened SignalingRooms
  import opened SignalingCascade
  import opened SignalingDelivery
  import opened SignalingMessages
  import Study = RoomStudyState

  // ----- the room while nobody is in it -----

  /** Without the timer that waits for somebody to enter a room that does not exist. */
  function WithoutOrphan(h: House, room: RoomId): House {
    if room in h.rooms then h else h.(studies := h.studies - {room})
  }

  /** Everything is in order except that a timer may be waiting for `room`. */
  ghost predicate Joinable(c: Config, s: State, room: RoomId) {
    Ok(c, s.(house := WithoutOrphan(s.house, room)))
  }

  lemma {:induction false} NothingParked(parked: seq<Parked>, room: RoomId)
    requires forall i :: 0 <= i < |parked| ==> parked[i].room != room
    ensures FindParked(parked, room) == None
  {
    if parked != [] {
      NothingParked(parked[1..], room);
    }
  }

  lemma RestoresNothing(h: House, room: RoomId, now: int)
    requires StudiesOk(h) && room in h.rooms
    ensures RestoreParked(h, room, now) == h
  {
    NothingParked(h.parked, room);
  }

  /** The person behind p is not in the room yet. */
  ghost predicate NoTwin(peers: map<PeerId, Peer>, rooms: map<RoomId, seq<PeerId>>, room: RoomId, p: PeerId)
    requires p in peers
  {
    forall q: PeerId :: Member(rooms, room, q) && q in peers && peers[p].subject.Some? ==> peers[q].subject != peers[p].subject
  }

  // ----- entering -----

  function Entering(peers: map<PeerId, Peer>, p: PeerId, room: RoomId, host: bool): map<PeerId, Peer>
    requires p in peers
  {
    peers[p := peers[p].(room := Some(room), host := host)]
  }

  function WithNewcomer(h: House, room: RoomId, p: PeerId): House {
    h.(rooms := h.rooms[room := MembersOf(h, room) + [p]])
  }

  lemma EnterKeepsRooms(
    c: Config, connected: set<PeerId>, peers: map<PeerId, Peer>, h: House, p: PeerId, room: RoomId, host: bool)
    requires RoomsOk(c, connected, peers, h.rooms) && p in connected && peers[p].room == None
    requires |MembersOf(h, room)| < c.maxRoomSize
    ensures RoomsOk(c, connected, Entering(peers, p, room, host), WithNewcomer(h, room, p).rooms)
  {
    var rooms' := WithNewcomer(h, room, p).rooms;
    assert !Member(h.rooms, room, p);
    forall r: RoomId, q: PeerId
      ensures Member(rooms', r, q) <==> Member(h.rooms, r, q) || (r == room && q == p)
    {
    }
  }

  lemma EnterKeepsSubjects(peers: map<PeerId, Peer>, h: House, p: PeerId, room: RoomId, host: bool)
    requires SubjectsOk(peers, h.rooms) && p in peers && NoTwin(peers, h.rooms, room, p)
    requires forall r: RoomId :: !Member(h.rooms, r, p)
    ensures SubjectsOk(Entering(peers, p, room, host), WithNewcomer(h, room, p).rooms)
  {
    var rooms' := WithNewcomer(h, room, p).rooms;
    forall r: RoomId, q: PeerId
      ensures Member(rooms', r, q) <==> Member(h.rooms, r, q) || (r == room && q == p)
    {
    }
  }

  lemma EnterKeepsHands(peers: map<PeerId, Peer>, h: House, p: PeerId, room: RoomId, host: bool)
    requires HandsOk(peers, h) && p in peers
    ensures HandsOk(Entering(peers, p, room, host), WithNewcomer(h, room, p))
  {
    var rooms' := WithNewcomer(h, room, p).rooms;
    forall r: RoomId, q: PeerId | HandUp(h.hands, r, q)
      ensures Member(rooms', r, q)
    {
      assert Member(h.rooms, r, q);
    }
  }

  /** What restoring does to the house. */
  lemma RestoredHouse(h: House, room: RoomId, now: int)
    requires FindParked(h.parked, room).Some?
    ensures var h' := RestoreParked(h, room, now);
            && h'.rooms == h.rooms && h'.hands == h.hands && (forall r :: r in h'.studies ==> r in h.studies || r == room)
            && (forall r: RoomId :: r in h.studies ==> r in h'.studies && h'.studies[r] == h.studies[r])
            && h'.parked == WithoutParked(h.parked, room) && h'.parkings == h.parkings + [Takes(room)]
  {
  }

  lemma EnteredStudies(h: House, room: RoomId, p: PeerId, orphans: House)
    requires StudiesOk(orphans) && orphans.rooms == h.rooms && orphans.parked == h.parked && orphans.parkings == h.parkings
    requires room !in h.rooms && forall r :: r in h.studies ==> r in orphans.studies || r == room
    requires forall i :: 0 <= i < |h.parked| ==> h.parked[i].room != room
    ensures StudiesOk(WithNewcomer(h, room, p))
  {
  }

  lemma TakingKeepsStudies(h: House, room: RoomId, taken: House)
    requires StudiesOk(h) && room !in h.rooms
    requires taken == h.(parked := WithoutParked(h.parked, room), parkings := h.parkings + [Takes(room)])
    ensures StudiesOk(taken)
    ensures forall i :: 0 <= i < |taken.parked| ==> taken.parked[i].room != room
  {
    WithoutParkedDistinct(h.parked, room);
    ReplayMore(h.parkings, Takes(room));
    forall i | 0 <= i < |taken.parked|
      ensures taken.parked[i].room !in h.rooms && taken.parked[i].room != room
    {
      assert taken.parked[i] in WithoutParked(h.parked, room);
    }
  }

  /** A parked timer is either brought back to the room or forgotten; one that waits is kept. */
  lemma RestoreKeepsStudies(h: House, room: RoomId, now: int, p: PeerId)
    requires StudiesOk(WithoutOrphan(h, room))
    ensures var h' := RestoreParked(h, room, now);
            && StudiesOk(WithNewcomer(h', room, p))
            && h'.rooms == h.rooms && h'.hands == h.hands
            && (forall r: RoomId :: r in h.studies ==> r in h'.studies && h'.studies[r] == h.studies[r])
            && (room in h.rooms ==> h' == h)
  {
    if room in h.rooms {
      RestoresNothing(h, room, now);
    } else if FindParked(h.parked, room) == None {
      NotParked(h.parked, room);
      EnteredStudies(h, room, p, WithoutOrphan(h, room));
    } else {
      var orphans := WithoutOrphan(h, room);
      var taken := orphans.(parked := WithoutParked(h.parked, room), parkings := h.parkings + [Takes(room)]);
      TakingKeepsStudies(orphans, room, taken);
      RestoredHouse(h, room, now);
      EnteredStudies(RestoreParked(h, room, now), room, p, taken);
    }
  }

  lemma {:induction false} NotParked(parked: seq<Parked>, room: RoomId)
    requires FindParked(parked, room) == None
    ensures forall i :: 0 <= i < |parked| ==> parked[i].room != room
  {
    if parked != [] {
      NotParked(parked[1..], room);
    }
  }

  lemma EnterKeepsHouse(
    c: Config, connected: set<PeerId>, peers: map<PeerId, Peer>, h: House, p: PeerId, room: RoomId, host: bool, now: int)
    requires HouseOk(c, connected, peers, WithoutOrphan(h, room)) && p in connected && peers[p].room == None
    requires |MembersOf(h, room)| < c.maxRoomSize && NoTwin(peers, h.rooms, room, p)
    ensures HouseOk(c, connected, Entering(peers, p, room, host), WithNewcomer(RestoreParked(h, room, now), room, p))
  {
    RestoreKeepsStudies(h, room, now, p);
    EnterKeepsRooms(c, connected, peers, h, p, room, host);
    forall r: RoomId
      ensures !Member(h.rooms, r, p)
    {
    }
    EnterKeepsSubjects(peers, h, p, room, host);
    EnterKeepsHands(peers, WithoutOrphan(h, room), p, room, host);
    assert HandsOk(Entering(peers, p, room, host), WithNewcomer(WithoutOrphan(h, room), room, p));
  }

  /** The newcomer is told who is there; nobody else is told anything yet. */
  lemma EnterKeepsViews(
    c: Config, connected: set<PeerId>, peers: map<PeerId, Peer>, h: House, h': House, queued: map<PeerId, seq<Frame>>,
    p: PeerId, room: RoomId, host: bool)
    requires ViewsOk(connected, peers, h, queued, []) && RoomsOk(c, connected, peers, h.rooms)
    requires Settled(connected, peers) && p in connected && peers[p].room == None
    requires h'.rooms == WithNewcomer(h, room, p).rooms && h'.hands == h.hands
    requires forall r: RoomId :: r in h.studies ==> r in h'.studies && h'.studies[r] == h.studies[r]
    ensures ViewsOk(connected, Entering(peers, p, room, host), h', queued, [Pending(p, RoomJoined(room, MembersOf(h, room)))])
  {
    var peers' := Entering(peers, p, room, host);
    var members := MembersOf(h, room);
    var f := RoomJoined(room, members);
    forall q: PeerId | q in connected
      ensures Agrees(Foreseen(queued, [Pending(p, f)], q), peers', h', q)
    {
      ViewAfter(queued, [Pending(p, f)], q, f);
      ForOne(p, f, q);
      if q == p {
        NewcomerSees(c, connected, peers, h, p, room, host);
      } else if peers[q].room.Some? {
        SameOthers(peers, peers', h, h', p, room, q);
      }
    }
  }

  lemma NewcomerSees(
    c: Config, connected: set<PeerId>, peers: map<PeerId, Peer>, h: House, p: PeerId, room: RoomId, host: bool)
    requires RoomsOk(c, connected, peers, h.rooms) && Settled(connected, peers) && p in connected && peers[p].room == None
    ensures Others(Entering(peers, p, room, host), MembersOf(h, room) + [p], p) == Elems(MembersOf(h, room))
  {
    forall q | q in MembersOf(h, room)
      ensures q in connected && q in peers && peers[q].announced && q != p
    {
      assert Member(h.rooms, room, q);
    }
  }

  lemma SameOthers(
    peers: map<PeerId, Peer>, peers': map<PeerId, Peer>, h: House, h': House, p: PeerId, room: RoomId, q: PeerId)
    requires p in peers && q in peers && q != p && peers[q].room.Some? && !peers[p].announced
    requires p in peers' && peers' == peers[p := peers'[p]] && !peers'[p].announced
    requires h'.rooms == WithNewcomer(h, room, p).rooms
    ensures Others(peers', MembersOf(h', peers[q].room.value), q) == Others(peers, MembersOf(h, peers[q].room.value), q)
  {
  }

  /** Then everybody else is told of the newcomer. */
  lemma AnnounceKeepsViews(
    c: Config, connected: set<PeerId>, peers: map<PeerId, Peer>, h: House, queued: map<PeerId, seq<Frame>>,
    p: PeerId, room: RoomId)
    requires ViewsOk(connected, peers, h, queued, []) && RoomsOk(c, connected, peers, h.rooms)
    requires p in connected && peers[p].room == Some(room) && !peers[p].announced
    ensures ViewsOk(connected, peers[p := peers[p].(announced := true)], h, queued,
                    Broadcast(MembersOf(h, room), PeerJoined(room, p), Some(p)))
  {
    var peers' := peers[p := peers[p].(announced := true)];
    var f := PeerJoined(room, p);
    var pending := Broadcast(MembersOf(h, room), f, Some(p));
    assert Member(h.rooms, room, p);
    forall q: PeerId | q in connected
      ensures Agrees(Foreseen(queued, pending, q), peers', h, q)
    {
      ViewAfter(queued, pending, q, f);
      BroadcastFor(MembersOf(h, room), f, Some(p), q);
      assert q in h.rooms[room] <==> Member(h.rooms, room, q);
      if peers[q].room.Some? {
        NewlyAnnounced(c, connected, peers, h, p, room, q);
      }
    }
  }

  lemma NewlyAnnounced(
    c: Config, connected: set<PeerId>, peers: map<PeerId, Peer>, h: House, p: PeerId, room: RoomId, q: PeerId)
    requires RoomsOk(c, connected, peers, h.rooms)
    requires p in connected && peers[p].room == Some(room) && !peers[p].announced
    requires q in connected && peers[q].room.Some?
    ensures var own := MembersOf(h, peers[q].room.value);
            var peers' := peers[p := peers[p].(announced := true)];
            && p !in Others(peers, own, q)
            && Others(peers', own, q) == Others(peers, own, q) + if q != p && peers[q].room == Some(room) then {p} else {}
  {
    assert Member(h.rooms, room, p) && Member(h.rooms, peers[q].room.value, q);
    assert p in MembersOf(h, peers[q].room.value) <==> Member(h.rooms, peers[q].room.value, p);
  }

  // ----- entering, as a whole -----

  lemma EnterKeepsInv(c: Config, s: State, p: PeerId, room: RoomId, host: bool, now: int, inside: State)
    requires Joinable(c, s, room) && p in s.connected && p in s.peers && s.peers[p].room == None
    requires NoTwin(s.peers, s.house.rooms, room, p) && |MembersOf(s.house, room)| < c.maxRoomSize
    requires inside == s.(peers := Entering(s.peers, p, room, host),
                          house := WithNewcomer(RestoreParked(s.house, room, now), room, p))
    ensures Inv(c, inside, [Pending(p, RoomJoined(room, MembersOf(s.house, room)))])
  {
    var orphanless := s.(house := WithoutOrphan(s.house, room));
    EnterKeepsHouse(c, s.connected, s.peers, s.house, p, room, host, now);
    RestoreKeepsStudies(s.house, room, now, p);
    EnterKeepsViews(c, s.connected, s.peers, orphanless.house, inside.house, s.wire.queued, p, room, host);
    MovingKeepsHolds(c, orphanless, inside.peers);
  }

  lemma AnnounceKeepsHouse(c: Config, connected: set<PeerId>, peers: map<PeerId, Peer>, h: House, p: PeerId)
    requires HouseOk(c, connected, peers, h) && p in connected && p in peers
    ensures HouseOk(c, connected, peers[p := peers[p].(announced := true)], h)
  {
  }

  lemma AnnounceKeepsInv(c: Config, told: State, p: PeerId, room: RoomId, announced: State)
    requires Inv(c, told, []) && p in told.connected && p in told.peers
    requires told.peers[p].room == Some(room) && !told.peers[p].announced
    requires announced == told.(peers := told.peers[p := told.peers[p].(announced := true)])
    ensures Inv(c, announced, Broadcast(MembersOf(told.house, room), PeerJoined(room, p), Some(p)))
  {
    AnnounceKeepsHouse(c, told.connected, told.peers, told.house, p);
    AnnounceKeepsViews(c, told.connected, told.peers, told.house, told.wire.queued, p, room);
    MovingKeepsHolds(c, told, announced.peers);
  }

  /** Apart from p everybody is announced who is in a room. */
  lemma TellingSettles(connected: set<PeerId>, peers: map<PeerId, Peer>, inside: State, told: State, p: PeerId, room: RoomId)
    requires Settled(connected, peers) && p in peers && inside.connected == connected
    requires p in inside.peers && inside.peers == peers[p := inside.peers[p]] && Keeps(inside, told)
    ensures p !in told.connected ==> Settled(told.connected, told.peers)
    ensures p in told.peers && inside.peers[p].room == Some(room)
            ==> Settled(told.connected, told.peers[p := told.peers[p].(room := Some(room), announced := true)])
  {
  }

  function Entered(s: State, p: PeerId, room: RoomId, host: bool, now: int): State
    requires p in s.peers
  {
    s.(peers := Entering(s.peers, p, room, host), house := WithNewcomer(RestoreParked(s.house, room, now), room, p))
  }

  lemma EnterInParts(c: Config, e: Env, s: State, p: PeerId, room: RoomId, host: bool, told: State)
    requires p in s.peers && RestoreParked(s.house, room, e.now).rooms == s.house.rooms
    requires |MembersOf(s.house, room)| < c.maxRoomSize
    requires told == Send(c, e, Entered(s, p, room, host, e.now), p, RoomJoined(room, MembersOf(s.house, room)))
    ensures Enter(c, e, s, p, room, host)
            == if p !in told.connected || p !in told.peers then told
               else EnqueueAll(c, e, told.(peers := told.peers[p := told.peers[p].(announced := true)]),
                               Broadcast(MembersOf(told.house, room), PeerJoined(room, p), Some(p)))
  {
  }

  lemma EnterOk(c: Config, e: Env, s: State, p: PeerId, room: RoomId, host: bool, r: State)
    requires Joinable(c, s, room) && p in s.connected && p in s.peers && s.peers[p].room == None
    requires NoTwin(s.peers, s.house.rooms, room, p) && |MembersOf(s.house, room)| < c.maxRoomSize
    requires r == Enter(c, e, s, p, room, host)
    ensures Ok(c, r)
  {
    var inside := Entered(s, p, room, host, e.now);
    var told := Send(c, e, inside, p, RoomJoined(room, MembersOf(s.house, room)));
    RestoreKeepsStudies(s.house, room, e.now, p);
    EnterInParts(c, e, s, p, room, host, told);
    EnterKeepsInv(c, s, p, room, host, e.now, inside);
    EnqueueAllKeeps(c, e, inside, [Pending(p, RoomJoined(room, MembersOf(s.house, room)))]);
    TellingSettles(s.connected, s.peers, inside, told, p, room);
    if p in told.connected {
      AnnounceOk(c, e, told, p, room, r);
    }
  }

  lemma AnnounceOk(c: Config, e: Env, told: State, p: PeerId, room: RoomId, r: State)
    requires Inv(c, told, []) && p in told.connected && p in told.peers
    requires told.peers[p].room == Some(room) && !told.peers[p].announced
    requires Settled(told.connected, told.peers[p := told.peers[p].(announced := true)])
    requires r == EnqueueAll(c, e, told.(peers := told.peers[p := told.peers[p].(announced := true)]),
                             Broadcast(MembersOf(told.house, room), PeerJoined(room, p), Some(p)))
    ensures Ok(c, r)
  {
    var announced := told.(peers := told.peers[p := told.peers[p].(announced := true)]);
    AnnounceKeepsInv(c, told, p, room, announced);
    EnqueueAllOk(c, e, announced, Broadcast(MembersOf(told.house, room), PeerJoined(room, p), Some(p)));
  }

  // ----- joining -----

  lemma {:induction false} SameSubjectFinds(peers: map<PeerId, Peer>, members: seq<PeerId>, subject: Option<Subject>)
    ensures var found := SameSubject(peers, members, subject);
            if found.Some? then subject.Some? && found.value in members && found.value in peers && peers[found.value].subject == subject
            else subject.Some? ==> forall q :: q in members && q in peers ==> peers[q].subject != subject
  {
    if subject.Some? && members != [] {
      SameSubjectFinds(peers, members[1..], subject);
    }
  }

  lemma FullRoomExists(c: Config, h: House, room: RoomId)
    requires ValidConfig(c) && |MembersOf(h, room)| >= c.maxRoomSize
    ensures room in h.rooms
  {
  }

  lemma FullRoomOk(c: Config, e: Env, s: State, p: PeerId, room: RoomId, host: bool, r: State)
    requires ValidConfig(c) && Joinable(c, s, room) && p in s.peers && |MembersOf(s.house, room)| >= c.maxRoomSize
    requires r == Enter(c, e, s, p, room, host)
    ensures Ok(c, r)
  {
    FullRoomExists(c, s.house, room);
    RestoresNothing(s.house, room, e.now);
    assert s.(house := RestoreParked(s.house, room, e.now)) == s;
    SendErrorOk(c, e, s, p, "ROOM_FULL", r);
  }

  lemma EnterOrRefuseOk(c: Config, e: Env, s: State, p: PeerId, room: RoomId, host: bool, r: State)
    requires ValidConfig(c) && Joinable(c, s, room) && p in s.connected && p in s.peers && s.peers[p].room == None
    requires NoTwin(s.peers, s.house.rooms, room, p) && r == Enter(c, e, s, p, room, host)
    ensures Ok(c, r)
  {
    if |MembersOf(s.house, room)| >= c.maxRoomSize {
      FullRoomOk(c, e, s, p, room, host, r);
    } else {
      EnterOk(c, e, s, p, room, host, r);
    }
  }

  lemma JoinableWhenOk(c: Config, s: State, room: RoomId)
    requires Ok(c, s)
    ensures Joinable(c, s, room)
  {
    if room !in s.house.rooms {
      assert room !in s.house.studies;
      assert s.house.studies - {room} == s.house.studies;
    }
    assert s.(house := WithoutOrphan(s.house, room)) == s;
  }

  /** A timer may be put back whether or not the room still exists. */
  lemma PutBackKeepsViews(
    connected: set<PeerId>, peers: map<PeerId, Peer>, h: House, queued: map<PeerId, seq<Frame>>, room: RoomId, timer: Study.Timer)
    requires ViewsOk(connected, peers, h, queued, []) && room !in h.studies
    ensures ViewsOk(connected, peers, h.(studies := h.studies[room := timer]), queued, [])
  {
    forall q: PeerId | q in connected
      ensures Agrees(Foreseen(queued, [], q), peers, h.(studies := h.studies[room := timer]), q)
    {
      assert Agrees(Foreseen(queued, [], q), peers, h, q);
    }
  }

  lemma PutBackOk(c: Config, s: State, room: RoomId, timer: Study.Timer, kept: State)
    requires Ok(c, s) && room in s.house.rooms && room !in s.house.studies
    requires kept == s.(house := s.house.(studies := s.house.studies[room := timer]))
    ensures Ok(c, kept)
  {
    PutBackKeepsViews(s.connected, s.peers, s.house, s.wire.queued, room, timer);
  }

  lemma OrphanIsNoMatter(c: Config, s: State, room: RoomId, timer: Study.Timer, kept: State)
    requires Ok(c, s) && room !in s.house.rooms && room !in s.house.studies
    requires kept == s.(house := s.house.(studies := s.house.studies[room := timer]))
    ensures Joinable(c, kept, room)
  {
    OrphanGone(s.house, room, timer);
    SameHouse(s, kept, WithoutOrphan(kept.house, room));
  }

  lemma OrphanGone(h: House, room: RoomId, timer: Study.Timer)
    requires room !in h.rooms && room !in h.studies
    ensures WithoutOrphan(h.(studies := h.studies[room := timer]), room) == h
  {
    assert h.studies[room := timer] - {room} == h.studies;
  }

  lemma SameHouse(s: State, other: State, h: House)
    requires other == s.(house := other.house) && h == s.house
    ensures other.(house := h) == s
  {
  }

  lemma PutBackJoinable(c: Config, s: State, room: RoomId, timer: Study.Timer, kept: State)
    requires Ok(c, s) && kept == s.(house := s.house.(studies := PutIfAbsent(s.house.studies, room, timer)))
    ensures Joinable(c, kept, room)
  {
    if room in s.house.studies {
      assert kept == s;
      JoinableWhenOk(c, s, room);
    } else if room in s.house.rooms {
      PutBackOk(c, s, room, timer, kept);
      assert kept.(house := WithoutOrphan(kept.house, room)) == kept;
    } else {
      OrphanIsNoMatter(c, s, room, timer, kept);
    }
  }

  /** Who is still in a room after others were closed was there before. */
  lemma StillMember(c: Config, s: State, s': State, room: RoomId, q: PeerId)
    requires RoomsOk(c, s.connected, s.peers, s.house.rooms) && RoomsOk(c, s'.connected, s'.peers, s'.house.rooms)
    requires Keeps(s, s') && Member(s'.house.rooms, room, q)
    ensures Member(s.house.rooms, room, q)
  {
  }

  lemma NoTwinLeft(c: Config, s: State, s': State, p: PeerId, room: RoomId, existing: PeerId)
    requires RoomsOk(c, s.connected, s.peers, s.house.rooms) && RoomsOk(c, s'.connected, s'.peers, s'.house.rooms)
    requires SubjectsOk(s.peers, s.house.rooms) && Keeps(s, s') && p in s.peers && p in s'.peers
    requires existing in MembersOf(s.house, room) && existing in s.peers && existing !in s'.connected
    requires s.peers[p].subject.Some? && s.peers[existing].subject == s.peers[p].subject
    ensures NoTwin(s'.peers, s'.house.rooms, room, p)
  {
    forall q: PeerId | Member(s'.house.rooms, room, q) && q in s'.peers
      ensures s'.peers[q].subject != s'.peers[p].subject
    {
      StillMember(c, s, s', room, q);
      assert Member(s.house.rooms, room, existing);
    }
  }

  function PuttingBack(s: State, replaced: State, room: RoomId): State {
    if room in s.house.studies
    then replaced.(house := replaced.house.(studies := PutIfAbsent(replaced.house.studies, room, s.house.studies[room])))
    else replaced
  }

  lemma TakeOverOk(c: Config, e: Env, s: State, p: PeerId, room: RoomId, host: bool, existing: PeerId, replaced: State, r: State)
    requires ValidConfig(c) && Ok(c, s) && p in s.connected && p in s.peers && s.peers[p].room == None
    requires existing in MembersOf(s.house, room) && existing in s.peers
    requires s.peers[p].subject.Some? && s.peers[existing].subject == s.peers[p].subject
    requires Ok(c, replaced) && Keeps(s, replaced) && existing !in replaced.connected
    requires p in replaced.connected && r == Enter(c, e, PuttingBack(s, replaced, room), p, room, host)
    ensures Ok(c, r)
  {
    NoTwinLeft(c, s, replaced, p, room, existing);
    if room in s.house.studies {
      PutBackJoinable(c, replaced, room, s.house.studies[room], PuttingBack(s, replaced, room));
    } else {
      JoinableWhenOk(c, replaced, room);
    }
    EnterOrRefuseOk(c, e, PuttingBack(s, replaced, room), p, room, host, r);
  }

  lemma SupersedeOk(c: Config, e: Env, s: State, p: PeerId, m: Message, existing: PeerId, r: State)
    requires ValidConfig(c) && Ok(c, s) && m.Join? && p in s.connected && p in s.peers && s.peers[p].room == None
    requires m.role.Some? && existing in MembersOf(s.house, m.room) && existing in s.peers
    requires s.peers[p].subject.Some? && s.peers[existing].subject == s.peers[p].subject
    requires r == (if p < existing then CloseNow(c, e, s, p, true)
                   else
                     var replaced := CloseNow(c, e, s, existing, true);
                     if p !in replaced.connected || p !in replaced.peers then replaced
                     else Enter(c, e, PuttingBack(s, replaced, m.room), p, m.room, m.role.value))
    ensures Ok(c, r)
  {
    assert Member(s.house.rooms, m.room, existing);
    if p < existing {
      CloseNowOk(c, e, s, p, true, r);
    } else {
      var replaced := CloseNow(c, e, s, existing, true);
      CloseNowOk(c, e, s, existing, true, replaced);
      if p in replaced.connected {
        TakeOverOk(c, e, s, p, m.room, m.role.value, existing, replaced, r);
      }
    }
  }

  lemma JoinOk(c: Config, e: Env, s: State, p: PeerId, m: Message, r: State)
    requires ValidConfig(c) && Ok(c, s) && m.Join? && p in s.connected && p in s.peers && r == DoJoin(c, e, s, p, m)
    ensures Ok(c, r)
  {
    if s.peers[p].room != None {
      SendErrorOk(c, e, s, p, "ALREADY_JOINED", r);
    } else if !m.allowed {
      SendErrorOk(c, e, s, p, "ROOM_MISMATCH", r);
    } else if m.role == None {
      SendErrorOk(c, e, s, p, "FORBIDDEN", r);
    } else {
      AllowedJoinOk(c, e, s, p, m, SameSubject(s.peers, MembersOf(s.house, m.room), s.peers[p].subject), r);
    }
  }

  lemma AllowedJoinOk(c: Config, e: Env, s: State, p: PeerId, m: Message, found: Option<PeerId>, r: State)
    requires ValidConfig(c) && Ok(c, s) && m.Join? && p in s.connected && p in s.peers && r == DoJoin(c, e, s, p, m)
    requires s.peers[p].room == None && m.allowed && m.role.Some?
    requires found == SameSubject(s.peers, MembersOf(s.house, m.room), s.peers[p].subject)
    ensures Ok(c, r)
  {
    SameSubjectFinds(s.peers, MembersOf(s.house, m.room), s.peers[p].subject);
    JoinInParts(c, e, s, p, m, found);
    match found {
      case Some(existing) =>
        SupersedeOk(c, e, s, p, m, existing, r);
      case None =>
        JoinableWhenOk(c, s, m.room);
        EnterOrRefuseOk(c, e, s, p, m.room, m.role.value, r);
    }
  }

  lemma JoinInParts(c: Config, e: Env, s: State, p: PeerId, m: Message, found: Option<PeerId>)
    requires m.Join? && p in s.peers && s.peers[p].room == None && m.allowed && m.role.Some?
    requires found == SameSubject(s.peers, MembersOf(s.house, m.room), s.peers[p].subject)
    ensures DoJoin(c, e, s, p, m)
            == if found == None then Enter(c, e, s, p, m.room, m.role.value)
               else if p < found.value then CloseNow(c, e, s, p, true)
               else
                 var replaced := CloseNow(c, e, s, found.value, true);
                 if p !in replaced.connected || p !in replaced.peers then replaced
                 else Enter(c, e, PuttingBack(s, replaced, m.room), p, m.room, m.role.value)
  {
  }
}
