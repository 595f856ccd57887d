/** The rooms stay well formed, and every member's own picture of its room stays right. */
module SignalingRooms {
  import opened Common
  import opened Frames
  import opened SignalingState
  import Study = RoomStudyState
  import Hand = RoomHandQueue

  // ----- well-formed rooms -----

  ghost predicate Member(rooms: map<RoomId, seq<PeerId>>, room: RoomId, p: PeerId) {
    room in rooms && p in rooms[room]
  }

  ghost predicate HandUp(hands: map<RoomId, Hand.HandQueue>, room: RoomId, p: PeerId) {
    room in hands && p in hands[room].queue
  }

  /** A connection knows its room exactly when the room knows the connection; no room is empty or too big. */
  ghost predicate RoomsOk(c: Config, connected: set<PeerId>, peers: map<PeerId, Peer>, rooms: map<RoomId, seq<PeerId>>) {
    && (forall p :: p in connected ==> p in peers)
    && (forall room :: room in rooms ==> 0 < |rooms[room]| <= c.maxRoomSize && NoDup(rooms[room]))
    && (forall room: RoomId, p: PeerId :: Member(rooms, room, p) ==> p in connected && p in peers && peers[p].room == Some(room))
    && (forall p :: p in connected && peers[p].room.Some? ==> Member(rooms, peers[p].room.value, p))
  }

  /** One person joins a room at most once. */
  ghost predicate SubjectsOk(peers: map<PeerId, Peer>, rooms: map<RoomId, seq<PeerId>>) {
    forall room: RoomId, a: PeerId, b: PeerId ::
      (&& Member(rooms, room, a) && Member(rooms, room, b) && a in peers && b in peers
       && peers[a].subject.Some? && peers[a].subject == peers[b].subject)
      ==> a == b
  }

  /** Only announced members of the room have a hand up, once each. */
  ghost predicate HandsOk(peers: map<PeerId, Peer>, h: House) {
    && (forall room :: room in h.hands ==> room in h.rooms && NoDup(h.hands[room].queue))
    && (forall room: RoomId, p: PeerId :: HandUp(h.hands, room, p) ==> Member(h.rooms, room, p) && p in peers && peers[p].announced)
  }

  ghost predicate DistinctRooms(parked: seq<Parked>) {
    forall i, j :: 0 <= i < j < |parked| ==> parked[i].room != parked[j].room
  }

  /** Timers belong to rooms; parked timers to rooms that do not exist, each once. */
  ghost predicate StudiesOk(h: House) {
    && (forall room :: room in h.studies ==> room in h.rooms)
    && |h.parked| <= MAX_PARKED_STUDY_STATES
    && DistinctRooms(h.parked)
    && (forall i :: 0 <= i < |h.parked| ==> h.parked[i].room !in h.rooms)
    && h.parked == Replay(h.parkings)
  }

  /** The timers that are parked after all that is in the log. */
  function Replay(parkings: seq<Parking>): seq<Parked> {
    if parkings == [] then [] else Replayed(Replay(parkings[..|parkings| - 1]), parkings[|parkings| - 1])
  }

  function Replayed(parked: seq<Parked>, x: Parking): seq<Parked> {
    match x
    case Parks(room, timer, at) => Park(parked, room, timer, at)
    case Drops(room) => WithoutParked(parked, room)
    case Takes(room) => WithoutParked(parked, room)
    case Clears => []
  }

  lemma ReplayMore(parkings: seq<Parking>, x: Parking)
    ensures Replay(parkings + [x]) == Replayed(Replay(parkings), x)
  {
    assert (parkings + [x])[..|parkings|] == parkings;
  }

  ghost predicate HouseOk(c: Config, connected: set<PeerId>, peers: map<PeerId, Peer>, h: House) {
    && RoomsOk(c, connected, peers, h.rooms)
    && SubjectsOk(peers, h.rooms)
    && HandsOk(peers, h)
    && StudiesOk(h)
  }

  // ----- parked timers -----

  lemma {:induction false} RetainedDistinct(parked: seq<Parked>, now: int, except: RoomId)
    requires DistinctRooms(parked)
    ensures DistinctRooms(Retained(parked, now, except))
  {
    if parked != [] {
      RetainedDistinct(parked[1..], now, except);
      NotFirst(parked, Retained(parked[1..], now, except));
    }
  }

  lemma {:induction false} WithoutParkedDistinct(parked: seq<Parked>, room: RoomId)
    requires DistinctRooms(parked)
    ensures DistinctRooms(WithoutParked(parked, room))
  {
    if parked != [] {
      WithoutParkedDistinct(parked[1..], room);
      NotFirst(parked, WithoutParked(parked[1..], room));
    }
  }

  lemma NotFirst(parked: seq<Parked>, some: seq<Parked>)
    requires parked != [] && DistinctRooms(parked)
    requires forall x :: x in some ==> x in parked[1..]
    ensures forall i :: 0 <= i < |some| ==> some[i].room != parked[0].room
  {
    forall i | 0 <= i < |some|
      ensures some[i].room != parked[0].room
    {
      assert some[i] in some;
      var j :| 0 <= j < |parked[1..]| && parked[1..][j] == some[i];
      assert parked[j + 1] == some[i];
    }
  }

  lemma {:induction false} NoneParked(parked: seq<Parked>, room: RoomId)
    requires forall i :: 0 <= i < |parked| ==> parked[i].room != room
    ensures WithoutParked(parked, room) == parked
  {
    if parked != [] {
      NoneParked(parked[1..], room);
    }
  }

  /** Parking keeps at most a thousand timers, one per room, and none for a room that still exists. */
  lemma ParkKeeps(h: House, room: RoomId, timer: Study.Timer, now: int)
    requires StudiesOk(h)
    ensures StudiesOk(House(h.rooms - {room}, h.hands - {room}, h.studies - {room}, Park(h.parked, room, timer, now),
                            h.parkings + [Parks(room, timer, now)]))
  {
    ReplayMore(h.parkings, Parks(room, timer, now));
    RetainedDistinct(h.parked, now, room);
    var kept := Retained(h.parked, now, room);
    forall i | 0 <= i < |kept|
      ensures kept[i].room !in h.rooms && kept[i].room != room
    {
      assert kept[i] in kept;
    }
    var more := kept + [Parked(room, timer, now)];
    assert DistinctRooms(more);
  }

  // ----- leaving -----

  function RoomsWithout(rooms: map<RoomId, seq<PeerId>>, room: RoomId, p: PeerId): map<RoomId, seq<PeerId>>
    requires room in rooms
  {
    var members := Without(rooms[room], p);
    if members == [] then rooms - {room} else rooms[room := members]
  }

  function Roomless(peers: map<PeerId, Peer>, p: PeerId): map<PeerId, Peer>
    requires p in peers
  {
    peers[p := peers[p].(room := None, announced := false, host := false)]
  }

  lemma RemoveKeepsRooms(
    c: Config, connected: set<PeerId>, after: set<PeerId>, peers: map<PeerId, Peer>,
    rooms: map<RoomId, seq<PeerId>>, p: PeerId)
    requires RoomsOk(c, connected, peers, rooms) && p in connected && peers[p].room.Some?
    requires connected - {p} <= after <= connected
    ensures RoomsOk(c, after, Roomless(peers, p), RoomsWithout(rooms, peers[p].room.value, p))
  {
    var room := peers[p].room.value;
    WithoutNoDup(rooms[room], p);
    var rooms' := RoomsWithout(rooms, room, p);
    var members := Without(rooms[room], p);
    assert forall r :: r in rooms' && r != room ==> r in rooms && rooms'[r] == rooms[r];
    assert room in rooms' ==> rooms'[room] == members;
    forall r: RoomId, q: PeerId | Member(rooms', r, q)
      ensures q != p && Member(rooms, r, q)
    {
      assert Member(rooms, r, q);
    }
  }

  lemma RemoveKeepsSubjects(
    c: Config, connected: set<PeerId>, peers: map<PeerId, Peer>, rooms: map<RoomId, seq<PeerId>>, p: PeerId)
    requires RoomsOk(c, connected, peers, rooms) && p in connected && peers[p].room.Some?
    requires SubjectsOk(peers, rooms)
    ensures SubjectsOk(Roomless(peers, p), RoomsWithout(rooms, peers[p].room.value, p))
  {
    var rooms' := RoomsWithout(rooms, peers[p].room.value, p);
    forall r: RoomId, q: PeerId | Member(rooms', r, q)
      ensures q != p && Member(rooms, r, q)
    {
      assert Member(rooms, r, q);
    }
  }

  /** Every hand queue that is left has lost the leaving peer and nobody else. */
  lemma RemovedHands(
    c: Config, connected: set<PeerId>, peers: map<PeerId, Peer>, h: House, p: PeerId, now: int, leftByRequest: bool)
    requires RoomsOk(c, connected, peers, h.rooms) && p in connected && peers[p].room.Some?
    requires HandsOk(peers, h)
    ensures var d := RemovePeerFromRoom(peers, h, p, now, leftByRequest);
            forall r :: r in d.house.hands
                        ==> r in h.hands && r in d.house.rooms && d.house.hands[r].queue == Without(h.hands[r].queue, p)
  {
    var room := peers[p].room.value;
    forall r | r in h.hands && (r != room || !peers[p].announced)
      ensures Without(h.hands[r].queue, p) == h.hands[r].queue
    {
      assert p in h.hands[r].queue ==> HandUp(h.hands, r, p);
    }
  }

  lemma RemoveKeepsHands(
    c: Config, connected: set<PeerId>, peers: map<PeerId, Peer>, h: House, p: PeerId, now: int, leftByRequest: bool)
    requires RoomsOk(c, connected, peers, h.rooms) && p in connected && peers[p].room.Some?
    requires HandsOk(peers, h)
    ensures var d := RemovePeerFromRoom(peers, h, p, now, leftByRequest);
            HandsOk(d.peers, d.house)
  {
    var d := RemovePeerFromRoom(peers, h, p, now, leftByRequest);
    RemovedHands(c, connected, peers, h, p, now, leftByRequest);
    RemovedRooms(peers, h, p, now, leftByRequest);
    FilteredHands(peers, h, d.house.hands, p, peers[p].room.value);
    assert HandsOk(d.peers, d.house.(studies := map[], parked := []));
  }

  lemma FilteredHands(
    peers: map<PeerId, Peer>, h: House, hands: map<RoomId, Hand.HandQueue>, p: PeerId, room: RoomId)
    requires HandsOk(peers, h) && p in peers && room in h.rooms
    requires forall r :: r in hands ==> r in h.hands && hands[r].queue == Without(h.hands[r].queue, p)
    requires forall r :: r in hands ==> r in RoomsWithout(h.rooms, room, p)
    ensures HandsOk(Roomless(peers, p), House(RoomsWithout(h.rooms, room, p), hands, map[], [], []))
  {
    forall r | r in hands
      ensures NoDup(hands[r].queue)
    {
      WithoutNoDup(h.hands[r].queue, p);
    }
    var rooms := RoomsWithout(h.rooms, room, p);
    forall r: RoomId, q: PeerId | HandUp(hands, r, q)
      ensures Member(rooms, r, q) && q in Roomless(peers, p) && Roomless(peers, p)[q].announced
    {
      assert HandUp(h.hands, r, q) && q != p;
    }
  }

  lemma RemoveKeepsStudies(
    c: Config, connected: set<PeerId>, peers: map<PeerId, Peer>, h: House, p: PeerId, now: int, leftByRequest: bool)
    requires RoomsOk(c, connected, peers, h.rooms) && p in connected && peers[p].room.Some?
    requires StudiesOk(h)
    ensures StudiesOk(RemovePeerFromRoom(peers, h, p, now, leftByRequest).house)
  {
    var room := peers[p].room.value;
    if Without(h.rooms[room], p) == [] {
      if !leftByRequest && room in h.studies {
        ParkKeeps(h, room, h.studies[room], now);
      } else {
        ReplayMore(h.parkings, Drops(room));
        NoneParked(h.parked, room);
      }
    }
  }

  /** Removing a member keeps the rooms well formed, whether or not the member stays connected. */
  lemma RemoveKeepsHouse(
    c: Config, connected: set<PeerId>, after: set<PeerId>, peers: map<PeerId, Peer>, h: House,
    p: PeerId, now: int, leftByRequest: bool)
    requires HouseOk(c, connected, peers, h) && p in connected
    requires connected - {p} <= after <= connected
    ensures var d := RemovePeerFromRoom(peers, h, p, now, leftByRequest);
            HouseOk(c, after, d.peers, d.house)
  {
    if peers[p].room.Some? {
      RemoveKeepsRooms(c, connected, after, peers, h.rooms, p);
      RemoveKeepsSubjects(c, connected, peers, h.rooms, p);
      RemoveKeepsHands(c, connected, peers, h, p, now, leftByRequest);
      RemoveKeepsStudies(c, connected, peers, h, p, now, leftByRequest);
      RemovedRooms(peers, h, p, now, leftByRequest);
    }
  }

  lemma RemovedRooms(peers: map<PeerId, Peer>, h: House, p: PeerId, now: int, leftByRequest: bool)
    requires p in peers && peers[p].room.Some?
    requires peers[p].room.value in h.rooms && p in h.rooms[peers[p].room.value]
    ensures var d := RemovePeerFromRoom(peers, h, p, now, leftByRequest);
            && d.peers == Roomless(peers, p)
            && d.house.rooms == RoomsWithout(h.rooms, peers[p].room.value, p)
  {
  }

  // ----- what the members believe -----

  /** The announced members other than p itself. */
  ghost function Others(peers: map<PeerId, Peer>, members: seq<PeerId>, p: PeerId): set<PeerId> {
    set m | m in members && m in peers && peers[m].announced && m != p
  }

  ghost predicate KnowsHand(v: ClientView, h: House, room: RoomId)
    requires v.Inside?
  {
    v.hand.Some? ==> room in h.hands && v.hand.value == h.hands[room]
  }

  ghost predicate KnowsStudy(v: ClientView, h: House, room: RoomId)
    requires v.Inside?
  {
    v.study.Some? ==> room in h.studies && v.study.value == InfoOf(h.studies[room])
  }

  /** A connection is never confused, and one in a room knows its room. */
  ghost predicate Agrees(v: ClientView, peers: map<PeerId, Peer>, h: House, p: PeerId)
    requires p in peers
  {
    && v != Confused
    && (peers[p].room.Some? ==>
          var room := peers[p].room.value;
          && v.Inside? && v.room == room
          && v.others == Others(peers, MembersOf(h, room), p)
          && KnowsHand(v, h, room) && KnowsStudy(v, h, room))
  }

  /** What p will have read once the frames still on the work list are on its queue. */
  ghost function Foreseen(queued: map<PeerId, seq<Frame>>, pending: seq<Pending>, p: PeerId): ClientView {
    ReadAll(Outside, Logged(queued, p) + For(pending, p))
  }

  ghost predicate ViewsOk(
    connected: set<PeerId>, peers: map<PeerId, Peer>, h: House, queued: map<PeerId, seq<Frame>>, pending: seq<Pending>)
  {
    && (forall p :: p in connected ==> p in peers && Agrees(Foreseen(queued, pending, p), peers, h, p))
    && NeverConfused(queued)
  }

  /** Whatever was queued for a session, connected or not, makes sense to who reads it. */
  ghost predicate NeverConfused(queued: map<PeerId, seq<Frame>>) {
    forall p: PeerId :: ReadAll(Outside, Logged(queued, p)) != Confused
  }

  lemma ForeseenMore(queued: map<PeerId, seq<Frame>>, a: seq<Pending>, b: seq<Pending>, p: PeerId)
    ensures Foreseen(queued, a + b, p) == ReadAll(Foreseen(queued, a, p), For(b, p))
  {
    ForSum(a, b, p);
    ReadAllSum(Outside, Logged(queued, p) + For(a, p), For(b, p));
    assert Logged(queued, p) + (For(a, p) + For(b, p)) == Logged(queued, p) + For(a, p) + For(b, p);
  }

  lemma ForeseenPut(queued: map<PeerId, seq<Frame>>, pending: seq<Pending>, q: PeerId)
    requires pending != []
    ensures var (p, f) := (pending[0].to, pending[0].frame);
            Foreseen(queued[p := Logged(queued, p) + [f]], pending[1..], q) == Foreseen(queued, pending, q)
  {
    var (p, f) := (pending[0].to, pending[0].frame);
    var rest := For(pending[1..], q);
    if q == p {
      assert Logged(queued, q) + [f] + rest == Logged(queued, q) + ([f] + rest);
    } else {
      assert [] + rest == rest;
    }
  }

  /** Moving the first pending frame onto its queue changes nobody's foreseen view. */
  lemma PutKeepsViews(
    connected: set<PeerId>, peers: map<PeerId, Peer>, h: House, queued: map<PeerId, seq<Frame>>, pending: seq<Pending>)
    requires pending != [] && ViewsOk(connected, peers, h, queued, pending) && pending[0].to in connected
    ensures var (p, f) := (pending[0].to, pending[0].frame);
            ViewsOk(connected, peers, h, queued[p := Logged(queued, p) + [f]], pending[1..])
  {
    var (p, f) := (pending[0].to, pending[0].frame);
    var queued' := queued[p := Logged(queued, p) + [f]];
    forall q | q in connected
      ensures Foreseen(queued', pending[1..], q) == Foreseen(queued, pending, q)
    {
      ForeseenPut(queued, pending, q);
    }
    ClearAllAlong(Outside, Logged(queued', p), For(pending[1..], p));
    forall q: PeerId
      ensures ReadAll(Outside, Logged(queued', q)) != Confused
    {
      assert q != p ==> Logged(queued', q) == Logged(queued, q);
    }
  }

  /** A frame for a connection that is gone may be dropped. */
  lemma DropKeepsViews(
    connected: set<PeerId>, peers: map<PeerId, Peer>, h: House, queued: map<PeerId, seq<Frame>>, pending: seq<Pending>)
    requires pending != [] && ViewsOk(connected, peers, h, queued, pending)
    requires pending[0].to !in connected
    ensures ViewsOk(connected, peers, h, queued, pending[1..])
  {
    forall q | q in connected
      ensures Foreseen(queued, pending[1..], q) == Foreseen(queued, pending, q)
    {
      assert For(pending, q) == For(pending[1..], q);
    }
  }

  /** What removing p puts on the work list for another connection. */
  lemma RemovalNotice(
    c: Config, connected: set<PeerId>, peers: map<PeerId, Peer>, h: House, p: PeerId, now: int, leftByRequest: bool, q: PeerId)
    requires HouseOk(c, connected, peers, h) && p in connected && q in connected
    ensures var d := RemovePeerFromRoom(peers, h, p, now, leftByRequest);
            var r := peers[p].room;
            var notice := For(d.pending, q);
            if r == None || q == p || peers[q].room != r || !peers[p].announced then notice == []
            else if HandUp(h.hands, r.value, p)
              then notice == [PeerLeft(r.value, p), HandState(r.value, Hand.Update(h.hands[r.value], p, false))]
            else notice == [PeerLeft(r.value, p)]
  {
    var d := RemovePeerFromRoom(peers, h, p, now, leftByRequest);
    if peers[p].room.Some? {
      var r := peers[p].room.value;
      var members := Without(h.rooms[r], p);
      WithoutNoDup(h.rooms[r], p);
      assert q in members <==> q != p && Member(h.rooms, r, q);
      var left := Broadcast(members, PeerLeft(r, p), None);
      BroadcastFor(members, PeerLeft(r, p), None, q);
      if r in h.hands {
        var raised := Broadcast(members, HandState(r, Hand.Update(h.hands[r], p, false)), None);
        BroadcastFor(members, HandState(r, Hand.Update(h.hands[r], p, false)), None, q);
        ForSum(left, raised, q);
      }
    }
  }

  /** Removing p brings the remaining connections' foreseen views up to date. */
  lemma RemoveKeepsViews(
    c: Config, connected: set<PeerId>, after: set<PeerId>, peers: map<PeerId, Peer>, h: House,
    queued: map<PeerId, seq<Frame>>, pending: seq<Pending>, p: PeerId, now: int, leftByRequest: bool)
    requires HouseOk(c, connected, peers, h) && p in connected
    requires connected - {p} <= after <= connected
    requires ViewsOk(connected, peers, h, queued, pending)
    ensures var d := RemovePeerFromRoom(peers, h, p, now, leftByRequest);
            ViewsOk(after, d.peers, d.house, queued, pending + d.pending)
  {
    var d := RemovePeerFromRoom(peers, h, p, now, leftByRequest);
    forall q | q in after
      ensures q in d.peers && Agrees(Foreseen(queued, pending + d.pending, q), d.peers, d.house, q)
    {
      ForeseenMore(queued, pending, d.pending, q);
      RemovalNotice(c, connected, peers, h, p, now, leftByRequest, q);
      RemovalAgrees(c, connected, peers, h, Foreseen(queued, pending, q), p, now, leftByRequest, q);
    }
  }

  /** One connection reads what the removal of p puts on the work list for it. */
  lemma RemovalAgrees(
    c: Config, connected: set<PeerId>, peers: map<PeerId, Peer>, h: House, v: ClientView,
    p: PeerId, now: int, leftByRequest: bool, q: PeerId)
    requires HouseOk(c, connected, peers, h) && p in connected && q in connected
    requires Agrees(v, peers, h, q)
    ensures var d := RemovePeerFromRoom(peers, h, p, now, leftByRequest);
            Agrees(ReadAll(v, For(d.pending, q)), d.peers, d.house, q)
  {
    var d := RemovePeerFromRoom(peers, h, p, now, leftByRequest);
    RemovalNotice(c, connected, peers, h, p, now, leftByRequest, q);
    if peers[p].room.Some? && q != p && peers[q].room.Some? {
      var r := peers[p].room.value;
      var own := peers[q].room.value;
      RemovedRooms(peers, h, p, now, leftByRequest);
      assert Member(h.rooms, own, q);
      if own != r {
        assert d.house.rooms[own] == h.rooms[own];
        assert p !in h.rooms[own] by {
          assert !Member(h.rooms, own, p);
        }
        assert Others(d.peers, h.rooms[own], q) == Others(peers, h.rooms[own], q);
      } else {
        StayingAgrees(c, connected, peers, h, v, p, now, leftByRequest, q);
      }
    }
  }

  /** What a removal leaves of a room that does not become empty. */
  lemma RemovedHouse(peers: map<PeerId, Peer>, h: House, p: PeerId, now: int, leftByRequest: bool)
    requires p in peers && peers[p].room.Some? && Member(h.rooms, peers[p].room.value, p)
    requires Without(h.rooms[peers[p].room.value], p) != []
    requires HandUp(h.hands, peers[p].room.value, p) ==> peers[p].announced
    ensures var d := RemovePeerFromRoom(peers, h, p, now, leftByRequest);
            var r := peers[p].room.value;
            && d.house.studies == h.studies
            && d.house.hands == (if HandUp(h.hands, r, p) then h.hands[r := Hand.Update(h.hands[r], p, false)] else h.hands)
            && d.house.rooms == h.rooms[r := Without(h.rooms[r], p)]
  {
  }

  lemma StayingAgrees(
    c: Config, connected: set<PeerId>, peers: map<PeerId, Peer>, h: House, v: ClientView,
    p: PeerId, now: int, leftByRequest: bool, q: PeerId)
    requires HouseOk(c, connected, peers, h) && p in connected && q in connected && q != p
    requires peers[p].room.Some? && peers[q].room == peers[p].room
    requires Agrees(v, peers, h, q)
    ensures var d := RemovePeerFromRoom(peers, h, p, now, leftByRequest);
            Agrees(ReadAll(v, For(d.pending, q)), d.peers, d.house, q)
  {
    var r := peers[p].room.value;
    RemovalNotice(c, connected, peers, h, p, now, leftByRequest, q);
    RemovedRooms(peers, h, p, now, leftByRequest);
    assert Member(h.rooms, r, q) && Member(h.rooms, r, p);
    assert q in Without(h.rooms[r], p);
    RemovedHouse(peers, h, p, now, leftByRequest);
    assert Others(Roomless(peers, p), Without(h.rooms[r], p), q) == Others(peers, h.rooms[r], q) - {p};
    var d := RemovePeerFromRoom(peers, h, p, now, leftByRequest);
    ReadsRemoval(peers, h, d.peers, d.house, v, For(d.pending, q), p, q);
  }

  lemma ReadsRemoval(
    peers: map<PeerId, Peer>, h: House, peers': map<PeerId, Peer>, h': House, v: ClientView,
    notice: seq<Frame>, p: PeerId, q: PeerId)
    requires p in peers && q in peers && q in peers' && peers'[q].room == peers[q].room == peers[p].room
    requires peers[p].room.Some? && Agrees(v, peers, h, q) && p != q
    requires var r := peers[p].room.value;
             && Member(h.rooms, r, p) && r in h'.rooms
             && Others(peers', h'.rooms[r], q) == Others(peers, h.rooms[r], q) - {p}
             && h'.studies == h.studies
             && h'.hands == (if HandUp(h.hands, r, p) then h.hands[r := Hand.Update(h.hands[r], p, false)] else h.hands)
             && (HandUp(h.hands, r, p) ==> peers[p].announced)
             && notice == (if !peers[p].announced then []
                           else if HandUp(h.hands, r, p)
                             then [PeerLeft(r, p), HandState(r, Hand.Update(h.hands[r], p, false))]
                           else [PeerLeft(r, p)])
    ensures Agrees(ReadAll(v, notice), peers', h', q)
  {
    var r := peers[p].room.value;
    if peers[p].announced {
      assert p in v.others;
      var left := Read(v, PeerLeft(r, p));
      assert notice[0] == PeerLeft(r, p);
      if HandUp(h.hands, r, p) {
        assert notice[1..] == [HandState(r, h'.hands[r])];
        assert ReadAll(left, notice[1..]) == Read(left, HandState(r, h'.hands[r]));
      } else {
        assert notice[1..] == [];
      }
    } else {
      assert p !in v.others;
    }
  }
}
