/**
 The frames the signaling server sends, and what a client that reads them in order believes about
 its room. A frame only says here what it tells the client about the room; offers, answers,
 candidates, errors and pings are one case.
 */
module Frames {
  import opened Common
  import Study = RoomStudyState
  import Hand = RoomHandQueue

  /**
   A connection, named by its connection sequence number. The peer and session ids of the server
   are fresh values that it only compares for equality, which this number stands for too.
   */
  type PeerId = nat

  /** A room code; codes are only compared for equality. */
  type RoomId = nat

  /** What a study frame says about the timer apart from the time that is left. */
  datatype StudyInfo = StudyInfo(revision: nat, topic: string, mode: string, durationSeconds: nat)

  function InfoOf(t: Study.Timer): StudyInfo {
    StudyInfo(t.revision, t.topic, t.mode, t.durationSeconds)
  }

  datatype Frame =
    | RoomJoined(room: RoomId, participants: seq<PeerId>)
    | PeerJoined(room: RoomId, peer: PeerId)
    | PeerLeft(room: RoomId, peer: PeerId)
    | HandState(room: RoomId, hand: Hand.HandQueue)
    | StudyState(room: RoomId, study: StudyInfo)
    | Neutral(kind: string, from: Option<PeerId>, payload: string)

  /**
   What a client believes after reading some frames. A client is Confused for good once it is told
   that somebody it does not know has left, that somebody it knows has joined again, or anything
   about a room it is not in.
   */
  datatype ClientView =
    | Outside
    | Inside(room: RoomId, others: set<PeerId>, hand: Option<Hand.HandQueue>, study: Option<StudyInfo>)
    | Confused

  function Read(v: ClientView, f: Frame): ClientView {
    if v.Confused? then Confused
    else match f
      case RoomJoined(room, participants) => Inside(room, Elems(participants), None, None)
      case Neutral(_, _, _) => v
      case PeerJoined(room, p) =>
        if v.Inside? && v.room == room && p !in v.others then v.(others := v.others + {p}) else Confused
      case PeerLeft(room, p) =>
        if v.Inside? && v.room == room && p in v.others then v.(others := v.others - {p}) else Confused
      case HandState(room, hand) =>
        if v.Inside? && v.room == room then v.(hand := Some(hand)) else Confused
      case StudyState(room, study) =>
        if v.Inside? && v.room == room then v.(study := Some(study)) else Confused
  }

  function ReadAll(v: ClientView, fs: seq<Frame>): ClientView
    decreases |fs|
  {
    if fs == [] then v else ReadAll(Read(v, fs[0]), fs[1..])
  }

  lemma {:induction false} ReadAllSum(v: ClientView, a: seq<Frame>, b: seq<Frame>)
    ensures ReadAll(v, a + b) == ReadAll(ReadAll(v, a), b)
    decreases |a|
  {
    if a == [] {
      assert a + b == b;
    } else {
      assert (a + b)[1..] == a[1..] + b;
      ReadAllSum(Read(v, a[0]), a[1..], b);
    }
  }

  lemma {:induction false} ConfusedForGood(fs: seq<Frame>)
    ensures ReadAll(Confused, fs) == Confused
  {
    if fs != [] {
      ConfusedForGood(fs[1..]);
    }
  }

  /** Whoever is not confused in the end was not confused before. */
  lemma ClearAllAlong(v: ClientView, a: seq<Frame>, b: seq<Frame>)
    requires ReadAll(v, a + b) != Confused
    ensures ReadAll(v, a) != Confused
  {
    ReadAllSum(v, a, b);
    ConfusedForGood(b);
  }

  // ----- frames waiting to be put on a queue -----

  /** A frame and the connection it is for (PendingOutbound). */
  datatype Pending = Pending(to: PeerId, frame: Frame)

  /** The frames waiting for one connection, in order. */
  function For(pending: seq<Pending>, p: PeerId): seq<Frame> {
    if pending == [] then []
    else (if pending[0].to == p then [pending[0].frame] else []) + For(pending[1..], p)
  }

  lemma {:induction false} ForSum(a: seq<Pending>, b: seq<Pending>, p: PeerId)
    ensures For(a + b, p) == For(a, p) + For(b, p)
  {
    if a == [] {
      assert a + b == b;
    } else {
      assert (a + b)[1..] == a[1..] + b;
      ForSum(a[1..], b, p);
    }
  }

  /** appendBroadcast: the frame for every member but the excluded one, in member order. */
  function Broadcast(members: seq<PeerId>, frame: Frame, excluded: Option<PeerId>): (r: seq<Pending>)
    ensures forall i :: 0 <= i < |r| ==> r[i].to in members && r[i].frame == frame
    ensures |r| <= |members|
  {
    if members == [] then []
    else (if Some(members[0]) == excluded then [] else [Pending(members[0], frame)])
         + Broadcast(members[1..], frame, excluded)
  }

  /** A broadcast reaches every member but the excluded one exactly once, and nobody else. */
  lemma {:induction false} BroadcastFor(members: seq<PeerId>, frame: Frame, excluded: Option<PeerId>, p: PeerId)
    requires NoDup(members)
    ensures For(Broadcast(members, frame, excluded), p)
            == if p in members && excluded != Some(p) then [frame] else []
  {
    if members != [] {
      BroadcastFor(members[1..], frame, excluded, p);
      var first := if Some(members[0]) == excluded then [] else [Pending(members[0], frame)];
      ForSum(first, Broadcast(members[1..], frame, excluded), p);
      assert members[0] !in members[1..];
      assert p in members <==> p == members[0] || p in members[1..];
    }
  }
}
