/**
 Delivery of the chats a client sends: the ledger of the room (room-chat.ts), the queue of every
 recipient's data channel (peer-data-channel.ts) and the room session between them
 (room-session.ts), as one state machine. What the channels can take, which recipients a retry may
 go to, and when acknowledgements and timers come are parameters of the steps.
 */
module ChatDelivery {
  import opened RoomChat

  const MAX_PENDING_CHAT_MESSAGES := 50
  const CHAT_ACK_TIMEOUT_MS := 45_000

  datatype PendingChat = PendingChat(id: MessageId, enqueuedAt: int, sentOnCurrentChannel: bool, everSent: bool)

  /** A copy of a chat handed to a channel. */
  datatype Copy = Copy(id: MessageId, to: PeerId, at: int)

  /** The other participants, the queues of those with a connection, and what was ever sent. */
  datatype World = World(
    participants: set<PeerId>, queues: map<PeerId, seq<PendingChat>>, ledger: Ledger,
    created: map<MessageId, int>, copies: seq<Copy>)

  function NewWorld(maxMessages: nat): World {
    World({}, map[], NewLedger(maxMessages), map[], [])
  }

  // ----- one queue -----

  predicate HasCapacity(queue: seq<PendingChat>) { |queue| < MAX_PENDING_CHAT_MESSAGES }

  function Enqueued(queue: seq<PendingChat>, id: MessageId, now: int): seq<PendingChat> {
    queue + [PendingChat(id, now, false, false)]
  }

  /** attach: nothing has been sent on the new channel. */
  function Reattached(queue: seq<PendingChat>): (r: seq<PendingChat>)
    ensures |r| == |queue|
    ensures forall i :: 0 <= i < |r| ==> r[i] == queue[i].(sentOnCurrentChannel := false)
  {
    if queue == [] then [] else [queue[0].(sentOnCurrentChannel := false)] + Reattached(queue[1..])
  }

  /** flush: the next n chats that have not been sent on this channel. */
  function Flushed(queue: seq<PendingChat>, n: nat): (r: seq<PendingChat>)
    ensures |r| == |queue|
  {
    if queue == [] || n == 0 then queue
    else if queue[0].sentOnCurrentChannel then [queue[0]] + Flushed(queue[1..], n)
    else [queue[0].(sentOnCurrentChannel := true, everSent := true)] + Flushed(queue[1..], n - 1)
  }

  function CopiesOf(queue: seq<PendingChat>, n: nat, to: PeerId, now: int): seq<Copy> {
    if queue == [] || n == 0 then []
    else if queue[0].sentOnCurrentChannel then CopiesOf(queue[1..], n, to, now)
    else [Copy(queue[0].id, to, now)] + CopiesOf(queue[1..], n - 1, to, now)
  }

  /** Whether the acknowledgement of this chat is expected: it was sent at least once. */
  predicate Acknowledgeable(queue: seq<PendingChat>, id: MessageId) {
    exists i :: 0 <= i < |queue| && queue[i].id == id && queue[i].everSent
  }

  predicate Queued(queue: seq<PendingChat>, id: MessageId) {
    exists i :: 0 <= i < |queue| && queue[i].id == id
  }

  /** findIndex. */
  function IndexOf(queue: seq<PendingChat>, id: MessageId): (k: nat)
    ensures k <= |queue|
    ensures k < |queue| ==> queue[k].id == id
    ensures forall i :: 0 <= i < k ==> queue[i].id != id
  {
    if queue == [] || queue[0].id == id then 0 else 1 + IndexOf(queue[1..], id)
  }

  /** The queue without its first chat with this id. */
  function Removed(queue: seq<PendingChat>, id: MessageId): seq<PendingChat> {
    var k := IndexOf(queue, id);
    if k == |queue| then queue else queue[..k] + queue[k + 1..]
  }

  // ----- the steps -----

  function EnqueueFor(queues: map<PeerId, seq<PendingChat>>, peers: set<PeerId>, id: MessageId, now: int)
    : map<PeerId, seq<PendingChat>>
  {
    map p | p in queues :: if p in peers then Enqueued(queues[p], id, now) else queues[p]
  }

  /** sendChat with a fresh id; it throws, and changes nothing, if nobody can be reached or a queue is full. */
  function SendChat(w: World, id: MessageId, self: PeerId, now: int): World {
    var targets := set p | p in w.participants && p in w.queues;
    if id in w.created then w
    else if w.participants != {} && targets == {} then w
    else if exists p :: p in targets && !HasCapacity(w.queues[p]) then w
    else
      var recipients := map p | p in w.participants :: if p in w.queues then Pending else Failed;
      w.(queues := EnqueueFor(w.queues, targets, id, now),
         ledger := RecordOutgoing(w.ledger, id, self, recipients, now),
         created := w.created[id := now])
  }

  /** The recipients a retry goes to, of those it may go to. */
  function RetryPeers(w: World, id: MessageId, ready: set<PeerId>): set<PeerId> {
    set p | p in FailedRecipients(w.ledger, id) && p in ready && p in w.queues && HasCapacity(w.queues[p])
  }

  /** retryChat; `ready` are the peers with an open channel that are not recovering, as far as they were asked for. */
  function RetryChat(w: World, id: MessageId, ready: set<PeerId>, now: int): World {
    var peers := RetryPeers(w, id, ready);
    if !RetryCandidate(w.ledger, id, now) || peers == {} || id !in w.ledger.states then w
    else w.(ledger := PrepareRetry(w.ledger, id, peers), queues := EnqueueFor(w.queues, peers, id, now))
  }

  /** flush, on a channel that takes n more frames before it is full or fails. */
  function Flush(w: World, p: PeerId, n: nat, now: int): World {
    if p !in w.queues then w
    else w.(queues := w.queues[p := Flushed(w.queues[p], n)], copies := w.copies + CopiesOf(w.queues[p], n, p, now))
  }

  function Attach(w: World, p: PeerId): World {
    if p !in w.queues then w else w.(queues := w.queues[p := Reattached(w.queues[p])])
  }

  function Acknowledge(w: World, p: PeerId, id: MessageId): World {
    if p !in w.queues || !Acknowledgeable(w.queues[p], id) then w
    else w.(queues := w.queues[p := Removed(w.queues[p], id)], ledger := MarkLocalRecipient(w.ledger, id, p, Acknowledged))
  }

  function Expire(w: World, p: PeerId, id: MessageId): World {
    if p !in w.queues || !Queued(w.queues[p], id) then w
    else w.(queues := w.queues[p := Removed(w.queues[p], id)], ledger := MarkLocalRecipient(w.ledger, id, p, Failed))
  }

  /** dispose: what is still queued has failed. */
  function FailAll(l: Ledger, p: PeerId, queue: seq<PendingChat>): Ledger
    decreases |queue|
  {
    if queue == [] then l else FailAll(MarkLocalRecipient(l, queue[0].id, p, Failed), p, queue[1..])
  }

  function Dispose(w: World, p: PeerId): World {
    if p !in w.queues then w
    else w.(queues := w.queues - {p}, ledger := FailAll(w.ledger, p, w.queues[p]))
  }

  datatype Event =
    | Sends(id: MessageId, self: PeerId, now: int)
    | Retries(id: MessageId, ready: set<PeerId>, now: int)
    | Flushes(peer: PeerId, n: nat, now: int)
    | Attaches(peer: PeerId)
    | Acknowledges(peer: PeerId, id: MessageId)
    | Expires(peer: PeerId, id: MessageId, now: int)
    | ParticipantSeen(peer: PeerId)
    | PeerCreated(peer: PeerId)
    | PeerDisposed(peer: PeerId)
    | ParticipantGone(peer: PeerId)
    | Receives(id: MessageId, sender: PeerId)

  function Next(w: World, e: Event): World {
    match e
    case Sends(id, self, now) => SendChat(w, id, self, now)
    case Retries(id, ready, now) => RetryChat(w, id, ready, now)
    case Flushes(p, n, now) => Flush(w, p, n, now)
    case Attaches(p) => Attach(w, p)
    case Acknowledges(p, id) => Acknowledge(w, p, id)
    case Expires(p, id, _) => Expire(w, p, id)
    case ParticipantSeen(p) => w.(participants := w.participants + {p})
    case PeerCreated(p) =>
      w.(participants := w.participants + {p}, queues := if p in w.queues then w.queues else w.queues[p := []])
    case PeerDisposed(p) => Dispose(w, p)
    case ParticipantGone(p) => var d := Dispose(w, p); d.(participants := d.participants - {p})
    case Receives(id, sender) => w.(ledger := RecordReceived(w.ledger, id, sender))
  }

  function Run(maxMessages: nat, events: seq<Event>): World {
    if events == [] then NewWorld(maxMessages) else Next(Run(maxMessages, events[..|events| - 1]), events[|events| - 1])
  }

  // ----- the invariants -----

  /** A queue is not too long, has every id once, and what was sent on its channel comes first. */
  ghost predicate QueueOk(queue: seq<PendingChat>) {
    && |queue| <= MAX_PENDING_CHAT_MESSAGES
    && (forall i, j :: 0 <= i < j < |queue| ==> queue[i].id != queue[j].id)
    && (forall i, j :: 0 <= i < j < |queue| && queue[j].sentOnCurrentChannel ==> queue[i].sentOnCurrentChannel)
    && (forall i :: 0 <= i < |queue| && queue[i].sentOnCurrentChannel ==> queue[i].everSent)
  }

  ghost predicate QueuedFor(queues: map<PeerId, seq<PendingChat>>, p: PeerId, id: MessageId) {
    p in queues && Queued(queues[p], id)
  }

  /** The ledger awaits an answer from a recipient exactly while the chat is in that recipient's queue. */
  ghost predicate Agree(l: Ledger, queues: map<PeerId, seq<PendingChat>>) {
    forall p: PeerId, id: MessageId :: AwaitedFrom(l, id, p) <==> QueuedFor(queues, p, id)
  }

  ghost predicate QueuesOk(queues: map<PeerId, seq<PendingChat>>) {
    forall p: PeerId :: p in queues ==> QueueOk(queues[p])
  }

  /** A queued chat was queued before its deadline. */
  ghost predicate InTime(created: map<MessageId, int>, queue: seq<PendingChat>) {
    forall i :: 0 <= i < |queue| ==>
      queue[i].id in created && queue[i].enqueuedAt < created[queue[i].id] + RETRY_DEADLINE_MS
  }

  ghost predicate TimesOk(w: World) {
    && (forall id :: id in w.ledger.states ==> id in w.created)
    && (forall id :: id in w.ledger.deadlines ==> id in w.created && w.ledger.deadlines[id] == w.created[id] + RETRY_DEADLINE_MS)
    && (forall i :: 0 <= i < |w.ledger.messages| && w.ledger.messages[i].isLocal ==> w.ledger.messages[i].id in w.created)
    && (forall p: PeerId :: p in w.queues ==> InTime(w.created, w.queues[p]))
  }

  ghost predicate Inv(w: World) {
    LedgerOk(w.ledger) && QueuesOk(w.queues) && Agree(w.ledger, w.queues) && TimesOk(w)
  }

  // ----- one queue, step by step -----

  lemma EnqueuedOk(queue: seq<PendingChat>, id: MessageId, now: int)
    requires QueueOk(queue) && HasCapacity(queue) && !Queued(queue, id)
    ensures QueueOk(Enqueued(queue, id, now))
    ensures forall x :: Queued(Enqueued(queue, id, now), x) <==> Queued(queue, x) || x == id
  {
    var r := Enqueued(queue, id, now);
    forall x | Queued(queue, x)
      ensures Queued(r, x)
    {
      var i :| 0 <= i < |queue| && queue[i].id == x;
      assert r[i].id == x;
    }
    assert r[|queue|].id == id;
  }

  lemma ReattachedOk(queue: seq<PendingChat>)
    requires QueueOk(queue)
    ensures QueueOk(Reattached(queue))
    ensures forall x :: Queued(Reattached(queue), x) <==> Queued(queue, x)
  {
    var r := Reattached(queue);
    forall x
      ensures Queued(r, x) <==> Queued(queue, x)
    {
      if Queued(queue, x) {
        var i :| 0 <= i < |queue| && queue[i].id == x;
        assert r[i].id == x;
      }
    }
  }

  /** Flushing sends the first unsent chats, so that those sent on the channel still come first. */
  lemma {:induction false} FlushedShape(queue: seq<PendingChat>, n: nat)
    requires forall i, j :: 0 <= i < j < |queue| && queue[j].sentOnCurrentChannel ==> queue[i].sentOnCurrentChannel
    ensures var r := Flushed(queue, n);
            && (forall i :: 0 <= i < |r| ==> r[i].id == queue[i].id && r[i].enqueuedAt == queue[i].enqueuedAt)
            && (forall i :: 0 <= i < |r| ==> r[i] == queue[i] || (r[i].sentOnCurrentChannel && r[i].everSent))
            && (forall i, j :: 0 <= i < j < |r| && r[j].sentOnCurrentChannel ==> r[i].sentOnCurrentChannel)
    decreases |queue|
  {
    if queue != [] && n != 0 {
      FlushedShape(queue[1..], if queue[0].sentOnCurrentChannel then n else n - 1);
    }
  }

  lemma FlushedOk(queue: seq<PendingChat>, n: nat)
    requires QueueOk(queue)
    ensures QueueOk(Flushed(queue, n))
    ensures forall x :: Queued(Flushed(queue, n), x) <==> Queued(queue, x)
  {
    FlushedShape(queue, n);
    var r := Flushed(queue, n);
    forall x
      ensures Queued(r, x) <==> Queued(queue, x)
    {
      if Queued(queue, x) {
        var i :| 0 <= i < |queue| && queue[i].id == x;
        assert r[i].id == x;
      }
    }
  }

  lemma RemovedAt(queue: seq<PendingChat>, k: nat)
    requires QueueOk(queue) && k < |queue|
    ensures QueueOk(queue[..k] + queue[k + 1..])
    ensures forall x :: Queued(queue[..k] + queue[k + 1..], x) <==> Queued(queue, x) && x != queue[k].id
  {
    var r := queue[..k] + queue[k + 1..];
    assert forall i :: 0 <= i < |r| ==> r[i] == queue[if i < k then i else i + 1];
    forall x | Queued(queue, x) && x != queue[k].id
      ensures Queued(r, x)
    {
      var i :| 0 <= i < |queue| && queue[i].id == x;
      assert r[if i < k then i else i - 1].id == x;
    }
    forall x | Queued(r, x)
      ensures Queued(queue, x) && x != queue[k].id
    {
      var i :| 0 <= i < |r| && r[i].id == x;
      assert queue[if i < k then i else i + 1].id == x;
    }
  }

  lemma RemovedOk(queue: seq<PendingChat>, id: MessageId)
    requires QueueOk(queue)
    ensures QueueOk(Removed(queue, id))
    ensures forall x :: Queued(Removed(queue, id), x) <==> Queued(queue, x) && x != id
  {
    var k := IndexOf(queue, id);
    if k < |queue| {
      RemovedAt(queue, k);
    }
  }

  // ----- ledger and queues, step by step -----

  lemma EnqueueForOk(queues: map<PeerId, seq<PendingChat>>, peers: set<PeerId>, id: MessageId, now: int)
    requires QueuesOk(queues) && peers <= queues.Keys
    requires forall p: PeerId :: p in peers ==> HasCapacity(queues[p]) && !Queued(queues[p], id)
    ensures QueuesOk(EnqueueFor(queues, peers, id, now))
    ensures forall p: PeerId, x: MessageId :: QueuedFor(EnqueueFor(queues, peers, id, now), p, x)
                                              <==> QueuedFor(queues, p, x) || (p in peers && x == id)
  {
    var queues' := EnqueueFor(queues, peers, id, now);
    forall p: PeerId | p in peers
      ensures QueueOk(queues'[p]) && forall x :: Queued(queues'[p], x) <==> Queued(queues[p], x) || x == id
    {
      EnqueuedOk(queues[p], id, now);
    }
  }

  /** Only one queue changes, and only one recipient of the ledger. */
  lemma OneQueueAgrees(
    l: Ledger, l': Ledger, queues: map<PeerId, seq<PendingChat>>, p: PeerId, queue: seq<PendingChat>, id: MessageId)
    requires Agree(l, queues) && QueuesOk(queues) && p in queues && QueueOk(queue)
    requires forall x :: Queued(queue, x) <==> Queued(queues[p], x) && x != id
    requires forall m, q :: AwaitedFrom(l', m, q) <==> AwaitedFrom(l, m, q) && !(m == id && q == p)
    ensures Agree(l', queues[p := queue]) && QueuesOk(queues[p := queue])
  {
  }

  lemma SameQueueAgrees(l: Ledger, queues: map<PeerId, seq<PendingChat>>, p: PeerId, queue: seq<PendingChat>)
    requires Agree(l, queues) && QueuesOk(queues) && p in queues && QueueOk(queue)
    requires forall x :: Queued(queue, x) <==> Queued(queues[p], x)
    ensures Agree(l, queues[p := queue]) && QueuesOk(queues[p := queue])
  {
  }

  lemma SettleKeeps(w: World, p: PeerId, id: MessageId, state: RecipientState, w': World)
    requires Inv(w) && p in w.queues && state != Pending
    requires w' == w.(queues := w.queues[p := Removed(w.queues[p], id)], ledger := MarkLocalRecipient(w.ledger, id, p, state))
    ensures Inv(w')
  {
    RemovedOk(w.queues[p], id);
    MarkKeeps(w.ledger, id, p, state, w'.ledger);
    OneQueueAgrees(w.ledger, w'.ledger, w.queues, p, w'.queues[p], id);
    SettleTimes(w, p, id, state, w');
  }

  lemma MarkedTimes(l: Ledger, id: MessageId, p: PeerId, state: RecipientState, l': Ledger)
    requires LedgerOk(l) && state != Pending && l' == MarkLocalRecipient(l, id, p, state)
    ensures forall m :: m in l'.states ==> m in l.states
    ensures |l'.messages| == |l.messages|
    ensures forall i :: 0 <= i < |l'.messages| ==> l'.messages[i].id == l.messages[i].id && l'.messages[i].isLocal == l.messages[i].isLocal
  {
    if AwaitedFrom(l, id, p) {
      MarkedStates(l, id, p, state, l.states[id][p := state], l');
    }
  }

  lemma SettleTimes(w: World, p: PeerId, id: MessageId, state: RecipientState, w': World)
    requires TimesOk(w) && LedgerOk(w.ledger) && p in w.queues && state != Pending
    requires w' == w.(queues := w.queues[p := Removed(w.queues[p], id)], ledger := MarkLocalRecipient(w.ledger, id, p, state))
    ensures TimesOk(w')
  {
    MarkedTimes(w.ledger, id, p, state, w'.ledger);
    MarkKeeps(w.ledger, id, p, state, w'.ledger);
    assert InTime(w.created, w.queues[p]);
  }

  lemma FlushKeeps(w: World, p: PeerId, n: nat, now: int)
    requires Inv(w)
    ensures Inv(Flush(w, p, n, now))
  {
    if p in w.queues {
      FlushedOk(w.queues[p], n);
      SameQueueAgrees(w.ledger, w.queues, p, Flushed(w.queues[p], n));
      FlushedShape(w.queues[p], n);
      assert InTime(w.created, w.queues[p]);
    }
  }

  lemma AttachKeeps(w: World, p: PeerId)
    requires Inv(w)
    ensures Inv(Attach(w, p))
  {
    if p in w.queues {
      ReattachedOk(w.queues[p]);
      SameQueueAgrees(w.ledger, w.queues, p, Reattached(w.queues[p]));
      assert InTime(w.created, w.queues[p]);
    }
  }

  lemma AcknowledgeKeeps(w: World, p: PeerId, id: MessageId)
    requires Inv(w)
    ensures Inv(Acknowledge(w, p, id))
  {
    if p in w.queues {
      SettleKeeps(w, p, id, Acknowledged, w.(queues := w.queues[p := Removed(w.queues[p], id)],
                                             ledger := MarkLocalRecipient(w.ledger, id, p, Acknowledged)));
    }
  }

  lemma ExpireKeeps(w: World, p: PeerId, id: MessageId)
    requires Inv(w)
    ensures Inv(Expire(w, p, id))
  {
    if p in w.queues {
      SettleKeeps(w, p, id, Failed, w.(queues := w.queues[p := Removed(w.queues[p], id)],
                                       ledger := MarkLocalRecipient(w.ledger, id, p, Failed)));
    }
  }

  lemma RemovesFirst(queue: seq<PendingChat>)
    requires queue != []
    ensures Removed(queue, queue[0].id) == queue[1..]
  {
    assert queue[..0] + queue[1..] == queue[1..];
  }

  function Emptied(w: World, p: PeerId, queue: seq<PendingChat>): World {
    w.(queues := w.queues[p := []], ledger := FailAll(w.ledger, p, queue))
  }

  lemma EmptiedStep(w: World, p: PeerId, queue: seq<PendingChat>, one: World)
    requires queue != []
    requires one == w.(queues := w.queues[p := queue[1..]], ledger := MarkLocalRecipient(w.ledger, queue[0].id, p, Failed))
    ensures Emptied(one, p, queue[1..]) == Emptied(w, p, queue)
  {
    assert one.queues[p := []] == w.queues[p := []];
  }

  /** Disposing of a channel settles its chats one after the other. */
  lemma {:induction false} FailAllKeeps(w: World, p: PeerId, queue: seq<PendingChat>, w': World)
    requires Inv(w) && p in w.queues && queue == w.queues[p]
    requires w' == Emptied(w, p, queue)
    ensures Inv(w')
    decreases |queue|
  {
    if queue == [] {
      assert w.queues[p := []] == w.queues;
    } else {
      var one := w.(queues := w.queues[p := queue[1..]], ledger := MarkLocalRecipient(w.ledger, queue[0].id, p, Failed));
      RemovesFirst(queue);
      EmptiedStep(w, p, queue, one);
      SettleKeeps(w, p, queue[0].id, Failed, one);
      FailAllKeeps(one, p, queue[1..], w');
    }
  }

  lemma DisposeKeeps(w: World, p: PeerId)
    requires Inv(w)
    ensures Inv(Dispose(w, p))
  {
    if p in w.queues {
      var emptied := Emptied(w, p, w.queues[p]);
      FailAllKeeps(w, p, w.queues[p], emptied);
      forall q: PeerId, id: MessageId
        ensures QueuedFor(w.queues - {p}, q, id) <==> QueuedFor(emptied.queues, q, id)
      {
      }
    }
  }

  lemma ReceiveKeeps(w: World, id: MessageId, sender: PeerId)
    requires Inv(w)
    ensures Inv(w.(ledger := RecordReceived(w.ledger, id, sender)))
  {
    RecordReceivedKeeps(w.ledger, id, sender);
    TrimmedTimes(w.ledger.(messages := w.ledger.messages + [ChatMessage(id, sender, false, Received)]));
  }

  /** What is left of the history and the ledger was there before. */
  lemma {:induction false} TrimmedTimes(l: Ledger)
    ensures forall m :: m in Trim(l).states ==> m in l.states
    ensures forall i :: 0 <= i < |Trim(l).messages| ==> Trim(l).messages[i] in l.messages
    decreases |l.messages|
  {
    if |l.messages| > l.maxMessages {
      var shorter := l.(messages := l.messages[1..]);
      TrimmedTimes(if l.messages[0].isLocal then RetireIfUnused(shorter, l.messages[0].id) else shorter);
    }
  }

  lemma CreatePeerKeeps(w: World, p: PeerId)
    requires Inv(w)
    ensures Inv(Next(w, PeerCreated(p))) && Inv(Next(w, ParticipantSeen(p)))
  {
    forall q: PeerId, id: MessageId
      ensures QueuedFor(Next(w, PeerCreated(p)).queues, q, id) <==> QueuedFor(w.queues, q, id)
    {
    }
  }

  // ----- sending and sending again -----

  lemma SendKeeps(w: World, id: MessageId, self: PeerId, now: int)
    requires Inv(w)
    ensures Inv(SendChat(w, id, self, now))
  {
    var targets := set p | p in w.participants && p in w.queues;
    var w' := SendChat(w, id, self, now);
    if w' != w {
      SentIsNew(w, id);
      var recipients := map p | p in w.participants :: if p in w.queues then Pending else Failed;
      RecordOutgoingKeeps(w.ledger, id, self, recipients, now);
      EnqueueForOk(w.queues, targets, id, now);
      SendTimes(w, id, self, now, targets, recipients, w');
    }
  }

  lemma SentIsNew(w: World, id: MessageId)
    requires Inv(w) && id !in w.created
    ensures id !in w.ledger.states && !Local(w.ledger.messages, id)
    ensures forall p: PeerId :: !QueuedFor(w.queues, p, id)
  {
    forall p: PeerId | p in w.queues
      ensures !Queued(w.queues[p], id)
    {
      assert InTime(w.created, w.queues[p]);
    }
  }

  lemma SendTimes(
    w: World, id: MessageId, self: PeerId, now: int, targets: set<PeerId>, recipients: Recipients, w': World)
    requires Inv(w) && id !in w.created && id !in w.ledger.states && !Local(w.ledger.messages, id)
    requires w' == w.(queues := EnqueueFor(w.queues, targets, id, now),
                      ledger := RecordOutgoing(w.ledger, id, self, recipients, now), created := w.created[id := now])
    ensures TimesOk(w')
  {
    var l := w.ledger;
    RecordOutgoingKeeps(l, id, self, recipients, now);
    TrimmedTimes(l.(states := l.states[id := recipients], deadlines := l.deadlines[id := now + RETRY_DEADLINE_MS],
                    messages := l.messages + [ChatMessage(id, self, true, Aggregate(recipients))]));
    forall p: PeerId | p in w'.queues
      ensures InTime(w'.created, w'.queues[p])
    {
      CreatedInTime(w.created, w.queues[p], id, now);
    }
  }

  lemma CreatedInTime(created: map<MessageId, int>, queue: seq<PendingChat>, id: MessageId, now: int)
    requires InTime(created, queue) && id !in created
    ensures InTime(created[id := now], queue) && InTime(created[id := now], Enqueued(queue, id, now))
  {
  }

  lemma RetryKeeps(w: World, id: MessageId, ready: set<PeerId>, now: int)
    requires Inv(w)
    ensures Inv(RetryChat(w, id, ready, now))
  {
    var peers := RetryPeers(w, id, ready);
    var w' := RetryChat(w, id, ready, now);
    if w' != w {
      forall p: PeerId | p in peers
        ensures p in w.queues && HasCapacity(w.queues[p]) && !Queued(w.queues[p], id)
      {
        assert !AwaitedFrom(w.ledger, id, p);
        assert !QueuedFor(w.queues, p, id);
      }
      PrepareRetryKeeps(w.ledger, id, peers);
      EnqueueForOk(w.queues, peers, id, now);
      RetryTimes(w, id, peers, now, w');
    }
  }

  lemma RetryTimes(w: World, id: MessageId, peers: set<PeerId>, now: int, w': World)
    requires Inv(w) && RetryCandidate(w.ledger, id, now) && id in w.ledger.states
    requires w' == w.(ledger := PrepareRetry(w.ledger, id, peers), queues := EnqueueFor(w.queues, peers, id, now))
    ensures TimesOk(w')
  {
    forall p: PeerId | p in w'.queues
      ensures InTime(w'.created, w'.queues[p])
    {
      EnqueuedInTime(w.created, w.queues[p], id, now);
    }
  }

  lemma EnqueuedInTime(created: map<MessageId, int>, queue: seq<PendingChat>, id: MessageId, now: int)
    requires InTime(created, queue) && id in created && now < created[id] + RETRY_DEADLINE_MS
    ensures InTime(created, Enqueued(queue, id, now))
  {
  }

  // ----- every run -----

  lemma NextKeeps(w: World, e: Event)
    requires Inv(w)
    ensures Inv(Next(w, e))
  {
    match e
    case Sends(id, self, now) => SendKeeps(w, id, self, now);
    case Retries(id, ready, now) => RetryKeeps(w, id, ready, now);
    case Flushes(p, n, now) => FlushKeeps(w, p, n, now);
    case Attaches(p) => AttachKeeps(w, p);
    case Acknowledges(p, id) => AcknowledgeKeeps(w, p, id);
    case Expires(p, id, _) => ExpireKeeps(w, p, id);
    case ParticipantSeen(p) => CreatePeerKeeps(w, p);
    case PeerCreated(p) => CreatePeerKeeps(w, p);
    case PeerDisposed(p) => DisposeKeeps(w, p);
    case ParticipantGone(p) => DisposeKeeps(w, p);
    case Receives(id, sender) => ReceiveKeeps(w, id, sender);
  }

  lemma {:induction false} RunKeeps(maxMessages: nat, events: seq<Event>)
    ensures Inv(Run(maxMessages, events))
  {
    if events != [] {
      RunKeeps(maxMessages, events[..|events| - 1]);
      NextKeeps(Run(maxMessages, events[..|events| - 1]), events[|events| - 1]);
    }
  }

  /** How often a chat is in the queue of a recipient. */
  function Occurrences(queues: map<PeerId, seq<PendingChat>>, p: PeerId, id: MessageId): set<nat> {
    if p in queues then set i: nat | i < |queues[p]| && queues[p][i].id == id else {}
  }

  /**
   After every run the ledger awaits an answer from a recipient if and only if exactly one copy of the
   chat is in that recipient's queue; otherwise none is. What the history shows for a chat is the
   aggregate of its recipients, and an entry is kept for exactly the chats that are in the history or
   still awaited from somebody.
   */
  lemma LedgerAndQueuesAgree(maxMessages: nat, events: seq<Event>, p: PeerId, id: MessageId)
    ensures var w := Run(maxMessages, events);
            && |Occurrences(w.queues, p, id)| == (if AwaitedFrom(w.ledger, id, p) then 1 else 0)
            && (forall i :: 0 <= i < |w.ledger.messages| && w.ledger.messages[i].isLocal ==>
                  && w.ledger.messages[i].id in w.ledger.states
                  && w.ledger.messages[i].delivery == Aggregate(w.ledger.states[w.ledger.messages[i].id]))
            && (id in w.ledger.states
                <==> Local(w.ledger.messages, id) || exists q: PeerId :: AwaitedFrom(w.ledger, id, q))
  {
    RunKeeps(maxMessages, events);
    OneOccurrence(Run(maxMessages, events), p, id);
    EntryKeptExactly(Run(maxMessages, events).ledger, id);
  }

  lemma OneOccurrence(w: World, p: PeerId, id: MessageId)
    requires QueuesOk(w.queues) && Agree(w.ledger, w.queues)
    ensures |Occurrences(w.queues, p, id)| == if AwaitedFrom(w.ledger, id, p) then 1 else 0
  {
    var occurrences := Occurrences(w.queues, p, id);
    if QueuedFor(w.queues, p, id) {
      var i: nat :| i < |w.queues[p]| && w.queues[p][i].id == id;
      assert occurrences == {i};
    } else {
      assert occurrences == {};
    }
  }

  lemma EntryKeptExactly(l: Ledger, id: MessageId)
    requires LedgerOk(l)
    ensures id in l.states <==> Local(l.messages, id) || exists q: PeerId :: AwaitedFrom(l, id, q)
    ensures forall i :: 0 <= i < |l.messages| && l.messages[i].isLocal ==>
              l.messages[i].id in l.states && l.messages[i].delivery == Aggregate(l.states[l.messages[i].id])
  {
    forall i | 0 <= i < |l.messages| && l.messages[i].isLocal
      ensures l.messages[i].id in l.states && l.messages[i].delivery == Aggregate(l.states[l.messages[i].id])
    {
      assert DeliveryShown(l, i);
    }
    if id in l.states && Somebody(l.states[id], Pending) {
      var q: PeerId :| q in l.states[id] && l.states[id][q] == Pending;
      assert AwaitedFrom(l, id, q);
    }
    if Local(l.messages, id) {
      var i :| 0 <= i < |l.messages| && l.messages[i].isLocal && l.messages[i].id == id;
      assert DeliveryShown(l, i);
    }
  }

  /** After every run a queue holds at most fifty chats, those sent on the present channel before all others. */
  lemma QueuesAreOrdered(maxMessages: nat, events: seq<Event>, p: PeerId)
    requires p in Run(maxMessages, events).queues
    ensures var queue := Run(maxMessages, events).queues[p];
            && |queue| <= MAX_PENDING_CHAT_MESSAGES
            && (forall i, j :: 0 <= i < j < |queue| && queue[j].sentOnCurrentChannel ==> queue[i].sentOnCurrentChannel)
  {
    RunKeeps(maxMessages, events);
    assert QueueOk(Run(maxMessages, events).queues[p]);
  }
}
