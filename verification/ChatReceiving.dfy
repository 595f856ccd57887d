/**
 What a client does with the messages that arrive on its data channels (peer-data-channel.ts) and with
 the chats among them (room-chat.ts): a rate limit per channel, a short memory of ids per channel, and
 one memory of (sender, id) keys for the room, from which the oldest keys are forgotten.

 The ids are meant to keep a chat that is sent again from being shown twice. How long that works is a
 matter of the numbers, which is what the main theorem is about. Times are in milliseconds.
 */
module ChatReceiving {
  import opened Common
  import opened FixedWindow

  const RATE_WINDOW_MS := 10_000
  const MAX_MESSAGES_PER_WINDOW := 120
  const MAX_RECEIVED_CHAT_IDS := 128
  const MAX_RECEIVED_KEYS := 16_384

  /** A channel; a participant whose connection is replaced gets a new one. */
  type ChannelId = nat

  /** A participant, whoever has the channel on which its messages arrive. */
  type SenderId = nat

  type ChatId = nat

  datatype Key = Key(sender: SenderId, id: ChatId)

  datatype Channel = Channel(window: Window, recentIds: seq<ChatId>)

  /** A message that passed the rate limit, and the key that was recorded because of it, if any. */
  datatype Accepted = Accepted(channel: ChannelId, at: int, start: int, recorded: Option<Key>)

  datatype Receiver = Receiver(channels: map<ChannelId, Channel>, receivedKeys: seq<Key>, log: seq<Accepted>)

  const NO_RECEIVER := Receiver(map[], [], [])

  /** An id or key joins a memory of bounded size; the oldest ones make room. */
  function Remembered<T>(memory: seq<T>, x: T, max: nat): seq<T> {
    var all := memory + [x];
    if |all| > max then all[|all| - max..] else all
  }

  function ChannelOf(r: Receiver, c: ChannelId): Channel {
    if c in r.channels then r.channels[c] else Channel(Closed, [])
  }

  /** consumeInboundBudget: the window that then counts the message, or none if there is no room. */
  function Budget(w: Window, now: int): Option<Window> {
    var current := if Expired(w, RATE_WINDOW_MS, now) then Open(now, 0) else w;
    if current.used >= MAX_MESSAGES_PER_WINDOW then None else Some(current.(used := current.used + 1))
  }

  /** recordReceived: the key that is recorded, if it is new. */
  function Record(receivedKeys: seq<Key>, key: Key): Option<Key> {
    if key in receivedKeys then None else Some(key)
  }

  /** A message of a participant arrives; `chat` is its id if it is a chat that may be received. */
  function Arrive(r: Receiver, c: ChannelId, sender: SenderId, now: int, chat: Option<ChatId>): Receiver {
    var ch := ChannelOf(r, c);
    match Budget(ch.window, now)
    case None =>
      var window := if Expired(ch.window, RATE_WINDOW_MS, now) then Open(now, 0) else ch.window;
      r.(channels := r.channels[c := ch.(window := window)])
    case Some(window) =>
      if chat == None || chat.value in ch.recentIds then
        Receiver(r.channels[c := ch.(window := window)], r.receivedKeys, r.log + [Accepted(c, now, window.start, None)])
      else
        var recorded := Record(r.receivedKeys, Key(sender, chat.value));
        Receiver(
          r.channels[c := Channel(window, Remembered(ch.recentIds, chat.value, MAX_RECEIVED_CHAT_IDS))],
          if recorded.Some? then Remembered(r.receivedKeys, recorded.value, MAX_RECEIVED_KEYS) else r.receivedKeys,
          r.log + [Accepted(c, now, window.start, recorded)])
  }

  /** The timer that closes a window whose limit was reached; timers do not fire early. */
  function WindowCloses(r: Receiver, c: ChannelId, now: int): Receiver {
    if c in r.channels && Expired(r.channels[c].window, RATE_WINDOW_MS, now)
    then r.(channels := r.channels[c := r.channels[c].(window := Closed)]) else r
  }

  datatype Event = Arrives(channel: ChannelId, sender: SenderId, now: int, chat: Option<ChatId>) | Closes(channel: ChannelId, now: int)

  function Next(r: Receiver, e: Event): Receiver {
    match e
    case Arrives(c, sender, now, chat) => Arrive(r, c, sender, now, chat)
    case Closes(c, now) => WindowCloses(r, c, now)
  }

  function Run(events: seq<Event>): Receiver {
    if events == [] then NO_RECEIVER else Next(Run(events[..|events| - 1]), events[|events| - 1])
  }

  /** The clock does not go back. */
  ghost predicate Ordered(events: seq<Event>, now: int) {
    && (forall i, j :: 0 <= i < j < |events| ==> events[i].now <= events[j].now)
    && (forall i :: 0 <= i < |events| ==> events[i].now <= now)
  }

  // ----- the rate limit of one channel -----

  function Uses(c: ChannelId, log: seq<Accepted>): seq<Use> {
    if log == [] then []
    else
      var a := log[|log| - 1];
      Uses(c, log[..|log| - 1]) + if a.channel == c then [Use(a.at, a.start, 1)] else []
  }

  ghost predicate Limited(r: Receiver, c: ChannelId, now: int) {
    Tracks(Uses(c, r.log), RATE_WINDOW_MS, MAX_MESSAGES_PER_WINDOW, ChannelOf(r, c).window, now)
  }

  lemma UsesMore(c: ChannelId, log: seq<Accepted>, a: Accepted)
    ensures Uses(c, log + [a]) == Uses(c, log) + if a.channel == c then [Use(a.at, a.start, 1)] else []
  {
    assert (log + [a])[..|log|] == log;
  }

  lemma BudgetTracks(uses: seq<Use>, w: Window, now: int)
    requires Tracks(uses, RATE_WINDOW_MS, MAX_MESSAGES_PER_WINDOW, w, now)
    ensures match Budget(w, now)
            case None => Tracks(uses, RATE_WINDOW_MS, MAX_MESSAGES_PER_WINDOW,
                                if Expired(w, RATE_WINDOW_MS, now) then Open(now, 0) else w, now)
            case Some(after) => after.Open? && Tracks(uses + [Use(now, after.start, 1)], RATE_WINDOW_MS, MAX_MESSAGES_PER_WINDOW, after, now)
  {
    if Expired(w, RATE_WINDOW_MS, now) {
      TracksOpen(uses, RATE_WINDOW_MS, MAX_MESSAGES_PER_WINDOW, w, now);
      TracksAdmit(uses, RATE_WINDOW_MS, MAX_MESSAGES_PER_WINDOW, Open(now, 0), now, 1);
    } else if w.used < MAX_MESSAGES_PER_WINDOW {
      TracksAdmit(uses, RATE_WINDOW_MS, MAX_MESSAGES_PER_WINDOW, w, now, 1);
    }
  }

  /** What a message does to the window and the uses of a channel. */
  lemma ArriveCounts(r: Receiver, c: ChannelId, sender: SenderId, now: int, chat: Option<ChatId>, k: ChannelId, r': Receiver)
    requires r' == Arrive(r, c, sender, now, chat)
    ensures k != c ==> ChannelOf(r', k).window == ChannelOf(r, k).window && Uses(k, r'.log) == Uses(k, r.log)
    ensures k == c ==>
              match Budget(ChannelOf(r, c).window, now)
              case None =>
                && ChannelOf(r', c).window == (if Expired(ChannelOf(r, c).window, RATE_WINDOW_MS, now) then Open(now, 0)
                                               else ChannelOf(r, c).window)
                && Uses(c, r'.log) == Uses(c, r.log)
              case Some(after) =>
                after.Open? ==> ChannelOf(r', c).window == after && Uses(c, r'.log) == Uses(c, r.log) + [Use(now, after.start, 1)]
  {
    if r'.log != r.log {
      UsesMore(k, r.log, r'.log[|r.log|]);
      assert Uses(k, r.log) + [] == Uses(k, r.log);
    }
  }

  lemma ArriveLimited(r: Receiver, c: ChannelId, sender: SenderId, now: int, chat: Option<ChatId>, k: ChannelId)
    requires Limited(r, k, now)
    ensures Limited(Arrive(r, c, sender, now, chat), k, now)
  {
    ArriveCounts(r, c, sender, now, chat, k, Arrive(r, c, sender, now, chat));
    if k == c {
      BudgetTracks(Uses(k, r.log), ChannelOf(r, k).window, now);
    }
  }

  lemma {:induction false} RunLimited(events: seq<Event>, now: int, k: ChannelId)
    requires Ordered(events, now)
    ensures Limited(Run(events), k, now)
  {
    if events == [] {
      TracksNothing(RATE_WINDOW_MS, MAX_MESSAGES_PER_WINDOW, now);
    } else {
      var front, e := events[..|events| - 1], events[|events| - 1];
      RunLimited(front, e.now, k);
      match e {
        case Arrives(c, sender, at, chat) => ArriveLimited(Run(front), c, sender, at, chat, k);
        case Closes(_, _) => TracksLater(Uses(k, Run(front).log), RATE_WINDOW_MS, MAX_MESSAGES_PER_WINDOW, ChannelOf(Run(front), k).window, e.now, e.now);
      }
      TracksLater(Uses(k, Run(events).log), RATE_WINDOW_MS, MAX_MESSAGES_PER_WINDOW, ChannelOf(Run(events), k).window, e.now, now);
    }
  }

  // ----- all channels together -----

  ghost predicate During(a: Accepted, from: int, until: int) {
    from <= a.at < until
  }

  /** The messages accepted on some channels in a span. */
  ghost function CountOn(log: seq<Accepted>, channels: set<ChannelId>, from: int, until: int): nat {
    if log == [] then 0
    else
      CountOn(log[..|log| - 1], channels, from, until)
      + if log[|log| - 1].channel in channels && During(log[|log| - 1], from, until) then 1 else 0
  }

  lemma {:induction false} CountSplit(log: seq<Accepted>, channels: set<ChannelId>, c: ChannelId, from: int, until: int)
    requires c in channels
    ensures CountOn(log, channels, from, until)
            == Weigh(Uses(c, log), Within(from, until)) + CountOn(log, channels - {c}, from, until)
  {
    if log != [] {
      var front, a := log[..|log| - 1], log[|log| - 1];
      CountSplit(front, channels, c, from, until);
      if a.channel == c {
        assert (Uses(c, front) + [Use(a.at, a.start, 1)])[..|Uses(c, front)|] == Uses(c, front);
      } else {
        assert Uses(c, front) + [] == Uses(c, front);
      }
    }
  }

  lemma {:induction false} CountNothing(log: seq<Accepted>, from: int, until: int)
    ensures CountOn(log, {}, from, until) == 0
  {
    if log != [] {
      CountNothing(log[..|log| - 1], from, until);
    }
  }

  /** n channels accept at most n * (k + 1) * 120 messages in k windows' time. */
  lemma {:induction false} ChannelsBound(
    events: seq<Event>, now: int, log: seq<Accepted>, channels: set<ChannelId>, from: int, until: int, k: nat, perChannel: nat)
    requires Ordered(events, now) && log == Run(events).log
    requires until <= from + k * RATE_WINDOW_MS && perChannel == (k + 1) * MAX_MESSAGES_PER_WINDOW
    ensures CountOn(log, channels, from, until) <= |channels| * perChannel
    decreases channels
  {
    if channels == {} {
      CountNothing(log, from, until);
    } else {
      var c :| c in channels;
      CountSplit(log, channels, c, from, until);
      ChannelsBound(events, now, log, channels - {c}, from, until, k, perChannel);
      RunLimited(events, now, c);
      SpanBound(Uses(c, log), RATE_WINDOW_MS, MAX_MESSAGES_PER_WINDOW, from, until, k);
      assert |channels| * perChannel == (|channels| - 1) * perChannel + perChannel;
    }
  }

  // ----- the keys of the room -----

  function Recorded(log: seq<Accepted>): seq<Accepted> {
    if log == [] then []
    else Recorded(log[..|log| - 1]) + if log[|log| - 1].recorded.Some? then [log[|log| - 1]] else []
  }

  function Keys(recorded: seq<Accepted>): (r: seq<Key>)
    requires forall i :: 0 <= i < |recorded| ==> recorded[i].recorded.Some?
    ensures |r| == |recorded| && forall i :: 0 <= i < |r| ==> r[i] == recorded[i].recorded.value
  {
    if recorded == [] then [] else Keys(recorded[..|recorded| - 1]) + [recorded[|recorded| - 1].recorded.value]
  }

  lemma {:induction false} RecordedOnly(log: seq<Accepted>)
    ensures forall i :: 0 <= i < |Recorded(log)| ==> Recorded(log)[i].recorded.Some?
  {
    if log != [] {
      RecordedOnly(log[..|log| - 1]);
    }
  }

  function NewestKeys(keys: seq<Key>): seq<Key> {
    if |keys| > MAX_RECEIVED_KEYS then keys[|keys| - MAX_RECEIVED_KEYS..] else keys
  }

  /** The room remembers the newest keys, a key is only recorded when it is not remembered, and time goes on. */
  ghost predicate KeysInv(r: Receiver, now: int) {
    var recorded := Recorded(r.log);
    && (forall i :: 0 <= i < |recorded| ==> recorded[i].recorded.Some?)
    && r.receivedKeys == NewestKeys(Keys(recorded))
    && (forall i, j :: 0 <= i < j < |recorded| && recorded[i].recorded == recorded[j].recorded ==> j - i >= MAX_RECEIVED_KEYS)
    && (forall i, j :: 0 <= i < j < |recorded| ==> recorded[i].at <= recorded[j].at)
    && (forall i :: 0 <= i < |recorded| ==> recorded[i].at <= now)
  }

  lemma NewestKeysMore(keys: seq<Key>, key: Key)
    ensures Remembered(NewestKeys(keys), key, MAX_RECEIVED_KEYS) == NewestKeys(keys + [key])
  {
  }

  lemma KeysMore(recorded: seq<Accepted>, a: Accepted)
    requires forall i :: 0 <= i < |recorded| ==> recorded[i].recorded.Some?
    requires a.recorded.Some?
    ensures Keys(recorded + [a]) == Keys(recorded) + [a.recorded.value]
  {
    assert (recorded + [a])[..|recorded|] == recorded;
  }

  lemma RecordedMore(log: seq<Accepted>, a: Accepted)
    ensures Recorded(log + [a]) == Recorded(log) + if a.recorded.Some? then [a] else []
  {
    assert (log + [a])[..|log|] == log;
  }

  /** The message a has recorded a new key. */
  ghost predicate NewlyRecorded(r: Receiver, r': Receiver, a: Accepted, now: int) {
    && a.at == now && a.recorded.Some? && a.recorded.value !in r.receivedKeys
    && r'.receivedKeys == Remembered(r.receivedKeys, a.recorded.value, MAX_RECEIVED_KEYS)
    && Recorded(r'.log) == Recorded(r.log) + [a]
  }

  /** What a message does to the recorded keys. */
  lemma ArriveRecords(r: Receiver, c: ChannelId, sender: SenderId, now: int, chat: Option<ChatId>, r': Receiver)
    requires r' == Arrive(r, c, sender, now, chat)
    ensures (Recorded(r'.log) == Recorded(r.log) && r'.receivedKeys == r.receivedKeys)
            || exists a :: NewlyRecorded(r, r', a, now)
  {
    if r'.log != r.log {
      var a := r'.log[|r.log|];
      RecordedMore(r.log, a);
      assert Recorded(r.log) + [] == Recorded(r.log);
      assert a.recorded.Some? ==> NewlyRecorded(r, r', a, now);
    }
  }

  lemma ArriveKeepsKeys(r: Receiver, c: ChannelId, sender: SenderId, now: int, chat: Option<ChatId>, before: int)
    requires KeysInv(r, before) && before <= now
    ensures KeysInv(Arrive(r, c, sender, now, chat), now)
  {
    var r' := Arrive(r, c, sender, now, chat);
    ArriveRecords(r, c, sender, now, chat, r');
    if Recorded(r'.log) != Recorded(r.log) {
      var a :| NewlyRecorded(r, r', a, now);
      NewKeyKeepsKeys(r, r', a, before, now);
    }
  }

  lemma NewKeyKeepsKeys(r: Receiver, r': Receiver, a: Accepted, before: int, now: int)
    requires KeysInv(r, before) && before <= now && a.at == now
    requires a.recorded.Some? && a.recorded.value !in r.receivedKeys
    requires r'.receivedKeys == Remembered(r.receivedKeys, a.recorded.value, MAX_RECEIVED_KEYS)
    requires Recorded(r'.log) == Recorded(r.log) + [a]
    ensures KeysInv(r', now)
  {
    var recorded := Recorded(r.log);
    var keys := Keys(recorded);
    KeysMore(recorded, a);
    NewestKeysMore(keys, a.recorded.value);
    forall i | 0 <= i < |recorded| && recorded[i].recorded == a.recorded
      ensures |recorded| - i >= MAX_RECEIVED_KEYS
    {
      if |recorded| - i < MAX_RECEIVED_KEYS {
        StillRemembered(keys, i);
      }
    }
  }

  lemma StillRemembered(keys: seq<Key>, i: nat)
    requires i < |keys| && |keys| - i < MAX_RECEIVED_KEYS
    ensures keys[i] in NewestKeys(keys)
  {
    var dropped := |keys| - |NewestKeys(keys)|;
    assert NewestKeys(keys)[i - dropped] == keys[i];
  }

  lemma NextKeepsKeys(r: Receiver, e: Event, now: int)
    requires KeysInv(r, e.now) && e.now <= now
    ensures KeysInv(Next(r, e), now)
  {
    match e {
      case Arrives(c, sender, at, chat) => ArriveKeepsKeys(r, c, sender, at, chat, at);
      case Closes(_, _) =>
    }
  }

  lemma {:induction false} RunKeepsKeys(events: seq<Event>, now: int)
    requires Ordered(events, now)
    ensures KeysInv(Run(events), now)
  {
    if events != [] {
      var front, e := events[..|events| - 1], events[|events| - 1];
      RunKeepsKeys(front, e.now);
      NextKeepsKeys(Run(front), e, now);
    }
  }

  // ----- shown at most once -----

  /** What was accepted in the span came on these channels. */
  ghost predicate OnlyOn(log: seq<Accepted>, channels: set<ChannelId>, from: int, until: int) {
    forall k :: 0 <= k < |log| && During(log[k], from, until) ==> log[k].channel in channels
  }

  lemma {:induction false} CountAll(log: seq<Accepted>, channels: set<ChannelId>, from: int, until: int, i: nat, j: nat)
    requires i <= j <= |Recorded(log)|
    requires OnlyOn(log, channels, from, until)
    requires forall k :: i <= k < j ==> During(Recorded(log)[k], from, until)
    ensures CountOn(log, channels, from, until) >= j - i
  {
    if log != [] {
      var front, a := log[..|log| - 1], log[|log| - 1];
      assert log == front + [a];
      RecordedMore(front, a);
      forall k | i <= k < j && k < |Recorded(front)|
        ensures During(Recorded(front)[k], from, until)
      {
        assert Recorded(front)[k] == Recorded(log)[k];
      }
      if j <= |Recorded(front)| {
        CountAll(front, channels, from, until, i, j);
      } else if i < j {
        assert Recorded(log)[j - 1] == a;
        CountAll(front, channels, from, until, i, j - 1);
      }
    }
  }

  lemma AllDuring(r: Receiver, now: int, i: nat, j: nat, from: int, until: int)
    requires KeysInv(r, now) && i < j < |Recorded(r.log)|
    requires from <= Recorded(r.log)[i].at && Recorded(r.log)[j].at < until
    ensures forall k :: i <= k <= j ==> During(Recorded(r.log)[k], from, until)
  {
    var recorded := Recorded(r.log);
    forall k | i <= k <= j
      ensures recorded[i].at <= recorded[k].at <= recorded[j].at
    {
    }
  }

  lemma FewKeys(channels: nat)
    requires channels <= 5
    ensures channels * 3_240 <= 16_200
  {
  }

  /**
   In any span of 260 seconds in which messages are accepted on at most five channels, no key is
   recorded twice: at most 27 * 120 * 5 = 16,200 keys can be recorded in it, fewer than the room
   remembers.
   */
  lemma ShownOnce(events: seq<Event>, now: int, channels: set<ChannelId>, from: int, until: int, i: nat, j: nat)
    requires Ordered(events, now) && |channels| <= 5 && until <= from + 26 * RATE_WINDOW_MS
    requires OnlyOn(Run(events).log, channels, from, until)
    requires i < j < |Recorded(Run(events).log)|
    requires from <= Recorded(Run(events).log)[i].at && Recorded(Run(events).log)[j].at < until
    ensures Recorded(Run(events).log)[i].recorded != Recorded(Run(events).log)[j].recorded
  {
    RunKeepsKeys(events, now);
    var log := Run(events).log;
    FewKeys(|channels|);
    AllDuring(Run(events), now, i, j, from, until);
    CountAll(log, channels, from, until, i, j + 1);
    ChannelsBound(events, now, log, channels, from, until, 26, 3_240);
  }
}
