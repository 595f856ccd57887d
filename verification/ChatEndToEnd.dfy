/**
 From the sender's queue to the recipient's memory: a chat that is sent again is shown once, if timers
 and transport together are not late by more than 95 seconds.
 */
module ChatEndToEnd {
  import Chat = RoomChat
  import Delivery = ChatDelivery
  import Receiving = ChatReceiving
  import Times = ChatTimes

  /** 260 seconds, less the retry deadline and one acknowledgement timeout. */
  const MARGIN_MS := 95_000

  /** A copy of a chat sent to this recipient arrives within the time of its transport. */
  predicate Brings(copy: Delivery.Copy, to: Chat.PeerId, id: Receiving.ChatId, at: int, transit: nat) {
    copy.to == to && copy.id == id && copy.at <= at <= copy.at + transit
  }

  /** The key of a chat from this participant. */
  predicate IsFrom(a: Receiving.Accepted, sender: Receiving.SenderId) {
    a.recorded.Some? && a.recorded.value.sender == sender
  }

  /** Every chat the recipient records from a participant is a copy that the participant sent to it. */
  ghost predicate Carried(
    copies: seq<Delivery.Copy>, recorded: seq<Receiving.Accepted>, sender: Receiving.SenderId, to: Chat.PeerId, transit: nat)
  {
    forall k :: 0 <= k < |recorded| && IsFrom(recorded[k], sender)
                ==> exists m :: 0 <= m < |copies| && Brings(copies[m], to, recorded[k].recorded.value.id, recorded[k].at, transit)
  }

  /** What arrives was sent in time, and so arrives within 260 seconds of the creation of the chat. */
  lemma ArrivesInTime(
    maxMessages: nat, sent: seq<Delivery.Event>, late: nat, end: int, w: Delivery.World, recorded: seq<Receiving.Accepted>,
    sender: Receiving.SenderId, to: Chat.PeerId, transit: nat, k: nat)
    requires Times.Timely(maxMessages, sent, late, end) && w == Delivery.Run(maxMessages, sent)
    requires Carried(w.copies, recorded, sender, to, transit) && late + transit <= MARGIN_MS
    requires k < |recorded| && IsFrom(recorded[k], sender)
    ensures var id := recorded[k].recorded.value.id;
            id in w.created && w.created[id] <= recorded[k].at < w.created[id] + 26 * Receiving.RATE_WINDOW_MS
  {
    var m :| 0 <= m < |w.copies| && Brings(w.copies[m], to, recorded[k].recorded.value.id, recorded[k].at, transit);
    Times.CopiesAreSentInTime(maxMessages, sent, late, end, m);
  }

  /**
   Over every run of a sender whose timers run at most `late` ms late, and every run of a recipient to
   which copies take at most `transit` ms: if both together are within the margin, and messages are
   accepted on at most five channels in the 260 seconds after the chat was created, it is shown once.
   */
  lemma ChatIsShownOnce(
    maxMessages: nat, sent: seq<Delivery.Event>, late: nat, end: int, w: Delivery.World,
    received: seq<Receiving.Event>, now: int, log: seq<Receiving.Accepted>, recorded: seq<Receiving.Accepted>,
    sender: Receiving.SenderId, to: Chat.PeerId, transit: nat, channels: set<Receiving.ChannelId>, i: nat, j: nat)
    requires Times.Timely(maxMessages, sent, late, end) && w == Delivery.Run(maxMessages, sent)
    requires Receiving.Ordered(received, now) && log == Receiving.Run(received).log && recorded == Receiving.Recorded(log)
    requires Carried(w.copies, recorded, sender, to, transit) && late + transit <= MARGIN_MS
    requires i < |recorded| && j < |recorded| && IsFrom(recorded[i], sender) && recorded[i].recorded == recorded[j].recorded
    requires |channels| <= 5
    requires var id := recorded[i].recorded.value.id;
             id in w.created ==> Receiving.OnlyOn(log, channels, w.created[id], w.created[id] + 26 * Receiving.RATE_WINDOW_MS)
    ensures i == j
  {
    ArrivesInTime(maxMessages, sent, late, end, w, recorded, sender, to, transit, i);
    ArrivesInTime(maxMessages, sent, late, end, w, recorded, sender, to, transit, j);
    var from := w.created[recorded[i].recorded.value.id];
    if i < j {
      Receiving.ShownOnce(received, now, channels, from, from + 26 * Receiving.RATE_WINDOW_MS, i, j);
    } else if j < i {
      Receiving.ShownOnce(received, now, channels, from, from + 26 * Receiving.RATE_WINDOW_MS, j, i);
    }
  }
}
