/** A start or a stop that nothing disturbs succeeds, whatever the senders answer. */
module ScreenShareProgress {
  import opened Common
  import opened ScreenShare
  import opened ScreenShareSafety
  import opened ScreenShareRuns

  const NO_TROUBLE := Trouble(false, {}, {})

  // ----- start -----

  /** A start that waits for a sender, and still may go on. */
  ghost predicate WaitingStart(w: Share, operation: nat) {
    && w.start.Replacing? && w.start.operation == operation && OwnsStart(w, operation)
    && w.start.swap.reply == Waiting && w.start.swap.peer in w.senders && w.start.swap.peer < w.nextPeer
  }

  lemma {:induction false} LoopGoesOn(w: Share, operation: nat, cameras: Cameras, from: nat, updates: seq<Update>, failures: seq<nat>, r: Share)
    requires OwnsStart(w, operation) && r == ReplaceFrom(w, operation, cameras, from, updates, failures, NO_TROUBLE)
    ensures r.active == Some(Screen(operation))
            || (WaitingStart(r, operation) && r.start.swap.peer >= from && r.nextPeer == w.nextPeer)
    decreases w.nextPeer - from
  {
    if from >= w.nextPeer {
      CommitShares(w, operation, cameras, failures, {});
    } else if from !in w.senders {
      LoopGoesOn(w, operation, cameras, from + 1, updates, failures, r);
    } else if w.senders[from].NoSender? {
      LoopGoesOn(w.(senders := w.senders[from := Sender(Some(Screen(operation)))]), operation, cameras, from + 1,
                 updates + [Update(from, None, true)], failures, r);
    }
  }

  /** One sender answers, one way or the other, and the start goes on. */
  lemma OneSender(w: Share, operation: nat, ok: bool, r: Share)
    requires WaitingStart(w, operation)
    requires r == Next(Next(w, StartAnswered(ok)), StartResumes(NO_TROUBLE))
    ensures r.active == Some(Screen(operation))
            || (WaitingStart(r, operation) && r.start.swap.peer > w.start.swap.peer && r.nextPeer == w.nextPeer)
  {
    var answered := AnswerStart(w, ok);
    var swap := answered.start.swap;
    var failures := w.start.failures + if swap.reply == Failed then [swap.peer] else [];
    var updated := w.start.updates + if swap.reply == Replaced then [Update(swap.peer, w.start.previous, false)] else [];
    assert r == ReplaceFrom(answered, operation, w.start.cameras, swap.peer + 1, updated, failures, NO_TROUBLE);
    LoopGoesOn(answered, operation, w.start.cameras, swap.peer + 1, updated, failures, r);
  }

  /** Each sender the start waits for answers as it may, and the start resumes. */
  predicate StartAnswers(w: Share, answers: nat -> bool, events: seq<Event>)
    decreases |events|
  {
    events == []
    || (&& |events| >= 2 && w.start.Replacing? && w.start.swap.reply == Waiting
        && events[0] == StartAnswered(answers(w.start.swap.peer)) && events[1] == StartResumes(NO_TROUBLE)
        && StartAnswers(Next(Next(w, events[0]), events[1]), answers, events[2..]))
  }

  lemma {:induction false} WaitingSucceeds(w: Share, operation: nat, answers: nat -> bool) returns (events: seq<Event>)
    requires WaitingStart(w, operation)
    ensures StartAnswers(w, answers, events) && RunOn(w, events).active == Some(Screen(operation))
    decreases w.nextPeer - w.start.swap.peer
  {
    var answer := StartAnswered(answers(w.start.swap.peer));
    var r := Next(Next(w, answer), StartResumes(NO_TROUBLE));
    OneSender(w, operation, answers(w.start.swap.peer), r);
    var rest := [];
    if r.active != Some(Screen(operation)) {
      rest := WaitingSucceeds(r, operation, answers);
    }
    events := [answer, StartResumes(NO_TROUBLE)] + rest;
    assert events[2..] == rest;
    TwoEvents(w, answer, StartResumes(NO_TROUBLE), rest);
  }

  lemma TwoEvents(w: Share, a: Event, b: Event, rest: seq<Event>)
    ensures RunOn(w, [a, b] + rest) == RunOn(Next(Next(w, a), b), rest)
  {
  }

  lemma OneEvent(w: Share, a: Event, rest: seq<Event>)
    ensures RunOn(w, [a] + rest) == RunOn(Next(w, a), rest)
  {
  }

  /** If the user picks something to share and only the senders answer, each as it may, it is shared. */
  lemma StartSucceeds(w: Share, answers: nat -> bool) returns (events: seq<Event>)
    requires Inv(w) && w.start.Choosing? && w.operation == w.start.operation && w.roomActive && Screen(w.operation) !in w.ended
    ensures StartAnswers(Next(w, Chosen(true, NO_TROUBLE)), answers, events)
    ensures RunOn(w, [Chosen(true, NO_TROUBLE)] + events).active == Some(Screen(w.operation))
  {
    var operation := w.operation;
    var w1 := w.(acquired := w.acquired + {Screen(operation)}, pending := Some(Screen(operation)));
    var video := if w.stream.Some? then w.stream.value.video else [];
    var r := Choose(w, true, NO_TROUBLE);
    LoopGoesOn(w1, operation, Cameras(video, FirstLive(video, w.ended)), 0, [], [], r);
    events := [];
    if r.active != Some(Screen(operation)) {
      events := WaitingSucceeds(r, operation, answers);
    }
    OneEvent(w, Chosen(true, NO_TROUBLE), events);
  }

  // ----- stop -----

  ghost predicate WaitingStop(w: Share) {
    && w.stop.Restoring? && OwnsStop(w, w.stop.track, w.stop.generation)
    && w.stop.swap.reply == Waiting && w.stop.swap.peer in w.senders
  }

  lemma {:induction false} RestoreGoesOn(w: Share, track: Track, generation: nat, primary: Option<Track>, rest: seq<nat>, failures: seq<nat>, r: Share)
    requires OwnsStop(w, track, generation) && r == RestoreFrom(w, track, generation, primary, rest, failures, {})
    ensures r.active == None || (WaitingStop(r) && |r.stop.rest| < |rest|)
    decreases |rest|
  {
    if rest == [] {
      RecoverSame(w.(active := None, cameras := [], created := false, stop := StopSettled), failures, {}, r);
    } else if rest[0] !in w.senders || w.senders[rest[0]].NoSender? {
      RestoreGoesOn(w, track, generation, primary, rest[1..], failures, r);
    }
  }

  /** Each sender the stop waits for answers as it may, and the stop resumes. */
  predicate StopAnswers(w: Share, answers: nat -> bool, events: seq<Event>)
    decreases |events|
  {
    events == []
    || (&& |events| >= 2 && w.stop.Restoring? && w.stop.swap.reply == Waiting
        && events[0] == StopAnswered(answers(w.stop.swap.peer)) && events[1] == StopResumes(NO_TROUBLE)
        && StopAnswers(Next(Next(w, events[0]), events[1]), answers, events[2..]))
  }

  lemma {:induction false} WaitingStops(w: Share, answers: nat -> bool) returns (events: seq<Event>)
    requires WaitingStop(w)
    ensures StopAnswers(w, answers, events) && RunOn(w, events).active == None
    decreases |w.stop.rest|
  {
    var ok := answers(w.stop.swap.peer);
    var answered := AnswerStop(w, ok);
    var r := Next(Next(w, StopAnswered(ok)), StopResumes(NO_TROUBLE));
    var Restoring(track, generation, primary, left, failures, swap) := answered.stop;
    RestoreGoesOn(answered, track, generation, primary, left, failures + if swap.reply == Failed then [swap.peer] else [], r);
    var rest := [];
    if r.active != None {
      rest := WaitingStops(r, answers);
    }
    events := [StopAnswered(ok), StopResumes(NO_TROUBLE)] + rest;
    assert events[2..] == rest;
    TwoEvents(w, StopAnswered(ok), StopResumes(NO_TROUBLE), rest);
  }

  /** If only the senders answer after a stop, each as it may, nothing is shared any more. */
  lemma StopSucceeds(w: Share, answers: nat -> bool) returns (events: seq<Event>)
    requires Inv(w) && Sharing(w) && !w.disposed
    ensures StopAnswers(Next(w, StopRequested(NO_TROUBLE)), answers, events)
    ensures RunOn(w, [StopRequested(NO_TROUBLE)] + events).active == None
  {
    var w1 := BeginStop(w);
    var r := RequestStop(w, NO_TROUBLE);
    RestoreGoesOn(w1, w.active.value, w1.operation, FirstLive(w.cameras, w1.ended), PeersFrom(w1, 0), [], r);
    events := [];
    if r.active != None {
      events := WaitingStops(r, answers);
    }
    OneEvent(w, StopRequested(NO_TROUBLE), events);
  }
}
