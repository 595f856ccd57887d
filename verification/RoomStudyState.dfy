/**
 The shared focus timer of a room (RoomStudyState.java).

 The timer keeps whole milliseconds and is brought up to date on every command, so each command
 forgets the fraction of a millisecond that had already elapsed. ExactTimer is the timer without
 that rounding; DriftBound compares the two over every run.
 */
module RoomStudyState {
  import opened Common

  const NANOS_PER_MILLI := 1_000_000
  const MILLIS_PER_SECOND := 1_000

  datatype Action =
    | Start(mode: string, durationSeconds: nat)
    | Pause
    | Resume
    | Reset
    | SetTopic(topic: string)

  datatype Command = Command(expectedRevision: nat, action: Action)

  datatype Timer = Timer(
    revision: nat, topic: string, mode: string, durationSeconds: nat,
    remainingMs: int, startedAtNanos: int, running: bool)

  datatype Snapshot = Snapshot(
    revision: nat, topic: string, mode: string, durationSeconds: nat, remainingMs: int, running: bool)

  const NEW_TIMER := Timer(0, "", "focus", 1500, 1_500_000, 0, false)

  function ElapsedMs(startedAt: int, now: int): (ms: nat)
    ensures ms * NANOS_PER_MILLI <= Max(0, now - startedAt) < (ms + 1) * NANOS_PER_MILLI
  {
    Max(0, now - startedAt) / NANOS_PER_MILLI
  }

  function Remaining(t: Timer, now: int): int {
    if t.running then Max(0, t.remainingMs - ElapsedMs(t.startedAtNanos, now)) else t.remainingMs
  }

  lemma RemainingRunsDown(t: Timer, now: int)
    ensures forall later :: now <= later ==> Remaining(t, later) <= Remaining(t, now)
  {
    forall later | now <= later
      ensures ElapsedMs(t.startedAtNanos, now) <= ElapsedMs(t.startedAtNanos, later)
    {
    }
  }

  function Shown(t: Timer, now: int): Snapshot {
    var left := Remaining(t, now);
    Snapshot(t.revision, t.topic, t.mode, t.durationSeconds, left, t.running && left > 0)
  }

  /** The timer after a command that was accepted. */
  function Act(t: Timer, action: Action, now: int): Timer {
    var left := Remaining(t, now);
    var u := t.(remainingMs := left, startedAtNanos := now, running := t.running && left > 0,
                revision := t.revision + 1);
    match action
    case Start(mode, seconds) =>
      u.(mode := mode, durationSeconds := seconds, remainingMs := seconds * MILLIS_PER_SECOND, running := true)
    case Pause => u.(running := false)
    case Resume => u.(running := left > 0)
    case Reset => u.(remainingMs := t.durationSeconds * MILLIS_PER_SECOND, running := false)
    case SetTopic(topic) => u.(topic := topic)
  }

  predicate Accepts(t: Timer, c: Command) { t.revision == c.expectedRevision }

  function Apply(t: Timer, c: Command, now: int): Timer {
    if Accepts(t, c) then Act(t, c.action, now) else t
  }

  // ----- the timer without rounding -----

  /** An ideal timer in nanoseconds that a resume starts and only a pause, start or reset stops. */
  datatype ExactTimer = ExactTimer(leftNanos: int, startedAtNanos: int, running: bool)

  ghost function ExactLeft(e: ExactTimer, now: int): int {
    if e.running then Max(0, e.leftNanos - Max(0, now - e.startedAtNanos)) else e.leftNanos
  }

  ghost function ExactAct(e: ExactTimer, durationSeconds: nat, action: Action, now: int): ExactTimer {
    match action
    case Start(_, seconds) => ExactTimer(seconds * MILLIS_PER_SECOND * NANOS_PER_MILLI, now, true)
    case Pause => ExactTimer(ExactLeft(e, now), now, false)
    case Resume => ExactTimer(ExactLeft(e, now), now, true)
    case Reset => ExactTimer(durationSeconds * MILLIS_PER_SECOND * NANOS_PER_MILLI, now, false)
    case SetTopic(_) => ExactTimer(ExactLeft(e, now), now, e.running)
  }

  // ----- runs -----

  datatype Step = Step(command: Command, now: int)

  /** The timer, the exact timer, and how many commands were applied since the last start or reset. */
  datatype Pair = Pair(timer: Timer, exact: ExactTimer, applied: nat)

  ghost function Run(steps: seq<Step>): Pair {
    if steps == [] then Pair(NEW_TIMER, ExactTimer(1_500_000 * NANOS_PER_MILLI, 0, false), 0)
    else
      var p := Run(steps[..|steps| - 1]);
      var s := steps[|steps| - 1];
      if !Accepts(p.timer, s.command) then p
      else Pair(
             Act(p.timer, s.command.action, s.now),
             ExactAct(p.exact, p.timer.durationSeconds, s.command.action, s.now),
             if s.command.action.Start? || s.command.action.Reset? then 0 else p.applied + 1)
  }

  /** What holds of the pair at the instant of its last command. */
  ghost predicate Close(p: Pair) {
    && 0 <= p.timer.remainingMs <= p.timer.durationSeconds * MILLIS_PER_SECOND
    && 0 <= p.timer.remainingMs * NANOS_PER_MILLI - p.exact.leftNanos <= p.applied * NANOS_PER_MILLI
    && 0 <= p.exact.leftNanos
    && (p.timer.running ==> p.exact.running)
    && (p.exact.running && !p.timer.running ==> p.timer.remainingMs == 0)
    && (p.exact.running ==> p.exact.startedAtNanos == p.timer.startedAtNanos)
  }

  lemma Drift(p: Pair, now: int)
    requires Close(p)
    ensures 0 <= Remaining(p.timer, now) <= p.timer.durationSeconds * MILLIS_PER_SECOND
    ensures 0 <= Remaining(p.timer, now) * NANOS_PER_MILLI - ExactLeft(p.exact, now)
                 < (p.applied + 1) * NANOS_PER_MILLI
  {
  }

  lemma {:induction false} RunStaysClose(steps: seq<Step>)
    ensures Close(Run(steps))
  {
    if steps != [] {
      var p := Run(steps[..|steps| - 1]);
      RunStaysClose(steps[..|steps| - 1]);
      Drift(p, steps[|steps| - 1].now);
    }
  }

  /**
   After any commands, at any later instant, what the timer shows is never less than the exact time
   left and exceeds it by less than one millisecond per command applied since the last start or
   reset, plus one; and it stays within the chosen duration.
   */
  lemma DriftBound(steps: seq<Step>, now: int)
    ensures var p := Run(steps);
            var shown := Shown(p.timer, now).remainingMs;
            && 0 <= shown <= p.timer.durationSeconds * MILLIS_PER_SECOND
            && 0 <= shown * NANOS_PER_MILLI - ExactLeft(p.exact, now) < (p.applied + 1) * NANOS_PER_MILLI
  {
    RunStaysClose(steps);
    Drift(Run(steps), now);
  }

  /** The bound cannot be halved: after one topic change the timer can be two nanoseconds short of 2 ms off. */
  lemma DriftBoundIsTight()
    ensures var p := Run([Step(Command(0, Start("focus", 60)), 0),
                          Step(Command(1, SetTopic("algebra")), 999_999)]);
            && p.applied == 1
            && Shown(p.timer, 1_999_998).remainingMs * NANOS_PER_MILLI - ExactLeft(p.exact, 1_999_998) == 1_999_998
  {
    var s0 := Step(Command(0, Start("focus", 60)), 0);
    var s1 := Step(Command(1, SetTopic("algebra")), 999_999);
    assert [s0, s1][..1] == [s0];
    assert [s0][..0] == [];
    assert Run([s0]) == Pair(Act(NEW_TIMER, s0.command.action, 0), ExactTimer(60_000_000_000, 0, true), 0);
  }

  /** Every applied command raises the revision by one, so the revision counts the applied commands. */
  lemma {:induction false} RevisionCountsApplied(steps: seq<Step>)
    ensures Run(steps).timer.revision == AppliedCount(steps)
  {
    if steps != [] {
      RevisionCountsApplied(steps[..|steps| - 1]);
    }
  }

  /** How many of the commands named the revision that was current when they arrived. */
  ghost function AppliedCount(steps: seq<Step>): nat {
    if steps == [] then 0
    else
      var before := steps[..|steps| - 1];
      AppliedCount(before) + if steps[|steps| - 1].command.expectedRevision == AppliedCount(before) then 1 else 0
  }

  /** The timer object itself. */
  class RoomStudyState {
    var revision: nat
    var topic: string
    var mode: string
    var durationSeconds: nat
    var remainingMs: int
    var startedAtNanos: int
    var running: bool

    ghost function Model(): Timer
      reads this
    {
      Timer(revision, topic, mode, durationSeconds, remainingMs, startedAtNanos, running)
    }

    ghost predicate Valid()
      reads this
    {
      0 <= remainingMs
    }

    constructor ()
      ensures Valid() && Model() == NEW_TIMER
    {
      revision, topic, mode, durationSeconds := 0, "", "focus", 1500;
      remainingMs, startedAtNanos, running := 1_500_000, 0, false;
    }

    method TakeSnapshot(nowNanos: int) returns (s: Snapshot)
      requires Valid()
      ensures s == Shown(Model(), nowNanos)
    {
      var left := RemainingMs(nowNanos);
      s := Snapshot(revision, topic, mode, durationSeconds, left, running && left > 0);
    }

    method ApplyCommand(command: Command, nowNanos: int) returns (applied: bool)
      requires Valid()
      modifies this
      ensures Valid()
      ensures applied <==> Accepts(old(Model()), command)
      ensures Model() == Apply(old(Model()), command, nowNanos)
    {
      if revision != command.expectedRevision {
        return false;
      }
      remainingMs := RemainingMs(nowNanos);
      startedAtNanos := nowNanos;
      running := running && remainingMs > 0;
      match command.action {
        case Start(newMode, seconds) =>
          mode := newMode;
          durationSeconds := seconds;
          remainingMs := durationSeconds * MILLIS_PER_SECOND;
          running := true;
        case Pause => running := false;
        case Resume => running := remainingMs > 0;
        case Reset =>
          remainingMs := durationSeconds * MILLIS_PER_SECOND;
          running := false;
        case SetTopic(newTopic) => topic := newTopic;
      }
      revision := revision + 1;
      applied := true;
    }

    /** Never negative, never more than before, and less and less as time goes on. */
    method RemainingMs(nowNanos: int) returns (ms: int)
      requires Valid()
      ensures ms == Remaining(Model(), nowNanos) && 0 <= ms <= remainingMs
      ensures forall later :: nowNanos <= later ==> Remaining(Model(), later) <= ms
    {
      RemainingRunsDown(Model(), nowNanos);
      if running {
        ms := Max(0, remainingMs - ElapsedMs(startedAtNanos, nowNanos));
      } else {
        ms := remainingMs;
      }
    }
  }
}
