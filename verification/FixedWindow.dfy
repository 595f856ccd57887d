/**
 Fixed-window counting, as the TURN limiter, the inbound frame limiter and the data channel all do
 it: a window opens with the first use after the previous one has expired, and admits at most `max`.

 The theorem here is about whole histories: windows do not line up with the clock, yet any span
 shorter than k windows admits at most (k + 1) * max.
 */
module FixedWindow {

  /** An admitted use: when, in the window opened when, and how much of the allowance it took. */
  datatype Use = Use(at: int, start: int, weight: nat)

  ghost function Weigh(h: seq<Use>, counts: Use -> bool): nat {
    if h == [] then 0
    else Weigh(h[..|h| - 1], counts) + if counts(h[|h| - 1]) then h[|h| - 1].weight else 0
  }

  ghost function InWindow(start: int): Use -> bool { (u: Use) => u.start == start }

  /** Uses from `from` on and before `until`. */
  ghost function Within(from: int, until: int): Use -> bool { (u: Use) => from <= u.at < until }

  /** Uses in windows opened at `from` or later, before `until`. */
  ghost function Opened(from: int, until: int): Use -> bool { (u: Use) => from <= u.start && u.at < until }

  /** Uses arrive in order, each within its window; windows are at least w apart and admit at most max. */
  ghost predicate Windowed(h: seq<Use>, w: int, max: nat) {
    && (forall i, j :: 0 <= i < j < |h| ==> h[i].at <= h[j].at)
    && (forall i :: 0 <= i < |h| ==> h[i].start <= h[i].at < h[i].start + w)
    && (forall i, j :: 0 <= i < j < |h| ==> h[i].start == h[j].start || h[i].start + w <= h[j].start)
    && (forall s :: Weigh(h, InWindow(s)) <= max)
  }

  lemma {:induction false} WeighSplit(h: seq<Use>, whole: Use -> bool, a: Use -> bool, b: Use -> bool)
    requires forall i :: 0 <= i < |h| && whole(h[i]) ==> a(h[i]) || b(h[i])
    ensures Weigh(h, whole) <= Weigh(h, a) + Weigh(h, b)
  {
    if h != [] {
      WeighSplit(h[..|h| - 1], whole, a, b);
    }
  }

  lemma {:induction false} WeighNone(h: seq<Use>, counts: Use -> bool)
    requires forall i :: 0 <= i < |h| ==> !counts(h[i])
    ensures Weigh(h, counts) == 0
  {
    if h != [] {
      WeighNone(h[..|h| - 1], counts);
    }
  }

  /** The i-th use is the first that counts. */
  ghost predicate FirstOf(h: seq<Use>, counts: Use -> bool, i: nat) {
    i < |h| && counts(h[i]) && forall j :: 0 <= j < i ==> !counts(h[j])
  }

  /** k windows' worth, counting only windows that opened inside the span. */
  lemma {:induction false} OpenedBound(h: seq<Use>, w: int, max: nat, from: int, until: int, k: nat)
    requires Windowed(h, w, max) && w > 0
    requires until <= from + k * w
    ensures Weigh(h, Opened(from, until)) <= k * max
    decreases k
  {
    var inside := Opened(from, until);
    if i: nat :| FirstOf(h, inside, i) {
      var s := h[i].start;
      assert k > 0;
      assert until <= (s + w) + (k - 1) * w by {
        assert k * w == (k - 1) * w + w;
      }
      OpenedBound(h, w, max, s + w, until, k - 1);
      WeighSplit(h, inside, InWindow(s), Opened(s + w, until));
      assert Weigh(h, InWindow(s)) <= max;
      OneMore(k - 1, max);
    } else {
      NoFirst(h, inside);
      WeighNone(h, inside);
    }
  }

  lemma {:induction false} NoFirst(h: seq<Use>, counts: Use -> bool)
    requires !exists i: nat :: FirstOf(h, counts, i)
    ensures forall i :: 0 <= i < |h| ==> !counts(h[i])
  {
    if i :| 0 <= i < |h| && counts(h[i]) {
      Earliest(h, counts, i);
    }
  }

  lemma {:induction false} Earliest(h: seq<Use>, counts: Use -> bool, i: nat)
    requires i < |h| && counts(h[i])
    ensures exists k: nat :: FirstOf(h, counts, k)
  {
    if j :| 0 <= j < i && counts(h[j]) {
      Earliest(h, counts, j);
    } else {
      assert FirstOf(h, counts, i);
    }
  }

  /** Any span of at most k windows' length admits at most k + 1 windows' worth. */
  lemma SpanBound(h: seq<Use>, w: int, max: nat, from: int, until: int, k: nat)
    requires Windowed(h, w, max) && w > 0
    requires until <= from + k * w
    ensures Weigh(h, Within(from, until)) <= (k + 1) * max
  {
    var inside := Within(from, until);
    if i: nat :| FirstOf(h, inside, i) {
      SpanFrom(h, w, max, from, until, k, i);
    } else {
      NoFirst(h, inside);
      WeighNone(h, inside);
      assert 0 <= (k + 1) * max;
    }
  }

  lemma SpanFrom(h: seq<Use>, w: int, max: nat, from: int, until: int, k: nat, i: nat)
    requires Windowed(h, w, max) && w > 0
    requires until <= from + k * w
    requires FirstOf(h, Within(from, until), i)
    ensures Weigh(h, Within(from, until)) <= (k + 1) * max
  {
    var s := h[i].start;
    assert until <= (s + w) + k * w;
    OpenedBound(h, w, max, s + w, until, k);
    WeighSplit(h, Within(from, until), InWindow(s), Opened(s + w, until));
    assert Weigh(h, InWindow(s)) <= max;
    OneMore(k, max);
  }

  lemma OneMore(k: nat, max: nat)
    ensures (k + 1) * max == k * max + max
  {
  }

  /** Any span of one window's length admits at most two windows' worth. */
  lemma TwiceAtMost(h: seq<Use>, w: int, max: nat, from: int)
    requires Windowed(h, w, max) && w > 0
    ensures Weigh(h, Within(from, from + w)) <= 2 * max
  {
    SpanBound(h, w, max, from, from + w, 1);
  }

  // ----- a counter that keeps its history windowed -----

  datatype Window = Closed | Open(start: int, used: int)

  predicate Expired(win: Window, w: int, now: int) {
    win.Closed? || now - win.start >= w
  }

  /** The window counts at least what it has admitted; a closed one has nothing unexpired behind it. */
  ghost predicate Tracks(h: seq<Use>, w: int, max: nat, win: Window, now: int) {
    && w > 0
    && Windowed(h, w, max)
    && (forall i :: 0 <= i < |h| ==> h[i].at <= now)
    && match win
       case Closed => forall i :: 0 <= i < |h| ==> h[i].start + w <= now
       case Open(start, used) =>
         && start <= now
         && (forall i :: 0 <= i < |h| ==> h[i].start == start || h[i].start + w <= start)
         && Weigh(h, InWindow(start)) <= used
  }

  lemma TracksNothing(w: int, max: nat, now: int)
    requires w > 0
    ensures Tracks([], w, max, Closed, now)
  {
    assert forall s :: Weigh([], InWindow(s)) == 0;
  }

  lemma TracksLater(h: seq<Use>, w: int, max: nat, win: Window, now: int, later: int)
    requires Tracks(h, w, max, win, now) && now <= later
    ensures Tracks(h, w, max, win, later)
    ensures Expired(win, w, later) ==> Tracks(h, w, max, Closed, later)
  {
  }

  /** Opening a new window over an expired one admits nothing by itself. */
  lemma TracksOpen(h: seq<Use>, w: int, max: nat, win: Window, now: int)
    requires Tracks(h, w, max, win, now) && Expired(win, w, now)
    ensures Tracks(h, w, max, Open(now, 0), now)
  {
    WeighNone(h, InWindow(now));
  }

  /** Counting without admitting. */
  lemma TracksCharge(h: seq<Use>, w: int, max: nat, win: Window, now: int, more: nat)
    requires Tracks(h, w, max, win, now) && win.Open?
    ensures Tracks(h, w, max, win.(used := win.used + more), now)
  {
  }

  /** Counting and admitting, within the limit. */
  lemma TracksAdmit(h: seq<Use>, w: int, max: nat, win: Window, now: int, weight: nat)
    requires Tracks(h, w, max, win, now) && win.Open? && !Expired(win, w, now)
    requires win.used + weight <= max
    ensures Tracks(h + [Use(now, win.start, weight)], w, max, win.(used := win.used + weight), now)
  {
    var h' := h + [Use(now, win.start, weight)];
    assert h'[..|h|] == h;
    forall s
      ensures Weigh(h', InWindow(s)) <= max
    {
      assert Weigh(h, InWindow(s)) <= max;
    }
  }
}
