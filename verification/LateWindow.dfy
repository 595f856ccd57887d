/**
 Fixed-window counting of requests whose instants are read before a lock is taken, so that they are
 counted in another order: an instant may lie behind one that was counted earlier, by at most `late`.
 */
module LateWindow {
  import opened Common
  import opened FixedWindow

  /** A use counted in a later window than another: that window was forgotten in between. */
  predicate Follows(earlier: Use, later: Use, w: int, late: int) {
    earlier.start + w <= later.start + late && earlier.start + w <= later.at + late
  }

  /** Uses in the order in which they were counted; windows admit at most max. */
  ghost predicate LateWindowed(h: seq<Use>, w: int, late: int, max: nat) {
    && (forall i :: 0 <= i < |h| ==> h[i].start <= h[i].at + late && h[i].at < h[i].start + w)
    && (forall i, j :: 0 <= i < j < |h| ==> h[i].start == h[j].start || Follows(h[i], h[j], w, late))
    && (forall s :: Weigh(h, InWindow(s)) <= max)
  }

  /** The window of a counter and the uses it has counted; `front` is the latest instant so far. */
  ghost predicate LateTracks(h: seq<Use>, w: int, late: int, max: nat, win: Window, front: int) {
    && LateWindowed(h, w, late, max)
    && match win
       case Closed => forall i :: 0 <= i < |h| ==> h[i].start + w <= front
       case Open(start, used) =>
         && start <= front < start + w
         && (forall i :: 0 <= i < |h| ==> h[i].start == start || (h[i].start + w <= front && h[i].start + w <= start + late))
         && Weigh(h, InWindow(start)) == used
  }

  lemma LateNothing(w: int, late: int, max: nat, front: int)
    ensures LateTracks([], w, late, max, Closed, front)
  {
    assert forall s :: Weigh([], InWindow(s)) == 0;
  }

  /** Forgetting an expired window. */
  lemma LatePruned(h: seq<Use>, w: int, late: int, max: nat, win: Window, front: int, now: int)
    requires LateTracks(h, w, late, max, win, front)
    ensures LateTracks(h, w, late, max, if Expired(win, w, now) then Closed else win, Max(front, now))
  {
  }

  /** Counting one use, in the open window or in a new one. */
  lemma LateCounted(h: seq<Use>, w: int, late: int, max: nat, win: Window, front: int, now: int, after: Window)
    requires LateTracks(h, w, late, max, win, front) && now <= front <= now + late && late < w && max > 0
    requires win.Open? ==> !Expired(win, w, now) && win.used < max
    requires after == if win.Closed? then Open(now, 1) else win.(used := win.used + 1)
    ensures LateTracks(h + [Use(now, after.start, 1)], w, late, max, after, front)
  {
    var h' := h + [Use(now, after.start, 1)];
    assert h'[..|h|] == h;
    if win.Closed? {
      WeighNone(h, InWindow(now));
    }
    forall s
      ensures Weigh(h', InWindow(s)) <= max
    {
      assert Weigh(h, InWindow(s)) <= max;
    }
  }

  // ----- spans -----

  ghost function WithinNot(from: int, until: int, start: int): Use -> bool {
    (u: Use) => from <= u.at < until && u.start != start
  }

  /** No three windows have uses in a span this short. */
  lemma NoThirdWindow(h: seq<Use>, w: int, late: int, max: nat, from: int, span: int, i: nat, j: nat, k: nat)
    requires LateWindowed(h, w, late, max)
    requires span + 2 * late <= w + 1 && FirstOf(h, Within(from, from + span), i)
    requires FirstOf(h, WithinNot(from, from + span, h[i].start), j)
    requires k < |h| && WithinNot(from, from + span, h[i].start)(h[k])
    ensures h[k].start == h[j].start
  {
    assert i < j <= k;
    assert Follows(h[i], h[j], w, late);
  }

  /** Two windows' worth at most in a span that ends soon enough. */
  lemma LateSpan(h: seq<Use>, w: int, late: int, max: nat, from: int, span: int)
    requires LateWindowed(h, w, late, max)
    requires span + 2 * late <= w + 1
    ensures Weigh(h, Within(from, from + span)) <= 2 * max
  {
    var inside := Within(from, from + span);
    if i: nat :| FirstOf(h, inside, i) {
      LateSpanFrom(h, w, late, max, from, span, i);
    } else {
      NoFirst(h, inside);
      WeighNone(h, inside);
    }
  }

  lemma LateSpanFrom(h: seq<Use>, w: int, late: int, max: nat, from: int, span: int, i: nat)
    requires LateWindowed(h, w, late, max)
    requires span + 2 * late <= w + 1 && FirstOf(h, Within(from, from + span), i)
    ensures Weigh(h, Within(from, from + span)) <= 2 * max
  {
    var inside, other := Within(from, from + span), WithinNot(from, from + span, h[i].start);
    WeighSplit(h, inside, InWindow(h[i].start), other);
    assert Weigh(h, InWindow(h[i].start)) <= max;
    if j: nat :| FirstOf(h, other, j) {
      assert i < j;
      forall k | 0 <= k < |h| && other(h[k])
        ensures InWindow(h[j].start)(h[k])
      {
        NoThirdWindow(h, w, late, max, from, span, i, j, k);
      }
      WeighLess(h, other, InWindow(h[j].start));
      assert Weigh(h, InWindow(h[j].start)) <= max;
    } else {
      NoFirst(h, other);
      WeighNone(h, other);
    }
  }

  lemma {:induction false} WeighLess(h: seq<Use>, some: Use -> bool, more: Use -> bool)
    requires forall i :: 0 <= i < |h| && some(h[i]) ==> more(h[i])
    ensures Weigh(h, some) <= Weigh(h, more)
  {
    if h != [] {
      WeighLess(h[..|h| - 1], some, more);
    }
  }
}
