/**
 * The playback scheduler's clock arithmetic: a cursor on the output device's
 * clock, advanced by each audio chunk's duration, and never behind "now".
 */
module Playback {

  /** A span of time on the output clock, in seconds. */
  type Seconds = r: real | r >= 0.0

  /** An abstract handle of one scheduled buffer source. */
  type SourceId = nat

  function Max(a: real, b: real): (r: real)
    ensures r >= a && r >= b
    ensures r == a || r == b
  {
    if a >= b then a else b
  }

  /** Where a chunk handed over at clock time `now` starts: the cursor, or "now" if the cursor has fallen behind. */
  function StartOf(cursor: real, now: real): (start: real)
    ensures start >= now && start >= cursor
    ensures now > cursor ==> start == now
    ensures now <= cursor ==> start == cursor
  {
    Max(cursor, now)
  }

  /** The cursor after scheduling a chunk of duration `d`. */
  function Advance(cursor: real, now: real, d: Seconds): real
  {
    StartOf(cursor, now) + d
  }

  function Sum(ds: seq<Seconds>): (total: real)
    ensures total >= 0.0
  {
    if ds == [] then 0.0 else ds[0] + Sum(ds[1..])
  }

  /** The start times of chunks `ds`, scheduled one after another with the clock held at `now`. */
  function Starts(cursor: real, now: real, ds: seq<Seconds>): (r: seq<real>)
    ensures |r| == |ds|
    decreases |ds|
  {
    if ds == [] then [] else [StartOf(cursor, now)] + Starts(Advance(cursor, now, ds[0]), now, ds[1..])
  }

  /** The cursor after scheduling chunks `ds` one after another with the clock held at `now`. */
  function Cursor(cursor: real, now: real, ds: seq<Seconds>): real
    decreases |ds|
  {
    if ds == [] then cursor else Cursor(Advance(cursor, now, ds[0]), now, ds[1..])
  }

  /** Chunk i starts at max(cursor, now) plus the durations of the chunks before it. */
  lemma {:induction false} StartsFromBase(cursor: real, now: real, ds: seq<Seconds>, i: nat)
    requires i < |ds|
    ensures Starts(cursor, now, ds)[i] == StartOf(cursor, now) + Sum(ds[..i])
    decreases |ds|
  {
    if i > 0 {
      var next := Advance(cursor, now, ds[0]);
      StartsFromBase(next, now, ds[1..], i - 1);
      assert StartOf(next, now) == next;
      assert ds[..i][1..] == ds[1..][..i - 1];
    }
  }

  /** Each chunk ends exactly where the next one starts: no gap and no overlap. */
  lemma {:induction false} Gapless(cursor: real, now: real, ds: seq<Seconds>, i: nat)
    requires i + 1 < |ds|
    ensures Starts(cursor, now, ds)[i] + ds[i] == Starts(cursor, now, ds)[i + 1]
    decreases |ds|
  {
    var next := Advance(cursor, now, ds[0]);
    if i > 0 {
      Gapless(next, now, ds[1..], i - 1);
    } else {
      assert Starts(next, now, ds[1..])[0] == StartOf(next, now) == next;
    }
  }

  /** A chunk never starts before an earlier chunk has ended. */
  lemma {:induction false} NoOverlap(cursor: real, now: real, ds: seq<Seconds>, i: nat, j: nat)
    requires i < j < |ds|
    ensures Starts(cursor, now, ds)[i] + ds[i] <= Starts(cursor, now, ds)[j]
    decreases j
  {
    Gapless(cursor, now, ds, j - 1);
    if i < j - 1 {
      NoOverlap(cursor, now, ds, i, j - 1);
    }
  }

  /** After a non-empty run the cursor is max(cursor, now) plus all durations; after none it is untouched. */
  lemma {:induction false} CursorAfter(cursor: real, now: real, ds: seq<Seconds>)
    ensures ds == [] ==> Cursor(cursor, now, ds) == cursor
    ensures ds != [] ==> Cursor(cursor, now, ds) == StartOf(cursor, now) + Sum(ds)
    decreases |ds|
  {
    if ds != [] {
      var next := Advance(cursor, now, ds[0]);
      CursorAfter(next, now, ds[1..]);
      assert ds[1..] != [] ==> StartOf(next, now) == next;
    }
  }

  // ---- The scheduler's state ----

  /**
   * The cursor, the set of live sources, the sources on which stop() has been
   * called, and the number of sources ever created (so that a new id is fresh).
   */
  datatype Scheduler = Scheduler(nextStart: real, active: set<SourceId>, stopped: set<SourceId>, issued: nat)

  /** Every id handed out is below `issued`, and no live source has been stopped. */
  ghost predicate WellFormed(p: Scheduler) {
    && (forall id :: id in p.active ==> id < p.issued)
    && (forall id :: id in p.stopped ==> id < p.issued)
    && p.active !! p.stopped
  }

  /** Schedule a chunk of duration `d` handed over at clock time `now`, as a new live source. */
  function Enqueue(p: Scheduler, d: Seconds, now: real): Scheduler {
    Scheduler(Advance(p.nextStart, now, d), p.active + {p.issued}, p.stopped, p.issued + 1)
  }

  /** Stop every live source, forget them all and rewind the cursor. */
  function Flush(p: Scheduler): Scheduler {
    Scheduler(0.0, {}, p.stopped + p.active, p.issued)
  }

  /** A source's playback ended. */
  function Remove(p: Scheduler, id: SourceId): Scheduler {
    p.(active := p.active - {id})
  }

  lemma EnqueueFresh(p: Scheduler, d: Seconds, now: real)
    requires WellFormed(p)
    ensures WellFormed(Enqueue(p, d, now))
    ensures p.issued !in p.active && |Enqueue(p, d, now).active| == |p.active| + 1
  {
  }
}

