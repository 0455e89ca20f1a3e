/**
 * The single-slot hand-off both camera drivers place between their background reader
 * and their `async_read`: the reader overwrites the latest frame and sets a new-frame
 * flag; a consumer waits for the flag and takes the latest frame. The FFmpeg driver
 * clears the flag when it takes a frame; the Orbbec driver never clears it.
 *
 * The concurrent reader and consumer are modelled as one interleaved sequence of
 * events: `Put(f)` is one publication by the reader, `Get` one consumer call.
 */
module FrameMailbox {
  import opened Wrappers

  /** The latest frame (`latest_frame`) and the new-frame flag (`new_frame_event`). */
  datatype Slot<F> = Slot(latest: Option<F>, raised: bool)

  /** The flag is only ever set together with a frame. */
  predicate Consistent<F>(s: Slot<F>) {
    s.raised ==> s.latest.Some?
  }

  datatype Event<F> = Put(frame: F) | Get

  /** What an event produced. `NoNewFrame` is a timeout for FFmpeg and an endless wait for Orbbec. */
  datatype Outcome<F> = Stored | Got(frame: F) | NoNewFrame | MissingFrame

  /** The reader's publication: overwrite the slot and raise the flag. */
  function Publish<F>(s: Slot<F>, f: F): (t: Slot<F>)
    ensures t.latest == Some(f) && t.raised && Consistent(t)
  {
    Slot(Some(f), true)
  }

  /** One consumer call; `clears` says whether taking a frame lowers the flag. */
  function Consume<F>(s: Slot<F>, clears: bool): (r: (Outcome<F>, Slot<F>))
    ensures !s.raised ==> r.0 == NoNewFrame && r.1 == s
    ensures s.raised && s.latest.Some? ==> r.0 == Got(s.latest.value)
    ensures r.1.latest == s.latest
    ensures r.1.raised == (s.raised && !clears)
  {
    if !s.raised then (NoNewFrame, s)
    else
      var out := if s.latest.Some? then Got(s.latest.value) else MissingFrame;
      (out, Slot(s.latest, !clears))
  }

  function StepState<F>(s: Slot<F>, e: Event<F>, clears: bool): Slot<F> {
    match e
    case Put(f) => Publish(s, f)
    case Get => Consume(s, clears).1
  }

  function StepOutcome<F>(s: Slot<F>, e: Event<F>, clears: bool): Outcome<F> {
    match e
    case Put(_) => Stored
    case Get => Consume(s, clears).0
  }

  /** The slot after a sequence of events. */
  function After<F>(s: Slot<F>, events: seq<Event<F>>, clears: bool): Slot<F>
  {
    if events == [] then s
    else StepState(After(s, events[..|events| - 1], clears), events[|events| - 1], clears)
  }

  /** The outcome of every event of a sequence, position by position. */
  function Run<F>(s: Slot<F>, events: seq<Event<F>>, clears: bool): (out: seq<Outcome<F>>)
    ensures |out| == |events|
  {
    if events == [] then []
    else
      var prefix := events[..|events| - 1];
      Run(s, prefix, clears) + [StepOutcome(After(s, prefix, clears), events[|events| - 1], clears)]
  }

  /** The frame of the last `Put` of a sequence. */
  function LastPut<F>(events: seq<Event<F>>): Option<F>
  {
    if events == [] then None
    else if events[|events| - 1].Put? then Some(events[|events| - 1].frame)
    else LastPut(events[..|events| - 1])
  }

  function CountGot<F>(out: seq<Outcome<F>>): nat {
    if out == [] then 0 else CountGot(out[..|out| - 1]) + (if out[|out| - 1].Got? then 1 else 0)
  }

  function CountPut<F>(events: seq<Event<F>>): nat {
    if events == [] then 0 else CountPut(events[..|events| - 1]) + (if events[|events| - 1].Put? then 1 else 0)
  }

  /** Every event is judged against the slot that the events before it left. */
  lemma {:induction false} RunAt<F>(s: Slot<F>, events: seq<Event<F>>, clears: bool, i: int)
    requires 0 <= i < |events|
    ensures Run(s, events, clears)[i] == StepOutcome(After(s, events[..i], clears), events[i], clears)
    decreases |events|
  {
    var n := |events|;
    if i < n - 1 {
      var prefix := events[..n - 1];
      RunAt(s, prefix, clears, i);
      assert prefix[..i] == events[..i];
    } else {
      assert events[..n - 1] == events[..i];
    }
  }

  /** The slot always holds the most recently published frame, if any was published. */
  lemma {:induction false} LatestIsLastPut<F>(s: Slot<F>, events: seq<Event<F>>, clears: bool)
    ensures After(s, events, clears).latest == (if LastPut(events).Some? then LastPut(events) else s.latest)
    decreases |events|
  {
    if events != [] {
      LatestIsLastPut(s, events[..|events| - 1], clears);
    }
  }

  /** Consistency is kept by every event. */
  lemma {:induction false} AfterConsistent<F>(s: Slot<F>, events: seq<Event<F>>, clears: bool)
    requires Consistent(s)
    ensures Consistent(After(s, events, clears))
    decreases |events|
  {
    if events != [] {
      AfterConsistent(s, events[..|events| - 1], clears);
    }
  }

  /** A consumer that gets a frame gets the most recently published one. */
  lemma GotIsLatest<F>(s: Slot<F>, events: seq<Event<F>>, clears: bool, i: int)
    requires 0 <= i < |events|
    requires Run(s, events, clears)[i].Got?
    ensures Some(Run(s, events, clears)[i].frame)
      == (if LastPut(events[..i]).Some? then LastPut(events[..i]) else s.latest)
  {
    RunAt(s, events, clears, i);
    LatestIsLastPut(s, events[..i], clears);
  }

  /** From a consistent slot a consumer never finds the flag up without a frame. */
  lemma NeverMissing<F>(s: Slot<F>, events: seq<Event<F>>, clears: bool, i: int)
    requires Consistent(s) && 0 <= i < |events|
    ensures Run(s, events, clears)[i] != MissingFrame
  {
    RunAt(s, events, clears, i);
    AfterConsistent(s, events[..i], clears);
  }

  /** Without a publication, a slot whose flag is down stays down. */
  lemma {:induction false} NoPutKeepsFlagDown<F>(s: Slot<F>, events: seq<Event<F>>, clears: bool)
    requires !s.raised
    requires forall k :: 0 <= k < |events| ==> events[k] == Get
    ensures After(s, events, clears) == s
    decreases |events|
  {
    if events != [] {
      NoPutKeepsFlagDown(s, events[..|events| - 1], clears);
    }
  }

  /**
   * Clearing mailbox: after a consumer got a frame, every later call finds no new frame
   * until the reader publishes again.
   */
  lemma TakeThenNothingNew<F>(s: Slot<F>, events: seq<Event<F>>, i: int, j: int)
    requires 0 <= i < j < |events|
    requires Run(s, events, true)[i].Got?
    requires forall k :: i < k <= j ==> events[k] == Get
    ensures Run(s, events, true)[j] == NoNewFrame
  {
    RunAt(s, events, true, i);
    RunAt(s, events, true, j);
    var mid := After(s, events[..i + 1], true);
    assert events[..i + 1][..i] == events[..i];
    assert !mid.raised;
    var gap := events[i + 1..j];
    NoPutKeepsFlagDown(mid, gap, true);
    AfterConcat(s, events[..i + 1], gap, true);
    assert events[..i + 1] + gap == events[..j];
  }

  /** Running two sequences one after the other is running their concatenation. */
  lemma {:induction false} AfterConcat<F>(s: Slot<F>, a: seq<Event<F>>, b: seq<Event<F>>, clears: bool)
    ensures After(s, a + b, clears) == After(After(s, a, clears), b, clears)
    decreases |b|
  {
    if b == [] {
      assert a + b == a;
    } else {
      var n := |b|;
      AfterConcat(s, a, b[..n - 1], clears);
      assert (a + b)[..|a + b| - 1] == a + b[..n - 1];
    }
  }

  /** Clearing mailbox: consumers get at most one frame per publication (plus a pending one). */
  lemma {:induction false} GotsBoundedByPuts<F>(s: Slot<F>, events: seq<Event<F>>)
    ensures CountGot(Run(s, events, true)) + (if After(s, events, true).raised then 1 else 0)
      <= CountPut(events) + (if s.raised then 1 else 0)
    decreases |events|
  {
    if events != [] {
      var n := |events|;
      var prefix := events[..n - 1];
      GotsBoundedByPuts(s, prefix);
      var out := Run(s, events, true);
      assert out[..n - 1] == Run(s, prefix, true);
    }
  }

  /**
   * Non-clearing mailbox: once anything was published, every consumer call returns the
   * most recent publication at once.
   */
  lemma {:induction false} FlagStaysUp<F>(s: Slot<F>, events: seq<Event<F>>)
    requires s.raised || exists k :: 0 <= k < |events| && events[k].Put?
    ensures After(s, events, false).raised
    decreases |events|
  {
    var n := |events|;
    if n > 0 {
      if !events[n - 1].Put? {
        var prefix := events[..n - 1];
        if !s.raised {
          var k :| 0 <= k < n && events[k].Put?;
          assert prefix[k] == events[k];
        }
        FlagStaysUp(s, prefix);
      }
    }
  }

  lemma PeekAfterPublish<F>(s: Slot<F>, events: seq<Event<F>>, i: int, k: int)
    requires 0 <= k < i < |events|
    requires events[k].Put? && events[i] == Get
    ensures LastPut(events[..i]).Some? && Run(s, events, false)[i] == Got(LastPut(events[..i]).value)
  {
    RunAt(s, events, false, i);
    assert events[..i][k] == events[k];
    FlagStaysUp(s, events[..i]);
    LatestIsLastPut(s, events[..i], false);
    LastPutExists(events[..i], k);
  }

  lemma {:induction false} LastPutExists<F>(events: seq<Event<F>>, k: int)
    requires 0 <= k < |events| && events[k].Put?
    ensures LastPut(events).Some?
    decreases |events|
  {
    var n := |events|;
    if k < n - 1 && !events[n - 1].Put? {
      assert events[..n - 1][k] == events[k];
      LastPutExists(events[..n - 1], k);
    }
  }
}
