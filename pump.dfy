/**
 * The frame pump of the video, webcam and RTSP branches (main.py:165-206): while the
 * capture is open, read a frame; hand each frame that was read to the display step
 * (main.py:100-109); on the first failed read release the capture and stop.
 *
 * The capture is an object over the outcomes its reads will have; a read past the last
 * recorded outcome fails, as at the end of a video file.
 */
module FramePump {
  import opened Options
  import opened ModelConfig
  import opened Inference

  /** What `video_capture.read()` returns: (True, image) or (False, None). */
  datatype ReadOutcome<F> = Success(image: F) | Failure

  /** What happens during one run, in order: reads, displays and the release of the capture. */
  datatype RunEvent<F> = ReadEvent(outcome: ReadOutcome<F>) | DisplayEvent(image: F) | ReleaseEvent

  /**
   * The frames the loop hands to the display step: those of the successful reads before
   * the first failed one.
   */
  function Handled<F>(outcomes: seq<ReadOutcome<F>>): seq<F>
  {
    if outcomes == [] || outcomes[0].Failure? then [] else [outcomes[0].image] + Handled(outcomes[1..])
  }

  /**
   * The handled frames are the outcomes' successes in read order, and they stop at the
   * first failure or at the end of the outcomes.
   */
  lemma {:induction false} HandledIsSuccessPrefix<F>(outcomes: seq<ReadOutcome<F>>)
    ensures |Handled(outcomes)| <= |outcomes|
    ensures forall i :: 0 <= i < |Handled(outcomes)| ==> outcomes[i] == Success(Handled(outcomes)[i])
    ensures |Handled(outcomes)| < |outcomes| ==> outcomes[|Handled(outcomes)|].Failure?
  {
    if outcomes != [] && outcomes[0].Success? {
      HandledIsSuccessPrefix(outcomes[1..]);
    }
  }

  /**
   * The events of a run on a capture that is open when the loop starts: each successful
   * read followed by the display of its frame, then the failed read and the release.
   */
  function PumpTrace<F>(outcomes: seq<ReadOutcome<F>>): seq<RunEvent<F>>
  {
    if outcomes == [] || outcomes[0].Failure? then [ReadEvent(Failure), ReleaseEvent]
    else [ReadEvent(outcomes[0]), DisplayEvent(outcomes[0].image)] + PumpTrace(outcomes[1..])
  }

  /** The outcomes still unread when the loop stops on an open capture. */
  function Remaining<F>(outcomes: seq<ReadOutcome<F>>): seq<ReadOutcome<F>>
  {
    if outcomes == [] then [] else if outcomes[0].Failure? then outcomes[1..] else Remaining(outcomes[1..])
  }

  /** The loop leaves unread exactly the outcomes after the first failure. */
  lemma {:induction false} RemainingAfterFirstFailure<F>(outcomes: seq<ReadOutcome<F>>)
    ensures |Handled(outcomes)| < |outcomes| ==> Remaining(outcomes) == outcomes[|Handled(outcomes)| + 1..]
    ensures |Handled(outcomes)| == |outcomes| ==> Remaining(outcomes) == []
  {
    if outcomes != [] && outcomes[0].Success? {
      RemainingAfterFirstFailure(outcomes[1..]);
      HandledIsSuccessPrefix(outcomes[1..]);
      var k := |Handled(outcomes[1..])|;
      assert |Handled(outcomes)| == k + 1;
      if k < |outcomes| - 1 {
        assert outcomes[1..][k + 1..] == outcomes[k + 2..];
      }
    }
  }

  /** Each frame's successful read, immediately followed by its display, in order. */
  function StepsOf<F>(frames: seq<F>): seq<RunEvent<F>>
  {
    if frames == [] then [] else [ReadEvent(Success(frames[0])), DisplayEvent(frames[0])] + StepsOf(frames[1..])
  }

  /** A successful read moves one frame from the pending outcomes to the handled ones. */
  lemma {:induction false} PumpStep<F>(outcomes: seq<ReadOutcome<F>>, done: seq<F>, pending: seq<ReadOutcome<F>>)
    requires pending != [] && pending[0].Success?
    requires Handled(outcomes) == done + Handled(pending)
    ensures Handled(outcomes) == (done + [pending[0].image]) + Handled(pending[1..])
    ensures PumpTrace(pending) == [ReadEvent(pending[0]), DisplayEvent(pending[0].image)] + PumpTrace(pending[1..])
    ensures Remaining(pending) == Remaining(pending[1..])
  {
    assert Handled(pending) == [pending[0].image] + Handled(pending[1..]);
  }

  /** A failed read ends the handled frames and is followed by the release. */
  lemma {:induction false} PumpStop<F>(outcomes: seq<ReadOutcome<F>>, done: seq<F>, pending: seq<ReadOutcome<F>>)
    requires pending == [] || pending[0].Failure?
    requires Handled(outcomes) == done + Handled(pending)
    ensures Handled(outcomes) == done
    ensures PumpTrace(pending) == [ReadEvent(Failure), ReleaseEvent]
    ensures Remaining(pending) == if pending == [] then [] else pending[1..]
  {
  }

  /** Event 2i is the successful read of frame i and event 2i+1 its display. */
  lemma {:induction false} StepsOfAt<F>(frames: seq<F>)
    ensures |StepsOf(frames)| == 2 * |frames|
    ensures forall i :: 0 <= i < |frames| ==>
      StepsOf(frames)[2 * i] == ReadEvent(Success(frames[i])) && StepsOf(frames)[2 * i + 1] == DisplayEvent(frames[i])
  {
    if frames != [] {
      StepsOfAt(frames[1..]);
      forall i | 1 <= i < |frames|
        ensures StepsOf(frames)[2 * i] == ReadEvent(Success(frames[i]))
        ensures StepsOf(frames)[2 * i + 1] == DisplayEvent(frames[i])
      {
        assert StepsOf(frames)[2 * i] == StepsOf(frames[1..])[2 * (i - 1)];
        assert StepsOf(frames)[2 * i + 1] == StepsOf(frames[1..])[2 * (i - 1) + 1];
      }
    }
  }

  /**
   * The handled frames are determined by their defining property: successes in read order
   * up to the first failure (or to the end of the outcomes).
   */
  lemma {:induction false} HandledCharacterized<F>(outcomes: seq<ReadOutcome<F>>, frames: seq<F>)
    requires |frames| <= |outcomes|
    requires forall i :: 0 <= i < |frames| ==> outcomes[i] == Success(frames[i])
    requires |frames| < |outcomes| ==> outcomes[|frames|].Failure?
    ensures frames == Handled(outcomes)
  {
    if frames != [] {
      assert outcomes[0] == Success(frames[0]);
      assert forall i :: 0 <= i < |frames| - 1 ==> outcomes[1..][i] == outcomes[i + 1];
      HandledCharacterized(outcomes[1..], frames[1..]);
    }
  }

  /**
   * The loop reads and displays every handled frame in lock-step, then makes exactly one
   * failed read, then releases the capture.
   */
  lemma {:induction false} PumpTraceShape<F>(outcomes: seq<ReadOutcome<F>>)
    ensures PumpTrace(outcomes) == StepsOf(Handled(outcomes)) + [ReadEvent(Failure), ReleaseEvent]
  {
    if outcomes != [] && outcomes[0].Success? {
      PumpTraceShape(outcomes[1..]);
      var f := outcomes[0].image;
      assert Handled(outcomes) == [f] + Handled(outcomes[1..]);
      assert StepsOf(Handled(outcomes)) == [ReadEvent(Success(f)), DisplayEvent(f)] + StepsOf(Handled(outcomes[1..]));
    }
  }

  /**
   * The run alternates the read of frame i (event 2i) with its display (event 2i+1), so
   * each frame is displayed before the next read and one frame at most is in flight; then
   * comes the one failed read and, last and exactly once, the release, after the last
   * display. There are |Handled| + 1 reads and none after the release.
   */
  lemma ReleaseOnceAfterFirstFailure<F>(outcomes: seq<ReadOutcome<F>>)
    ensures var t, h := PumpTrace(outcomes), Handled(outcomes);
      && |t| == 2 * |h| + 2
      && (forall i :: 0 <= i < |h| ==> t[2 * i] == ReadEvent(Success(h[i])) && t[2 * i + 1] == DisplayEvent(h[i]))
      && t[|t| - 2] == ReadEvent(Failure)
      && t[|t| - 1] == ReleaseEvent
      && (forall i :: 0 <= i < |t| - 1 ==> t[i] != ReleaseEvent)
  {
    PumpTraceShape(outcomes);
    var h := Handled(outcomes);
    StepsOfAt(h);
    var t := PumpTrace(outcomes);
    forall i | 0 <= i < |t| - 1 ensures t[i] != ReleaseEvent {
      if i < 2 * |h| {
        assert t[i] == StepsOf(h)[i];
        assert t[i] == StepsOf(h)[2 * (i / 2) + i % 2];
      }
    }
  }

  /** The log of one run: every read, display and release, in the order they happen. */
  class Trace<F> {
    var events: seq<RunEvent<F>>

    constructor ()
      ensures events == []
    {
      events := [];
    }
  }

  /**
   * The capture behind `cv2.VideoCapture(...)`: whether it is open and the outcomes its
   * next reads will have. Its reads and its release go to the run's `log`.
   */
  class Capture<F> {
    var isOpen: bool
    var pending: seq<ReadOutcome<F>>
    const log: Trace<F>

    /** A capture that did or did not open, whose reads will have the given outcomes. */
    constructor (opens: bool, outcomes: seq<ReadOutcome<F>>, log: Trace<F>)
      ensures isOpen == opens && pending == outcomes && this.log == log
    {
      isOpen := opens;
      pending := outcomes;
      this.log := log;
    }

    /**
     * `read()`: the next outcome while open and one is left, otherwise a failure; a
     * failed read does not close the capture.
     */
    method Read() returns (r: ReadOutcome<F>)
      modifies this, log
      ensures r == if old(isOpen) && old(pending) != [] then old(pending)[0] else Failure
      ensures pending == if old(isOpen) && old(pending) != [] then old(pending)[1..] else old(pending)
      ensures isOpen == old(isOpen)
      ensures log.events == old(log.events) + [ReadEvent(r)]
    {
      if isOpen && pending != [] {
        r := pending[0];
        pending := pending[1..];
      } else {
        r := Failure;
      }
      log.events := log.events + [ReadEvent(r)];
    }

    /** `release()`: closes the capture. */
    method Release()
      modifies this, log
      ensures !isOpen && pending == old(pending)
      ensures log.events == old(log.events) + [ReleaseEvent]
    {
      isOpen := false;
      log.events := log.events + [ReleaseEvent];
    }
  }

  /**
   * The `st.empty()` slot the results are drawn into: it shows only the latest image;
   * `handled` records the frames handed to the display step, in order, and each display
   * also goes to the run's `log`.
   */
  class Slot<F> {
    var current: Option<F>
    var handled: seq<F>
    const log: Trace<F>

    constructor (log: Trace<F>)
      ensures current == None && handled == [] && this.log == log
    {
      current := None;
      handled := [];
      this.log := log;
    }
  }

  /**
   * `display_result_frames`: runs the selected detector call on the frame and replaces the
   * slot's image with the plotted result. `plot(call, frames)` is the image plotted for the
   * last of `frames`, the frames of this run so far: with `persist=True` a tracker's
   * identities on one frame depend on the frames it saw before.
   */
  method DisplayResultFrames<F>(slot: Slot<F>, image: F, trackerType: string, confidence: Threshold,
                                plot: (Call, seq<F>) -> F)
    modifies slot, slot.log
    ensures slot.handled == old(slot.handled) + [image]
    ensures slot.current == Some(plot(Dispatch(trackerType, confidence), old(slot.handled) + [image]))
    ensures slot.log.events == old(slot.log.events) + [DisplayEvent(image)]
  {
    slot.handled := slot.handled + [image];
    slot.current := Some(plot(Dispatch(trackerType, confidence), slot.handled));
    slot.log.events := slot.log.events + [DisplayEvent(image)];
  }

  /**
   * The `while video_capture.isOpened()` loop. On an open capture it hands the frames of
   * Handled to the display step, leaves the run events of PumpTrace (read, display, read,
   * display, ..., failed read, release) and ends released; on a capture that did not open
   * it reads, displays and releases nothing.
   */
  method PumpFrames<F>(capture: Capture<F>, slot: Slot<F>, trackerType: string, confidence: Threshold,
                       plot: (Call, seq<F>) -> F)
    requires slot.log == capture.log
    modifies capture, slot, capture.log
    ensures !capture.isOpen
    ensures old(capture.isOpen) ==>
      && capture.log.events == old(capture.log.events) + PumpTrace(old(capture.pending))
      && capture.pending == Remaining(old(capture.pending))
      && slot.handled == old(slot.handled) + Handled(old(capture.pending))
      && slot.current == Shown(old(slot.current), Dispatch(trackerType, confidence), plot, old(slot.handled), Handled(old(capture.pending)))
    ensures !old(capture.isOpen) ==>
      && capture.log.events == old(capture.log.events) && capture.pending == old(capture.pending)
      && slot.handled == old(slot.handled) && slot.current == old(slot.current)
  {
    ghost var outcomes := capture.pending;
    ghost var done: seq<F> := [];
    while capture.isOpen
      invariant capture.isOpen == old(capture.isOpen)
      invariant !capture.isOpen ==> done == [] && capture.log.events == old(capture.log.events) && capture.pending == outcomes
      invariant Remaining(outcomes) == Remaining(capture.pending)
      invariant Handled(outcomes) == done + Handled(capture.pending)
      invariant capture.log.events + PumpTrace(capture.pending) == old(capture.log.events) + PumpTrace(outcomes)
      invariant slot.handled == old(slot.handled) + done
      invariant slot.current == Shown(old(slot.current), Dispatch(trackerType, confidence), plot, old(slot.handled), done)
      decreases |capture.pending|
    {
      ghost var pending := capture.pending;
      var r := capture.Read();
      if r.Success? {
        PumpStep(outcomes, done, pending);
        DisplayResultFrames(slot, r.image, trackerType, confidence, plot);
        done := done + [r.image];
      } else {
        PumpStop(outcomes, done, pending);
        capture.Release();
        break;
      }
    }
  }

  /**
   * What the slot shows after `frames` were displayed following `earlier`: unchanged from
   * `previous` when there are none, otherwise the plot for the whole history.
   */
  function Shown<F>(previous: Option<F>, call: Call, plot: (Call, seq<F>) -> F, earlier: seq<F>, frames: seq<F>)
    : Option<F>
  {
    if frames == [] then previous else Some(plot(call, earlier + frames))
  }

  /** The three streaming sources (main.py:154-206). */
  datatype Source = VideoFile(path: string) | Webcam(index: nat) | Rtsp(url: string)

  /**
   * One press of Run on a streaming source: open the capture, pump its frames into a fresh
   * slot, with one log for the run. `opens` and `outcomes` stand for what OpenCV does with
   * the source. The video, webcam and RTSP branches (main.py:170-176, 185-191, 200-206) are
   * the same loop text, so one method stands for all three; `source` only names which
   * branch ran.
   */
  method RunStream<F>(source: Source, opens: bool, outcomes: seq<ReadOutcome<F>>, trackerType: string,
                      confidence: Threshold, plot: (Call, seq<F>) -> F)
    returns (shown: Option<F>, handled: seq<F>, events: seq<RunEvent<F>>)
    ensures handled == if opens then Handled(outcomes) else []
    ensures events == if opens then PumpTrace(outcomes) else []
    ensures shown == if handled == [] then None else Some(plot(Dispatch(trackerType, confidence), handled))
  {
    var log := new Trace();
    var capture := new Capture(opens, outcomes, log);
    var slot := new Slot(log);
    PumpFrames(capture, slot, trackerType, confidence, plot);
    shown, handled, events := slot.current, slot.handled, log.events;
  }
}
