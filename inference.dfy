/**
 * The choice between plain prediction and tracking (main.py:58, 102-105 and 139-142).
 * The detector itself is outside the model: a call is described by its arguments only.
 */
module Inference {
  import opened Options
  import opened ModelConfig

  // Labels of the "Select Tracker" radio group (main.py:58).
  const NoTracker: string := "No"
  const TrackerList: seq<string> := ["bytetrack.yaml", "botsort.yaml", NoTracker]

  /** `model.predict(...)`, or `model.track(..., tracker=name)`. */
  datatype Mode = Predict | Track(tracker: string)

  /** The arguments of one detector call: its mode, `conf=` and `persist=`. */
  datatype Call = Call(mode: Mode, confidence: Threshold, persist: bool)

  /**
   * The call made on a frame for the selected tracker label: predict exactly when the
   * label is "No", otherwise track with the label as the tracker configuration; both
   * pass the confidence threshold and persist=True.
   */
  function Dispatch(trackerType: string, confidence: Threshold): (c: Call)
    ensures c.mode.Predict? <==> trackerType == NoTracker
    ensures c.mode.Track? ==> c.mode.tracker == trackerType
    ensures c.confidence == confidence && c.persist
  {
    Call(if trackerType == NoTracker then Predict else Track(trackerType), confidence, true)
  }

  /** The tracker label whose selection produces a mode. */
  function TrackerTypeOf(mode: Mode): string
  {
    match mode
    case Predict => NoTracker
    case Track(name) => name
  }

  /** The label can be read back from the call it selects, so distinct labels give distinct calls. */
  lemma DispatchRoundTrip(trackerType: string, confidence: Threshold)
    ensures TrackerTypeOf(Dispatch(trackerType, confidence).mode) == trackerType
  {
  }

  /** Each of the three radio labels selects the call main.py:102-105 makes for it. */
  lemma DispatchOfTrackerList(confidence: Threshold)
    ensures Dispatch(TrackerList[0], confidence).mode == Track("bytetrack.yaml")
    ensures Dispatch(TrackerList[1], confidence).mode == Track("botsort.yaml")
    ensures Dispatch(TrackerList[2], confidence).mode == Predict
  {
  }

  /**
   * The image branch (main.py:132-142): a detector call happens only when an image was
   * uploaded and Run was pressed, and then it is the frame display's call on that image.
   */
  function ImageRequest<F>(uploaded: Option<F>, runPressed: bool, trackerType: string, confidence: Threshold)
    : (r: Option<(Call, F)>)
    ensures r.Some? <==> uploaded.Some? && runPressed
    ensures r.Some? ==> r.value.1 == uploaded.value
    ensures r.Some? ==> (r.value.0.mode.Predict? <==> trackerType == NoTracker)
    ensures r.Some? ==> r.value.0 == Dispatch(trackerType, confidence)
  {
    if uploaded.Some? && runPressed then Some((Dispatch(trackerType, confidence), uploaded.value)) else None
  }
}
