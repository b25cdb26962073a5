# Visionoscope Workbench: model-selection settings and the frame pump

Visionoscope Workbench is a Streamlit dashboard that runs pretrained YOLOv8 detection,
segmentation and pose models over an uploaded image, a video file, a webcam or an RTSP
stream, and shows the annotated frames. Almost all of `main.py` is widget layout and
calls into Ultralytics, OpenCV and PIL. This project models the two parts that are the
dashboard's own logic:

- **Model settings** (module `ModelConfig`, file `config.dfy`; module `Inference`, file
  `inference.dfy`). The "Select Model" radio label picks a task suffix (`""`, `"-seg"`,
  `"-pose"`). The "Select Model Weight" label picks a size letter (`n s m l x`). The
  weights path is `<model directory> + "/yolov8" + letter + suffix + ".pt"`. The confidence
  slider (25..100, default 40) is divided by 100. The tracker label `"No"` selects
  `model.predict`; any other label selects `model.track` with that label as the tracker
  configuration. Both calls pass the threshold and `persist=True`. All of this is pure
  and is written as functions. A parser, `ParseModelPath`, reads a path back into its
  labels. The two round-trip lemmas make path building a bijection between the valid
  selections and the paths that parse, and distinct selections give distinct paths.
- **Frame pump** (module `FramePump`, file `pump.dfy`). The video, webcam and RTSP branches
  all run the same loop. While the capture is open it reads a frame. A frame that was read
  goes to `display_result_frames`, which runs the detector call and replaces the image in
  the single `st.empty()` slot. The first failed read releases the capture and leaves the
  loop. The capture is the class `Capture`. It holds the open flag, the outcomes its next
  reads will have. The display slot is the class `Slot`. It holds the image shown now and
  the frames handed to the display step, in order. Both share one run log, the class
  `Trace`: every read, every display and the release are appended to it in the order they
  happen. `PumpFrames` keeps the `while` loop. Its postcondition ties the new state to the
  functions `Handled` (the frames displayed), `PumpTrace` (the run's events) and
  `Remaining` (the outcomes left unread). The lemmas about those functions state the
  promised behaviour. The displayed frames are exactly the successful reads before the
  first failure, in order. Each frame is displayed right after it is read and before the
  next read. There is exactly one failed read, after the last display, and release comes
  right after it, as the last event. A capture that never opened is neither read nor
  released. `RunStream` is one press of Run on a streaming source. Its result depends only
  on the capture's behaviour and not on the kind of source, so the three copies of the
  loop in `main.py` behave alike.

The detector and the plotting are opaque. `plot: (Call, seq<F>) -> F` gives the image
plotted for the last frame of a run, from the call's arguments (`Call`) and all frames of
that run so far. It takes the whole history because `model.track(..., persist=True)` keeps
tracker state between the frames of one run, so the identities drawn on a frame depend on
the frames before it. Frames are a type parameter `F`. Reading past the last recorded
outcome fails, as OpenCV does at the end of a file. A read on a closed capture also fails.
The model directory (`settings.MODEL_DIRECTORY`) is a string parameter.

Notes on what `main.py` does, which the model follows:

- The read loop has no cancellation check; it stops only at a failed read or at an
  exception (exceptions are left out).
- The image branch passes `persist=True` to `predict` as well as to `track`.
- When a suffix chain takes its error branch, the error message is shown, and line 85 then
  fails with a NameError because the suffix variable was never assigned. `ModelPath`
  models this as `Failed(errors)`, with each message at most once, in display order, and
  no path.

## Model

| member | source | states |
|---|---|---|
| `ModelConfig.ModelSuffix` | main.py:61-68 | a task suffix is set exactly for the three task labels, and it is one of `""`, `"-seg"`, `"-pose"` |
| `ModelConfig.WeightSuffix` | main.py:71-82 | a size letter is set exactly for the five size labels, and it is one of `n s m l x` |
| `ModelConfig.ModelSuffixBijective` | main.py:61-66 | the task table maps Object Detection, Object Segmentation and Pose Detection one-to-one onto `""`, `"-seg"`, `"-pose"` (both directions) |
| `ModelConfig.WeightSuffixBijective` | main.py:71-80 | the size table maps Nano, Small, Medium, Large and Extra Large one-to-one onto `n s m l x` (both directions) |
| `ModelConfig.ModelPath` | main.py:60-85 | a path is built if and only if both labels are known; otherwise exactly the messages of the chains that failed are reported, one each, task error first, with no path |
| `ModelConfig.ParseModelPathOfBuilt` | main.py:85 | every built path parses back to the (task, size) labels it was built from |
| `ModelConfig.BuiltOfParseModelPath` | main.py:85 | every path under the directory that parses is exactly the path built from the labels it parses to |
| `ModelConfig.ModelPathInjective` | main.py:85 | distinct (task, size) selections give distinct weights paths |
| `ModelConfig.ModelPathShape` | main.py:85 | a built path starts with the model directory and `/yolov8`, then a size letter, and ends in `.pt` |
| `ModelConfig.Confidence` | main.py:55 | a slider value in 25..100 gives a threshold of that many hundredths (the division by 100), which lies between 0.25 and 1.0 |
| `ModelConfig.ConfidenceDefaults` | main.py:55 | the default slider value 40 gives 0.40; the ends 25 and 100 give 0.25 and 1.00 |
| `Inference.Dispatch` | main.py:102-105 | `predict` exactly when the tracker label is `"No"`, otherwise `track` with the label as tracker; both get the threshold and `persist=True` |
| `Inference.DispatchRoundTrip` | main.py:102-105 | the tracker label is recoverable from the call it selects, so distinct labels give distinct calls |
| `Inference.DispatchOfTrackerList` | main.py:58 | the three radio labels select bytetrack tracking, botsort tracking and plain prediction |
| `Inference.ImageRequest` | main.py:132-142 | the image branch makes one detector call exactly when an image is uploaded and Run is pressed, on that image, with the call `Dispatch` gives (mode, tracker name, `conf`, `persist=True`) |
| `FramePump.HandledIsSuccessPrefix` | main.py:170-173 | the displayed frames are the images of the first successful reads, in read order, stopping at the first failure or at the end |
| `FramePump.HandledCharacterized` | main.py:170-173 | any frame sequence with that prefix property is exactly the displayed one |
| `FramePump.StepsOfAt` | main.py:170-173 | the events for the displayed frames are twice as many as the frames, alternating read of frame i and display of frame i |
| `FramePump.PumpTraceShape` | main.py:170-176 | the run's events are, for each displayed frame, its successful read followed at once by its display; then one failed read, then release |
| `FramePump.ReleaseOnceAfterFirstFailure` | main.py:170-176 | the run has 2·frames+2 events: event 2i is the read of frame i and event 2i+1 its display, so every display comes before the next read; the failed read comes after the last display; release happens once, last, right after the failed read |
| `FramePump.RemainingAfterFirstFailure` | main.py:170-176 | the outcomes after the first failed read stay unread |
| `FramePump.Capture.constructor` | main.py:167-168 | a capture starts open or not, with the given future read outcomes, logging to the run's log |
| `FramePump.Capture.Read` | main.py:171 | gives the next outcome while open and one is left, otherwise a failure; appends the read to the run's log; does not change the open flag |
| `FramePump.Capture.Release` | main.py:175 | closes the capture and appends the release to the run's log |
| `FramePump.Trace.constructor` | main.py:165-206 | a run starts with an empty log |
| `FramePump.Slot.constructor` | main.py:169 | an empty display slot, logging to the run's log |
| `FramePump.DisplayResultFrames` | main.py:100-109 | records the frame as handled and replaces the slot's image with the plot of the selected detector call for the run's frames up to this one; appends the display to the run's log |
| `FramePump.PumpFrames` | main.py:170-176 | an open capture ends released, with the displayed frames `Handled`, the run log extended by `PumpTrace` (reads, displays and release interleaved), the unread outcomes `Remaining`, and the plot for the run's frames shown; a capture that never opened is not read or released and the slot is unchanged |
| `FramePump.RunStream` | main.py:165-206 | one Run on a video, webcam or RTSP source gives the displayed frames, the single run log of reads, displays and release, and the shown image as functions of the capture's behaviour alone (the three loops have the same text), with none on a capture that does not open |

## Left out

- Streamlit widgets and layout (radios, sliders, file uploader, columns, `st.image`, `st.video`, `st.snow`, the results expander): these are UI only. The radio and slider values are inputs to the model.
- The Ultralytics calls: model loading, `predict`/`track` internals, `plot()` and box data. These are foreign library code. The model describes a call by its arguments, and plotting is an opaque function parameter.
- OpenCV capture opening and decoding, PIL image opening and the video-file bytes preview: these are I/O. The capture's open flag and read outcomes are parameters.
- `settings.py` path resolution and the demo asset table: this is environment configuration. The model directory is a string parameter.
- Exception handlers: a failed model load, or an exception raised inside the loop, is not modelled. The source does not release the capture on an exception, and the model makes no claim about that path.
- The default-image display when nothing is uploaded (main.py:122-136): this only shows files. `ImageRequest` covers only whether a detector call is made.
- ModelConfig.Confidence: the threshold is exact integer hundredths, not the floating-point quotient `float(value) / 100`, so rounding of the float is not modelled.
- FramePump.RunStream: a live webcam or RTSP stream that never fails is not covered, because the read outcomes are a finite sequence.
- FramePump.DisplayResultFrames: the tracker state that `persist=True` keeps is not modelled as state; it enters only through `plot` seeing all frames of the run so far. State kept across separate Runs is not modelled, because every Run reruns the script and main.py:89 builds a new `YOLO(model_path)`.
