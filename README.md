# CleanEye detection bookkeeping in Dafny

CleanEye runs a YOLO garbage detector on webcam, image and video input and reports what it
finds. Around the model call it keeps some bookkeeping. This project models that bookkeeping and
proves what it promises. The model's output is an input here: a sequence of frames, each a
sequence of boxes reduced to a label and a confidence (`Inference.Box`).

- `detect_pro.dfy` (module `DetectPro`) models the command-line detector.
  - The label-to-category table, with its "Unknown" fallback.
  - The `DetectionEvent` record.
  - The `DetectionLogger` class. `Record` updates the total, the counts per label and per
    category and the last event. It appends the event to the log file and rewrites the summary
    file. The log and summary files are fields holding values: a sequence of events and the last
    summary written.
  - The `GarbageDetector` class. Its frame and detection counters belong to the webcam, image and
    video runs. `AnnotateFrame` turns each box of a frame into an event.
  - The logger's counters are proved equal to a replay (`Replay`, a fold of `Step`) of the events
    it recorded. Replaying is proved to be the same as tallying the labels and categories of those
    events.
- `detect_report.dfy` (module `DetectReport`) models the single-image report.
  - `detect` is a loop that lists the detections and counts them by label.
  - The ladder from item count to status and severity.
  - The cleanliness score `max(0, 100 - 10 * total)`.
  - The figures taken from the detection result into the JSON report.
- `dashboard.dfy` (module `Dashboard`) models the dashboard.
  - `annotate_image` builds one detection entry per box.
  - The `handle_video_upload` frame loop has a frame limit, a running detection total, a set of
    distinct labels and a one-time voice alert.
- `tally.dfy` (module `Tally`) covers counting by key as a `defaultdict(int)` does it: `Inc`,
  `TallyOf` and the sum of a map's values.
- `inference.dfy` (module `Inference`) holds boxes, labels and box totals over frames.
- `wrappers.dfy` (module `Wrappers`) holds `Option` and `Result`.

The environment is passed in as parameters:
- Whether a file exists, can be read or can be opened.
- Whether the model loaded.
- The frames a capture yields before it fails or the user presses `q`.
- A `Clock` giving the timestamp and the simulated location drawn for each (frame number, box
  position).

Behaviour of the code that matters here (`detect_pro.py:108-127`):
- `record` updates the in-memory counters before it appends to the log. Both happen inside one
  `Record` call here.
- The summary file is overwritten with a plain `open("w")`, not written to a temporary file and
  renamed. The model writes it as one value.
- The log file is opened for appending, so it keeps the lines of earlier runs. The log is
  therefore the lines it held when the logger was created followed by the events this logger
  recorded, and the counters are a replay of those events only, not of the whole file
  (`LoggerInvariant`).
- `total_frames` is never reset. A detector used for several runs keeps numbering frames where
  the previous run stopped.

## Model

| member | source | states |
|---|---|---|
| Tally.Inc | CleanEye/code/detect_pro.py:110-111 | `counts[key] += 1` on a `defaultdict(int)`; its effect is stated by `Tally.IncEffect` |
| Tally.IncEffect | CleanEye/code/detect_pro.py:110-111 | `d[key] += 1` on a `defaultdict(int)` adds one to `key`'s count, adding `key` if it was absent, and leaves every other key and its count unchanged |
| Tally.TallyOf | CleanEye/code/detect_report.py:72-86 | Counting a label sequence from an empty map, one increment per label in order; its meaning is stated by `Tally.TallyOfCounts` |
| Tally.TallyOfCounts | CleanEye/code/detect_report.py:86 | Tallying a label sequence gives exactly the labels that occur as keys. Each count is the number of occurrences, so at least 1, and the counts sum to the length of the sequence |
| Tally.MapSumInc | CleanEye/code/detect_pro.py:110-111 | One increment raises the sum of all counts by exactly one |
| DetectPro.CategoryOf | CleanEye/code/detect_pro.py:169 | The category is the table's entry for a known label and "Unknown" otherwise, never an error; it is "Unknown" exactly when the label is not in the table |
| DetectPro.CategoryTable | CleanEye/code/detect_pro.py:53-60 | The six known labels map to General, Recyclable, General, Recyclable, General, General; every other label maps to "Unknown" |
| DetectPro.Step | CleanEye/code/detect_pro.py:108-111 | What one `record` call does to the counters: total + 1, the event's label and category incremented, last event = the event; stated by `DetectPro.ReplaySnoc` and `DetectPro.ReplayIsTally` |
| DetectPro.Replay | CleanEye/code/detect_pro.py:99-111 | The counters of a new logger after recording a sequence of events in order; stated by `DetectPro.ReplayIsTally` and `DetectPro.ReplayCounts` |
| DetectPro.SummaryOf | CleanEye/code/detect_pro.py:117-124 | The summary written after an event; its fields are stated by `DetectPro.SnapshotAfterRecord` |
| DetectPro.ReplaySnoc | CleanEye/code/detect_pro.py:108-112 | Recording one more event is one more step of the replay |
| DetectPro.ReplayIsTally | CleanEye/code/detect_pro.py:102-112 | Replaying events from the empty state gives total = number of events, label counts = tally of the friendly labels, category counts = tally of the categories, last event = the last one recorded |
| DetectPro.ReplayCounts | CleanEye/code/detect_pro.py:102-111 | After replay, total = sum of the label counts = sum of the category counts; every count equals the number of events carrying that key, and a key is present exactly when some event carries it |
| DetectPro.SnapshotAfterRecord | CleanEye/code/detect_pro.py:117-124 | The summary built by the call that records `e` has total = all events so far, `updated_at` = `e`'s timestamp, `last_event` = `e`, `location_hint` = `e`'s position, and `e`'s label and category counted once more than before |
| DetectPro.ThreeEventScenario | CleanEye/code/detect_pro.py:108-112 | Recording labels garbage, garbage_bag, garbage gives total 3, counts {garbage: 2, garbage_bag: 1}, and the third event as the last event |
| DetectPro.RecordKeepsInvariant | CleanEye/code/detect_pro.py:108-127 | One step, one log append and one summary rewrite keep the invariant: counters = replay of what was recorded, the log = its earlier lines followed by what was recorded, and the summary reflects the last event |
| DetectPro.DetectionLogger.constructor | CleanEye/code/detect_pro.py:99-106 | A new logger has zero total, empty counts and no last event, and leaves the existing log and summary files as they are; the existing log lines are the ones its own events will follow |
| DetectPro.DetectionLogger.Record | CleanEye/code/detect_pro.py:108-127 | Total + 1. The event's label and category counts + 1 (starting at 0), with no other key touched. Last event = the event. The log gains the event at its end, after all its earlier lines. The summary written carries the new counters, the event's timestamp and the event's location. The replay invariant is kept |
| DetectPro.FrameEvent | CleanEye/code/detect_pro.py:163-198 | The event built for one box; its fields are stated by `DetectPro.FrameEventsFields` |
| DetectPro.FrameEvents | CleanEye/code/detect_pro.py:163-199 | One event per box of the frame |
| DetectPro.FrameEventsFields | CleanEye/code/detect_pro.py:188-198 | Event `i` of a frame carries box `i`'s label as both raw and friendly label, that label's category, box `i`'s confidence, the source and the current frame number |
| DetectPro.FramesInOrderPairwise | CleanEye/code/detect_pro.py:191 | Events in frame order have frame indices within the bounds and never decreasing along the sequence |
| DetectPro.AppendFrameInOrder | CleanEye/code/detect_pro.py:220-224 | Appending the events of the newly counted frame after events of earlier frames keeps the frame order |
| DetectPro.IntText | CleanEye/code/detect_pro.py:224 | The decimal text of the camera number in `f"camera:{source}"`; stated by `DetectPro.IntTextRoundTrip` |
| DetectPro.DecimalDigitsValue | CleanEye/code/detect_pro.py:224 | The decimal text of a non-negative number starts with a digit and reads back as that number |
| DetectPro.IntTextRoundTrip | CleanEye/code/detect_pro.py:224 | The text of any int, negative ones included, reads back as that int |
| DetectPro.IntTextInjective | CleanEye/code/detect_pro.py:224 | Two camera numbers give the same source name exactly when they are equal |
| DetectPro.GarbageDetector.OwnLoggerAgrees | CleanEye/code/detect_pro.py:143 | With a logger of its own, the detector's detection counter equals the logger's total |
| DetectPro.GarbageDetector.FrameIndicesInOrder | CleanEye/code/detect_pro.py:220-225 | Every event recorded by the detector has a frame index between 1 and the frame counter, and the indices never decrease |
| DetectPro.GarbageDetector.constructor | CleanEye/code/detect_pro.py:133-147 | The given logger is used unchanged, or a new one is created; the counters start at zero and no model is loaded |
| DetectPro.GarbageDetector.LoadModel | CleanEye/code/detect_pro.py:149-157 | Success is reported exactly when the weights load; a failure leaves the detector as it was |
| DetectPro.GarbageDetector.AnnotateFrame | CleanEye/code/detect_pro.py:159-201 | Records exactly one event per box, in box order, built by `FrameEvent` with the current frame number, and returns their number. The log keeps its earlier lines and gains exactly those events at its end; with no box the summary file is left as it was |
| DetectPro.GarbageDetector.ProcessFrame | CleanEye/code/detect_pro.py:220-225 | The frame counter goes up first, and then the frame's events (numbered with the new count) are recorded and appended to the log after its earlier lines. The detection counter goes up by the number of boxes. An empty frame leaves the summary file as it was |
| DetectPro.GarbageDetector.ProcessFrames | CleanEye/code/detect_pro.py:214-225 | After the frames of a run, the frame counter has grown by their number and the detection counter by their boxes. Earlier events are kept, the log only grows at its end, and frame order holds. A run without any box leaves the summary file as it was |
| DetectPro.GarbageDetector.RunWebcam | CleanEye/code/detect_pro.py:203-225 | No model: the "not loaded" error. Camera not open: return with nothing counted. Otherwise the frames read are processed as in `ProcessFrames`: counters, earlier events and log lines kept, summary untouched when nothing is detected |
| DetectPro.GarbageDetector.RunImage | CleanEye/code/detect_pro.py:261-273 | No model: the error. Missing image: return with nothing counted. Otherwise one frame is counted and its boxes become events numbered with the new frame count, appended to the log after its earlier lines; an image with no box leaves the summary file as it was |
| DetectPro.GarbageDetector.RunVideo | CleanEye/code/detect_pro.py:278-301 | No model: the error. Missing file or video not open: return with nothing counted. Otherwise the frames read are processed as in `ProcessFrames`: counters, earlier events and log lines kept, summary untouched when nothing is detected |
| DetectReport.Detect | CleanEye/code/detect_report.py:56-94 | Missing image: `FileNotFoundError`. Unreadable image: the "unable to read" error. Otherwise one detection per box in box order, total = number of detections, and `class_counts` = the tally: keys are exactly the labels found, each count at least 1, and the counts sum to the total |
| DetectReport.Classify | CleanEye/code/detect_report.py:174-189 | The status and severity ladder over the number of items; its bands are stated by `DetectReport.ClassifyBands` |
| DetectReport.ClassifyBands | CleanEye/code/detect_report.py:174-189 | 0 is CLEAN/NONE, 1-3 LOW/MINOR, 4-7 MODERATE/MEDIUM, 8 and more HIGH/CRITICAL; each band holds exactly when its condition does, and each status comes with its own severity |
| DetectReport.ClassifyMonotone | CleanEye/code/detect_report.py:174-189 | More items never give a lower status on the ladder |
| DetectReport.CleanlinessScore | CleanEye/code/detect_report.py:222 | The score lies in 0..100: 100 - 10 x total up to 10 items, 0 from 10 items on |
| DetectReport.ScoreNonIncreasing | CleanEye/code/detect_report.py:222 | More items never give a higher score |
| DetectReport.ScoreAgreesWithStatus | CleanEye/code/detect_report.py:174-193 | A score of 100 exactly for a clean image; LOW scores 70-90 and HIGH at most 20 |
| DetectReport.GenerateReport | CleanEye/code/detect_report.py:148-226 | A missing or unreadable image fails when the report first measures it. Otherwise the report's total and `class_counts` are exactly those of `detect`, with that total's status, severity and score and the confidence threshold |
| Dashboard.AnnotateImage | CleanEye/code/app.py:73-98 | One detection per box, in box order; label shown = raw label = the box's label; the labels shown are exactly the labels of the boxes |
| Dashboard.LabelSet | CleanEye/code/app.py:229-230 | The labels collected over the analysed frames; stated by `Dashboard.LabelSetMembers` |
| Dashboard.LabelSetMembers | CleanEye/code/app.py:229-230 | A label is among the collected items exactly when some box of some analysed frame carries it |
| Inference.TotalBoxes | CleanEye/code/app.py:228 | The number of detections over a sequence of frames; stated by `Dashboard.NothingFound` and used by `Dashboard.AnalyzeVideo` |
| Dashboard.NothingFound | CleanEye/code/app.py:268-272 | No distinct item exactly when no detection, exactly when every analysed frame is empty |
| Dashboard.AlertOnFirstDetection | CleanEye/code/app.py:227-233 | On a frame with detections, `detections_found == len(detections)` holds exactly when every earlier frame had none |
| Dashboard.AnalyzeVideo | CleanEye/code/app.py:203-253 | Frames analysed = min(frames available, limit). Detections found = boxes in those frames. Unique items = their labels. With voice on, exactly one alert, at the first frame with a detection, when there is any detection; none otherwise |

## Left out

- Model inference, `model.names` and box coordinates: each frame's boxes are an input. The
  `str(cls_id)` label used when no model is loaded is not modelled. Every run raises first when
  the model is missing, so that label is never used.
- Drawing, windows, key presses, snapshots and auto-saved images. A capture or video is the
  sequence of frames it yields before a read fails or `q` is pressed.
- JSON encoding of the log lines, the summary and the reports. The files are values in the model.
  Storage errors are not modelled, so the order of the counter update and the log append within
  `record` cannot be observed.
- Timestamps and the random jitter of the simulated location come from the `Clock` parameter.
  Confidences are real numbers that are carried along but never reasoned about.
- FPS history, inference timing and the average per frame, which are floating point.
- DetectPro.GarbageDetector.ProcessFrames: states the counters, the preserved earlier events and
  log lines, and frame order for a whole run. It does not state the contents of every event of the run; those are
  stated per frame by `ProcessFrame` and `AnnotateFrame`.
- DetectPro.GarbageDetector.RunWebcam: same as `ProcessFrames` for the events of the run.
- DetectPro.GarbageDetector.RunVideo: same as `ProcessFrames` for the events of the run.
- DetectPro.GarbageDetector.RunImage: an image that exists but cannot be decoded is treated as
  readable. The failure of the model call on an empty image is not modelled.
- In `detect_report.py`:
  - the model loading;
  - `annotate_image`, which only draws and writes the image;
  - the report identifier, timestamps, directories and image copies;
  - the printed breakdown with percentages;
  - the text report;
  - the image size.
- DetectReport.Detect: the case where no model is loaded is not modelled. `generate_report` only
  runs after the model has loaded.
- In `app.py`:
  - the page layout and widgets;
  - the progress bar and metrics;
  - the temporary file;
  - the voice engine, whose `speak` call is modelled as a frame number in `alertFrames`;
  - the live-statistics page and the summary loading.
- Dashboard.AnalyzeVideo: requires a frame limit of at least 1. The limit comes from a slider over
  30..600, and the progress bar divides by it.
- The rest of the repository:
  - the interactive menu in `start.py`;
  - training, QR generation and OCR;
  - the image and video testers;
  - the OpenCV tutorial scripts.

  These are thin wrappers around libraries, or user interface.
