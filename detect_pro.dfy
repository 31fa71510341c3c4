/**
 * The command-line detector: it turns every box of every processed frame into a detection
 * event, appends the event to a line-per-event log, keeps running counts per label and per
 * category, and rewrites a summary file for the dashboard after every event.
 */
module DetectPro {
  import opened Wrappers
  import opened Tally
  import opened Inference

  // ---------------------------------------------------------------------------------------
  // Categories

  /** Raw model label to statistics category. */
  const Categories: map<string, string> := map[
    "0" := "General",
    "c" := "Recyclable",
    "garbage" := "General",
    "garbage_bag" := "Recyclable",
    "waste" := "General",
    "trash" := "General"
  ]

  /** The category of every label the table does not know. */
  const UnknownCategory: string := "Unknown"

  /** The category of a raw label: the table's entry, or the fallback; never an error. */
  function CategoryOf(rawLabel: string): (category: string)
    ensures category in {"General", "Recyclable", UnknownCategory}
    ensures category == UnknownCategory <==> rawLabel !in Categories
    ensures rawLabel in Categories ==> category == Categories[rawLabel]
  {
    if rawLabel in Categories then Categories[rawLabel] else UnknownCategory
  }

  /** The six known labels and their categories; everything else is "Unknown". */
  lemma CategoryTable(rawLabel: string)
    ensures CategoryOf("0") == "General" && CategoryOf("c") == "Recyclable"
    ensures CategoryOf("garbage") == "General" && CategoryOf("garbage_bag") == "Recyclable"
    ensures CategoryOf("waste") == "General" && CategoryOf("trash") == "General"
    ensures rawLabel !in {"0", "c", "garbage", "garbage_bag", "waste", "trash"} ==>
              CategoryOf(rawLabel) == "Unknown"
  {
  }

  // ---------------------------------------------------------------------------------------
  // Events and the aggregate they fold into

  datatype DetectionEvent = DetectionEvent(
    timestamp: string,
    source: string,
    frameIndex: int,
    rawLabel: string,
    friendlyLabel: string,
    category: string,
    confidence: real,
    latitude: real,
    longitude: real)

  datatype Location = Location(latitude: real, longitude: real)

  /** The content of the summary file. */
  datatype Summary = Summary(
    updatedAt: string,
    totalDetections: nat,
    classCounts: map<string, nat>,
    categoryCounts: map<string, nat>,
    lastEvent: DetectionEvent,
    locationHint: Location)

  /** The in-memory state of a logger. */
  datatype Counters = Counters(
    totalEvents: nat,
    classCounts: map<string, nat>,
    categoryCounts: map<string, nat>,
    lastEvent: Option<DetectionEvent>)

  /** The state of a newly constructed logger. */
  const NoEvents: Counters := Counters(0, map[], map[], None)

  /** What recording one event does to the counters. */
  function Step(c: Counters, e: DetectionEvent): Counters
  {
    Counters(c.totalEvents + 1, Inc(c.classCounts, e.friendlyLabel), Inc(c.categoryCounts, e.category), Some(e))
  }

  /** The counters obtained by recording `es`, in order, from the empty state. */
  function Replay(es: seq<DetectionEvent>): Counters
  {
    ReplayFirst(es, |es|)
  }

  /** The counters obtained by recording the first `n` events of `es`. */
  function ReplayFirst(es: seq<DetectionEvent>, n: nat): Counters
    requires n <= |es|
  {
    if n == 0 then NoEvents else Step(ReplayFirst(es, n - 1), es[n - 1])
  }

  /** Replaying the first `n` events does not look past them. */
  lemma {:induction false} ReplayFirstPrefix(es: seq<DetectionEvent>, more: seq<DetectionEvent>, n: nat)
    requires n <= |es|
    ensures ReplayFirst(es + more, n) == ReplayFirst(es, n)
  {
    if n > 0 {
      ReplayFirstPrefix(es, more, n - 1);
      assert (es + more)[n - 1] == es[n - 1];
    }
  }

  /** Recording one more event is one more step. */
  lemma ReplaySnoc(es: seq<DetectionEvent>, e: DetectionEvent)
    ensures Replay(es + [e]) == Step(Replay(es), e)
  {
    ReplayFirstPrefix(es, [e], |es|);
  }

  /** The summary written after recording `e`, built from the counters that already include it. */
  function SummaryOf(c: Counters, e: DetectionEvent): Summary
  {
    Summary(e.timestamp, c.totalEvents, c.classCounts, c.categoryCounts, e, Location(e.latitude, e.longitude))
  }

  /** The friendly labels of `es`, in order. */
  function FriendlyLabels(es: seq<DetectionEvent>): seq<string>
  {
    seq(|es|, i requires 0 <= i < |es| => es[i].friendlyLabel)
  }

  /** The categories of `es`, in order. */
  function CategoryNames(es: seq<DetectionEvent>): seq<string>
  {
    seq(|es|, i requires 0 <= i < |es| => es[i].category)
  }

  /** Replaying is tallying: the counters are the tallies of the labels and categories of `es`. */
  lemma {:induction false} ReplayIsTally(es: seq<DetectionEvent>)
    ensures Replay(es).totalEvents == |es|
    ensures Replay(es).classCounts == TallyOf(FriendlyLabels(es))
    ensures Replay(es).categoryCounts == TallyOf(CategoryNames(es))
    ensures Replay(es).lastEvent == if es == [] then None else Some(es[|es| - 1])
  {
    if es != [] {
      var init := es[..|es| - 1];
      ReplayIsTally(init);
      assert es == init + [es[|es| - 1]];
      ReplaySnoc(init, es[|es| - 1]);
      assert FriendlyLabels(es)[..|es| - 1] == FriendlyLabels(init);
      assert CategoryNames(es)[..|es| - 1] == CategoryNames(init);
    }
  }

  /**
   * After recording `es` from the empty state the total equals the sum of the per-label counts
   * and the sum of the per-category counts, and every count is the number of events with that
   * label (resp. category); a key is present exactly when some event carries it.
   */
  lemma ReplayCounts(es: seq<DetectionEvent>)
    ensures var c := Replay(es);
      && c.totalEvents == |es| == MapSum(c.classCounts) == MapSum(c.categoryCounts)
      && (forall l :: l in c.classCounts <==> l in FriendlyLabels(es))
      && (forall l :: l in c.classCounts ==> c.classCounts[l] == multiset(FriendlyLabels(es))[l])
      && (forall g :: g in c.categoryCounts <==> g in CategoryNames(es))
      && (forall g :: g in c.categoryCounts ==> c.categoryCounts[g] == multiset(CategoryNames(es))[g])
  {
    ReplayIsTally(es);
    TallyOfCounts(FriendlyLabels(es));
    TallyOfCounts(CategoryNames(es));
  }

  /** The summary written by the call that records `e` reflects that call's event. */
  lemma SnapshotAfterRecord(es: seq<DetectionEvent>, e: DetectionEvent)
    ensures var s := SummaryOf(Replay(es + [e]), e);
      && s.totalDetections == |es| + 1
      && s.updatedAt == e.timestamp
      && s.lastEvent == e
      && s.locationHint == Location(e.latitude, e.longitude)
      && s.classCounts[e.friendlyLabel] == multiset(FriendlyLabels(es))[e.friendlyLabel] + 1
      && s.categoryCounts[e.category] == multiset(CategoryNames(es))[e.category] + 1
  {
    ReplaySnoc(es, e);
    ReplayCounts(es);
    var c := Replay(es);
    IncEffect(c.classCounts, e.friendlyLabel);
    IncEffect(c.categoryCounts, e.category);
  }

  /** Three events labelled "garbage", "garbage_bag", "garbage": the third call's event is the last one. */
  lemma ThreeEventScenario(e1: DetectionEvent, e2: DetectionEvent, e3: DetectionEvent)
    requires e1.friendlyLabel == "garbage" && e2.friendlyLabel == "garbage_bag" && e3.friendlyLabel == "garbage"
    ensures Replay([e1, e2, e3]).totalEvents == 3
    ensures Replay([e1, e2, e3]).classCounts == map["garbage" := 2, "garbage_bag" := 1]
    ensures Replay([e1, e2, e3]).lastEvent == Some(e3)
  {
    ReplaySnoc([], e1);
    ReplaySnoc([e1], e2);
    ReplaySnoc([e1, e2], e3);
    assert [] + [e1] == [e1] && [e1] + [e2] == [e1, e2] && [e1, e2] + [e3] == [e1, e2, e3];
    var c1 := Replay([e1]);
    assert c1 == Step(NoEvents, e1);
    assert c1.classCounts == Inc(map[], "garbage");
    assert c1.classCounts == map["garbage" := 1];
    var c2 := Replay([e1, e2]);
    assert c2 == Step(c1, e2);
    assert c2.classCounts == map["garbage" := 1, "garbage_bag" := 1];
    var c3 := Replay([e1, e2, e3]);
    assert c3 == Step(c2, e3);
    assert c3.classCounts == map["garbage" := 2, "garbage_bag" := 1];
  }

  // ---------------------------------------------------------------------------------------
  // The logger

  /**
   * The logger's invariant over its values: the counters are the replay of the recorded events,
   * the log file is the lines it held before (`logBase`) followed by those events, and the
   * summary file reflects the last of them.
   */
  ghost predicate LoggerInvariant(c: Counters, logBase: seq<DetectionEvent>, recorded: seq<DetectionEvent>,
                                  logFile: seq<DetectionEvent>, summaryFile: Option<Summary>)
  {
    && c == Replay(recorded)
    && c.totalEvents == |recorded|
    && logFile == logBase + recorded
    && (recorded != [] ==> summaryFile == Some(SummaryOf(c, recorded[|recorded| - 1])))
  }

  /** Recording an event (counters, log append, summary rewrite) keeps the invariant. */
  lemma RecordKeepsInvariant(c: Counters, logBase: seq<DetectionEvent>, recorded: seq<DetectionEvent>,
                             logFile: seq<DetectionEvent>, summaryFile: Option<Summary>, e: DetectionEvent)
    requires LoggerInvariant(c, logBase, recorded, logFile, summaryFile)
    ensures LoggerInvariant(Step(c, e), logBase, recorded + [e], logFile + [e], Some(SummaryOf(Step(c, e), e)))
  {
    ReplaySnoc(recorded, e);
    assert logBase + (recorded + [e]) == logBase + recorded + [e];
  }

  /** Persists detection events and keeps the live summary for the dashboard. */
  class DetectionLogger {
    var totalEvents: nat
    var classCounts: map<string, nat>
    var categoryCounts: map<string, nat>
    var lastEvent: Option<DetectionEvent>
    /** The log file, one event per line; it is appended to, so it may start with lines of earlier runs. */
    var logFile: seq<DetectionEvent>
    /** What the summary file last received; None while this logger has not written one and none existed. */
    var summaryFile: Option<Summary>
    /** The lines the log file held when this logger was created. */
    ghost var logBase: seq<DetectionEvent>
    /** The events recorded through this logger, in order. */
    ghost var recorded: seq<DetectionEvent>

    function Counts(): Counters
      reads this
    {
      Counters(totalEvents, classCounts, categoryCounts, lastEvent)
    }

    /** The counters are the replay of what was recorded, which follows the log's earlier lines. */
    ghost predicate Valid()
      reads this
    {
      LoggerInvariant(Counts(), logBase, recorded, logFile, summaryFile)
    }

    constructor (existingLog: seq<DetectionEvent>, existingSummary: Option<Summary>)
      ensures Valid()
      ensures Counts() == NoEvents && recorded == [] && logBase == existingLog
      ensures logFile == existingLog && summaryFile == existingSummary
    {
      totalEvents := 0;
      classCounts := map[];
      categoryCounts := map[];
      lastEvent := None;
      logFile := existingLog;
      summaryFile := existingSummary;
      logBase := existingLog;
      recorded := [];
    }

    method Record(event: DetectionEvent)
      requires Valid()
      modifies this
      ensures Valid()
      ensures recorded == old(recorded) + [event] && logBase == old(logBase)
      ensures totalEvents == old(totalEvents) + 1
      ensures classCounts == Inc(old(classCounts), event.friendlyLabel)
      ensures categoryCounts == Inc(old(categoryCounts), event.category)
      ensures classCounts.Keys == old(classCounts).Keys + {event.friendlyLabel}
      ensures classCounts[event.friendlyLabel] == Count(old(classCounts), event.friendlyLabel) + 1
      ensures forall k :: k in old(classCounts) && k != event.friendlyLabel ==> classCounts[k] == old(classCounts)[k]
      ensures categoryCounts.Keys == old(categoryCounts).Keys + {event.category}
      ensures categoryCounts[event.category] == Count(old(categoryCounts), event.category) + 1
      ensures forall k :: k in old(categoryCounts) && k != event.category ==> categoryCounts[k] == old(categoryCounts)[k]
      ensures lastEvent == Some(event)
      ensures logFile == old(logFile) + [event]
      ensures summaryFile == Some(Summary(event.timestamp, totalEvents, classCounts, categoryCounts,
                                          event, Location(event.latitude, event.longitude)))
    {
      var next := Step(Counts(), event);
      RecordKeepsInvariant(Counts(), logBase, recorded, logFile, summaryFile, event);
      IncEffect(classCounts, event.friendlyLabel);
      IncEffect(categoryCounts, event.category);
      totalEvents, classCounts, categoryCounts, lastEvent :=
        next.totalEvents, next.classCounts, next.categoryCounts, next.lastEvent;
      logFile := logFile + [event];
      summaryFile := Some(SummaryOf(next, event));
      recorded := recorded + [event];
    }
  }

  // ---------------------------------------------------------------------------------------
  // The detector

  /** The clock reading and the simulated location drawn for one box. */
  datatype Reading = Reading(timestamp: string, latitude: real, longitude: real)

  /** The environment: the reading taken for (frame number, box position). */
  type Clock = (nat, nat) -> Reading

  /** The event built for one box of frame `frame`. */
  function FrameEvent(box: Box, source: string, frame: nat, r: Reading): DetectionEvent
  {
    DetectionEvent(r.timestamp, source, frame, box.name, box.name, CategoryOf(box.name),
                   box.confidence, r.latitude, r.longitude)
  }

  /** The events of one frame: one per box, in box order. */
  function FrameEvents(boxes: seq<Box>, source: string, frame: nat, clock: Clock): (es: seq<DetectionEvent>)
    ensures |es| == |boxes|
  {
    if boxes == [] then []
    else
      var n := |boxes| - 1;
      FrameEvents(boxes[..n], source, frame, clock) + [FrameEvent(boxes[n], source, frame, clock(frame, n))]
  }

  /**
   * Event `i` of a frame comes from box `i`: its raw and friendly labels are the box's label, its
   * category is the label's category, and it carries the frame number, the source and box `i`'s reading.
   */
  lemma {:induction false} FrameEventsFields(boxes: seq<Box>, source: string, frame: nat, clock: Clock)
    ensures var es := FrameEvents(boxes, source, frame, clock);
      forall i :: 0 <= i < |boxes| ==>
        && es[i].rawLabel == boxes[i].name
        && es[i].friendlyLabel == es[i].rawLabel
        && es[i].category == CategoryOf(boxes[i].name)
        && es[i].confidence == boxes[i].confidence
        && es[i].frameIndex == frame
        && es[i].source == source
        && es[i].timestamp == clock(frame, i).timestamp
  {
    if boxes != [] {
      FrameEventsFields(boxes[..|boxes| - 1], source, frame, clock);
    }
  }

  /** One more box adds its event at the end of the frame's events. */
  lemma FrameEventsStep(boxes: seq<Box>, i: nat, source: string, frame: nat, clock: Clock)
    requires i < |boxes|
    ensures FrameEvents(boxes[..i + 1], source, frame, clock)
            == FrameEvents(boxes[..i], source, frame, clock) + [FrameEvent(boxes[i], source, frame, clock(frame, i))]
  {
    assert boxes[..i + 1][..i] == boxes[..i];
  }

  /** Regrouping appended events; stated once so the frame methods can cite it for a single step. */
  lemma AppendAssoc(a: seq<DetectionEvent>, b: seq<DetectionEvent>, c: seq<DetectionEvent>)
    ensures a + (b + c) == (a + b) + c
  {
  }

  /** One more frame adds its boxes to the count of boxes. */
  lemma TotalBoxesStep(frames: seq<seq<Box>>, k: nat)
    requires k < |frames|
    ensures TotalBoxes(frames[..k + 1]) == TotalBoxes(frames[..k]) + |frames[k]|
  {
    assert frames[..k + 1][..k] == frames[..k];
  }

  /** Frame indices along `es` never decrease and lie in (lo, hi]. */
  ghost predicate FramesInOrder(es: seq<DetectionEvent>, lo: int, hi: int)
  {
    es == [] ||
    (lo < es[|es| - 1].frameIndex <= hi && FramesInOrder(es[..|es| - 1], lo, es[|es| - 1].frameIndex))
  }

  /** What `FramesInOrder` means element by element. */
  lemma {:induction false} FramesInOrderPairwise(es: seq<DetectionEvent>, lo: int, hi: int)
    requires FramesInOrder(es, lo, hi)
    ensures forall i :: 0 <= i < |es| ==> lo < es[i].frameIndex <= hi
    ensures forall i, j :: 0 <= i <= j < |es| ==> es[i].frameIndex <= es[j].frameIndex
  {
    if es != [] {
      var n := |es| - 1;
      FramesInOrderPairwise(es[..n], lo, es[n].frameIndex);
      assert forall i :: 0 <= i < n ==> es[..n][i] == es[i];
    }
  }

  /** Appending the events of frame `frame` after events of frames up to `frame` keeps the order. */
  lemma {:induction false} AppendFrameInOrder(before: seq<DetectionEvent>, boxes: seq<Box>, source: string,
                                              frame: nat, clock: Clock, lo: int)
    requires lo < frame && FramesInOrder(before, lo, frame)
    ensures FramesInOrder(before + FrameEvents(boxes, source, frame, clock), lo, frame)
  {
    if boxes == [] {
      assert before + FrameEvents(boxes, source, frame, clock) == before;
    } else {
      var n := |boxes| - 1;
      AppendFrameInOrder(before, boxes[..n], source, frame, clock, lo);
      var xs := before + FrameEvents(boxes[..n], source, frame, clock);
      var e := FrameEvent(boxes[n], source, frame, clock(frame, n));
      assert before + FrameEvents(boxes, source, frame, clock) == xs + [e];
      assert (xs + [e])[..|xs|] == xs;
    }
  }

  /** The character of the decimal digit `d`. */
  function Digit(d: nat): char
    requires d < 10
  {
    ('0' as int + d) as char
  }

  function DecimalDigits(n: nat): string
  {
    if n < 10 then [Digit(n)] else DecimalDigits(n / 10) + [Digit(n % 10)]
  }

  /** Python's str() of an int, as used to name the camera source. */
  function IntText(n: int): string
  {
    if n < 0 then "-" + DecimalDigits(-n) else DecimalDigits(n)
  }

  /** The value of a string of decimal digits, most significant first. */
  function DigitsValue(s: string): int
  {
    if s == [] then 0 else 10 * DigitsValue(s[..|s| - 1]) + (s[|s| - 1] as int - '0' as int)
  }

  /** Reading back the text of an int: a leading '-' negates the digits after it. */
  function ParseInt(s: string): int
  {
    if s != [] && s[0] == '-' then -DigitsValue(s[1..]) else DigitsValue(s)
  }

  /** The digits of `n` start with a digit and read back as `n`. */
  lemma {:induction false} DecimalDigitsValue(n: nat)
    ensures DecimalDigits(n) != [] && '0' <= DecimalDigits(n)[0] <= '9'
    ensures DigitsValue(DecimalDigits(n)) == n
  {
    if n >= 10 {
      DecimalDigitsValue(n / 10);
      var s := DecimalDigits(n);
      assert s[..|s| - 1] == DecimalDigits(n / 10);
    }
  }

  /** The text of an int reads back as that int. */
  lemma IntTextRoundTrip(n: int)
    ensures ParseInt(IntText(n)) == n
  {
    if n < 0 {
      DecimalDigitsValue(-n);
      var s := IntText(n);
      assert s[0] == '-' && s[1..] == DecimalDigits(-n);
    } else {
      DecimalDigitsValue(n);
    }
  }

  /** Different camera numbers give different source names. */
  lemma IntTextInjective(n: int, m: int)
    ensures IntText(n) == IntText(m) <==> n == m
  {
    IntTextRoundTrip(n);
    IntTextRoundTrip(m);
  }

  /** How a run method ended: normally, by the "model not loaded" error, or by an early return. */
  datatype RunOutcome = Finished | ModelNotLoaded | InputNotFound | CannotOpen

  /** The detector with its logger and frame and detection counters. */
  class GarbageDetector {
    var logger: DetectionLogger
    var modelLoaded: bool
    var totalFrames: nat
    var totalDetections: nat
    /** The events the logger had recorded when this detector took it. */
    ghost var earlier: seq<DetectionEvent>
    /** The events this detector has recorded since. */
    ghost var events: seq<DetectionEvent>

    /**
     * The logger is consistent and has received exactly this detector's detections since the detector
     * took it; their frame indices lie in 1..totalFrames in non-decreasing order.
     */
    ghost predicate Valid()
      reads this, logger
    {
      && logger.Valid()
      && logger.recorded == earlier + events
      && totalDetections == |events|
      && FramesInOrder(events, 0, totalFrames)
    }

    /** A detector that created its own logger has counted exactly the events that logger holds. */
    lemma OwnLoggerAgrees()
      requires Valid() && earlier == []
      ensures logger.totalEvents == totalDetections
    {
    }

    /** The frame index of every recorded event lies between 1 and the frame count, and never decreases. */
    lemma FrameIndicesInOrder()
      requires Valid()
      ensures forall i :: 0 <= i < |events| ==> 1 <= events[i].frameIndex <= totalFrames
      ensures forall i, j :: 0 <= i <= j < |events| ==> events[i].frameIndex <= events[j].frameIndex
    {
      FramesInOrderPairwise(events, 0, totalFrames);
    }

    /** `logger or DetectionLogger()`: the given logger, or a new one over the existing log and summary files. */
    constructor (logger: DetectionLogger?, existingLog: seq<DetectionEvent>, existingSummary: Option<Summary>)
      requires logger != null ==> logger.Valid()
      ensures Valid()
      ensures !modelLoaded && totalFrames == 0 && totalDetections == 0
      ensures logger != null ==> this.logger == logger && unchanged(logger)
      ensures logger == null ==> && fresh(this.logger) && this.logger.Counts() == NoEvents && earlier == []
                                 && this.logger.logFile == existingLog && this.logger.summaryFile == existingSummary
    {
      var l: DetectionLogger;
      if logger != null {
        l := logger;
      } else {
        l := new DetectionLogger(existingLog, existingSummary);
      }
      this.logger := l;
      modelLoaded := false;
      totalFrames := 0;
      totalDetections := 0;
      earlier := l.recorded;
      events := [];
    }

    /** Loading the weights either succeeds or leaves the detector as it was. */
    method LoadModel(loads: bool) returns (ok: bool)
      requires Valid()
      modifies this`modelLoaded
      ensures Valid()
      ensures ok == loads
      ensures modelLoaded == (loads || old(modelLoaded))
    {
      if loads {
        modelLoaded := true;
      }
      ok := loads;
    }

    /** Records one event per box of the current frame, in box order, and returns their number. */
    method AnnotateFrame(boxes: seq<Box>, source: string, clock: Clock) returns (detections: nat)
      requires logger.Valid()
      modifies logger
      ensures logger.Valid()
      ensures detections == |boxes|
      ensures logger.recorded == old(logger.recorded) + FrameEvents(boxes, source, totalFrames, clock)
      ensures logger.logFile == old(logger.logFile) + FrameEvents(boxes, source, totalFrames, clock)
      ensures boxes == [] ==> logger.summaryFile == old(logger.summaryFile)
    {
      detections := 0;
      ghost var added := [];
      ghost var recorded0, base0, summary0 := logger.recorded, logger.logBase, logger.summaryFile;
      for i := 0 to |boxes|
        invariant logger.Valid()
        invariant detections == i
        invariant added == FrameEvents(boxes[..i], source, totalFrames, clock)
        invariant logger.recorded == recorded0 + added && logger.logBase == base0
        invariant i == 0 ==> logger.summaryFile == summary0
      {
        detections := detections + 1;
        var event := FrameEvent(boxes[i], source, totalFrames, clock(totalFrames, i));
        logger.Record(event);
        FrameEventsStep(boxes, i, source, totalFrames, clock);
        AppendAssoc(recorded0, added, [event]);
        added := added + [event];
      }
      assert boxes[..|boxes|] == boxes;
      AppendAssoc(base0, recorded0, added);
    }

    /** One iteration of a run loop: count the frame, then annotate it and count its detections. */
    method ProcessFrame(boxes: seq<Box>, source: string, clock: Clock) returns (detected: nat)
      requires Valid()
      modifies this`totalFrames, this`totalDetections, this`events, logger
      ensures Valid()
      ensures totalFrames == old(totalFrames) + 1
      ensures detected == |boxes| && totalDetections == old(totalDetections) + detected
      ensures events == old(events) + FrameEvents(boxes, source, old(totalFrames) + 1, clock)
      ensures logger.logFile == old(logger.logFile) + FrameEvents(boxes, source, old(totalFrames) + 1, clock)
      ensures boxes == [] ==> logger.summaryFile == old(logger.summaryFile)
    {
      totalFrames := totalFrames + 1;
      AppendFrameInOrder(events, boxes, source, totalFrames, clock, 0);
      ghost var added := FrameEvents(boxes, source, totalFrames, clock);
      detected := AnnotateFrame(boxes, source, clock);
      AppendAssoc(earlier, events, added);
      totalDetections := totalDetections + detected;
      events := events + added;
    }

    /** The frame loop shared by the webcam and video runs, over the frames read before the loop stopped. */
    method ProcessFrames(frames: seq<seq<Box>>, source: string, clock: Clock)
      requires Valid()
      modifies this`totalFrames, this`totalDetections, this`events, logger
      ensures Valid()
      ensures totalFrames == old(totalFrames) + |frames|
      ensures totalDetections == old(totalDetections) + TotalBoxes(frames)
      ensures |old(events)| <= |events| && events[..|old(events)|] == old(events)
      ensures old(logger.logFile) <= logger.logFile
      ensures TotalBoxes(frames) == 0 ==> logger.summaryFile == old(logger.summaryFile)
    {
      for k := 0 to |frames|
        invariant Valid()
        invariant totalFrames == old(totalFrames) + k
        invariant totalDetections == old(totalDetections) + TotalBoxes(frames[..k])
        invariant |old(events)| <= |events| && events[..|old(events)|] == old(events)
        invariant old(logger.logFile) <= logger.logFile
        invariant TotalBoxes(frames[..k]) == 0 ==> logger.summaryFile == old(logger.summaryFile)
      {
        var detected := ProcessFrame(frames[k], source, clock);
        TotalBoxesStep(frames, k);
        assert events[..|old(events)|] == old(events);
      }
      assert frames[..|frames|] == frames;
    }

    /** The webcam run: frames are read from camera `camera` until a read fails or the user quits. */
    method RunWebcam(camera: int, isOpen: bool, frames: seq<seq<Box>>, clock: Clock) returns (outcome: RunOutcome)
      requires Valid()
      modifies this, logger
      ensures Valid() && logger == old(logger) && modelLoaded == old(modelLoaded) && earlier == old(earlier)
      ensures outcome == if !modelLoaded then ModelNotLoaded else if !isOpen then CannotOpen else Finished
      ensures outcome != Finished ==> && totalFrames == old(totalFrames) && totalDetections == old(totalDetections)
                                      && unchanged(logger)
      ensures outcome == Finished ==>
                && totalFrames == old(totalFrames) + |frames|
                && totalDetections == old(totalDetections) + TotalBoxes(frames)
                && |old(events)| <= |events| && events[..|old(events)|] == old(events)
                && old(logger.logFile) <= logger.logFile
                && (TotalBoxes(frames) == 0 ==> logger.summaryFile == old(logger.summaryFile))
    {
      if !modelLoaded {
        return ModelNotLoaded;
      }
      if !isOpen {
        return CannotOpen;
      }
      ProcessFrames(frames, "camera:" + IntText(camera), clock);
      outcome := Finished;
    }

    /** The single-image run: one frame, whose boxes are `boxes`. */
    method RunImage(imagePath: string, found: bool, boxes: seq<Box>, clock: Clock) returns (outcome: RunOutcome)
      requires Valid()
      modifies this, logger
      ensures Valid() && logger == old(logger) && modelLoaded == old(modelLoaded) && earlier == old(earlier)
      ensures outcome == if !modelLoaded then ModelNotLoaded else if !found then InputNotFound else Finished
      ensures outcome != Finished ==> && totalFrames == old(totalFrames) && totalDetections == old(totalDetections)
                                      && unchanged(logger)
      ensures outcome == Finished ==>
                && totalFrames == old(totalFrames) + 1
                && totalDetections == old(totalDetections) + |boxes|
                && events == old(events) + FrameEvents(boxes, imagePath, totalFrames, clock)
                && logger.logFile == old(logger.logFile) + FrameEvents(boxes, imagePath, totalFrames, clock)
                && (boxes == [] ==> logger.summaryFile == old(logger.summaryFile))
    {
      if !modelLoaded {
        return ModelNotLoaded;
      }
      if !found {
        return InputNotFound;
      }
      var detected := ProcessFrame(boxes, imagePath, clock);
      outcome := Finished;
    }

    /** The video run: frames are read from the file until it ends or the user quits. */
    method RunVideo(videoPath: string, found: bool, isOpen: bool, frames: seq<seq<Box>>, clock: Clock)
      returns (outcome: RunOutcome)
      requires Valid()
      modifies this, logger
      ensures Valid() && logger == old(logger) && modelLoaded == old(modelLoaded) && earlier == old(earlier)
      ensures outcome == if !modelLoaded then ModelNotLoaded else if !found then InputNotFound
                         else if !isOpen then CannotOpen else Finished
      ensures outcome != Finished ==> && totalFrames == old(totalFrames) && totalDetections == old(totalDetections)
                                      && unchanged(logger)
      ensures outcome == Finished ==>
                && totalFrames == old(totalFrames) + |frames|
                && totalDetections == old(totalDetections) + TotalBoxes(frames)
                && |old(events)| <= |events| && events[..|old(events)|] == old(events)
                && old(logger.logFile) <= logger.logFile
                && (TotalBoxes(frames) == 0 ==> logger.summaryFile == old(logger.summaryFile))
    {
      if !modelLoaded {
        return ModelNotLoaded;
      }
      if !found {
        return InputNotFound;
      }
      if !isOpen {
        return CannotOpen;
      }
      ProcessFrames(frames, videoPath, clock);
      outcome := Finished;
    }
  }
}
