/**
 * The single-image report of CleanEye: one detection pass over an image, its per-label tally,
 * the status and severity ladder over the number of items found, and the cleanliness score.
 * The report identifier, timestamps, copies of the image and the JSON and text files written
 * next to them are not modelled.
 */
module DetectReport {
  import opened Wrappers
  import opened Tally
  import opened Inference

  /** One entry of the `detections` list: the box's label and confidence (the bounding box is not modelled). */
  datatype Detection = Detection(name: string, confidence: real)

  /** What `detect` returns (the image size aside). */
  datatype DetectionData = DetectionData(
    imagePath: string,
    totalDetections: nat,
    classCounts: map<string, nat>,
    detections: seq<Detection>)

  /**
   * Why no data was produced: `detect`'s own `FileNotFoundError` and `RuntimeError`, and the failure
   * of the report's first read of the image, which takes the size of what `cv2.imread` returned.
   */
  datatype ReportError = ImageNotFound | UnreadableImage | NoImageToMeasure

  /**
   * `detect`: fails when the image file is missing or cannot be decoded; otherwise lists one
   * detection per box, in box order, and counts the boxes by label.
   */
  method Detect(imagePath: string, present: bool, readable: bool, boxes: seq<Box>)
    returns (r: Result<DetectionData, ReportError>)
    ensures !present ==> r == Failure(ImageNotFound)
    ensures present && !readable ==> r == Failure(UnreadableImage)
    ensures present && readable ==> r.Success?
    ensures r.Success? ==>
      var d := r.value;
      && d.imagePath == imagePath
      && d.totalDetections == |d.detections| == |boxes|
      && (forall i :: 0 <= i < |boxes| ==> d.detections[i] == Detection(boxes[i].name, boxes[i].confidence))
      && d.classCounts == TallyOf(Labels(boxes))
      && (forall l :: l in d.classCounts <==> l in Labels(boxes))
      && (forall l :: l in d.classCounts ==> d.classCounts[l] == multiset(Labels(boxes))[l] >= 1)
      && MapSum(d.classCounts) == d.totalDetections
  {
    if !present {
      return Failure(ImageNotFound);
    }
    if !readable {
      return Failure(UnreadableImage);
    }
    var detections: seq<Detection> := [];
    var classCounts: map<string, nat> := map[];
    for i := 0 to |boxes|
      invariant |detections| == i
      invariant forall j :: 0 <= j < i ==> detections[j] == Detection(boxes[j].name, boxes[j].confidence)
      invariant classCounts == TallyOf(Labels(boxes)[..i])
    {
      var name := boxes[i].name;
      detections := detections + [Detection(name, boxes[i].confidence)];
      assert Labels(boxes)[..i + 1][..i] == Labels(boxes)[..i];
      classCounts := Inc(classCounts, name);
    }
    assert Labels(boxes)[..|boxes|] == Labels(boxes);
    TallyOfCounts(Labels(boxes));
    r := Success(DetectionData(imagePath, |detections|, classCounts, detections));
  }

  // ---------------------------------------------------------------------------------------
  // Status, severity and score

  /** The report status, printed and stored as "CLEAN", "LOW", "MODERATE" or "HIGH". */
  datatype Status = Clean | Low | Moderate | High

  /** The severity paired with each status: "NONE", "MINOR", "MEDIUM" or "CRITICAL". */
  datatype Severity = NoSeverity | Minor | Medium | Critical

  datatype Rating = Rating(status: Status, severity: Severity)

  function StatusName(s: Status): string
  {
    match s
    case Clean => "CLEAN"
    case Low => "LOW"
    case Moderate => "MODERATE"
    case High => "HIGH"
  }

  function SeverityName(s: Severity): string
  {
    match s
    case NoSeverity => "NONE"
    case Minor => "MINOR"
    case Medium => "MEDIUM"
    case Critical => "CRITICAL"
  }

  /** The position of a status on the ladder, from clean to high. */
  function Rank(s: Status): nat
  {
    match s
    case Clean => 0
    case Low => 1
    case Moderate => 2
    case High => 3
  }

  /** The if/elif ladder over the number of items found. */
  function Classify(total: nat): Rating
  {
    if total == 0 then Rating(Clean, NoSeverity)
    else if total <= 3 then Rating(Low, Minor)
    else if total <= 7 then Rating(Moderate, Medium)
    else Rating(High, Critical)
  }

  /**
   * Each total falls in exactly one band: 0 is clean, 1 to 3 low, 4 to 7 moderate, 8 and more high;
   * and each status always comes with the same severity.
   */
  lemma ClassifyBands(total: nat)
    ensures Classify(total).status == Clean <==> total == 0
    ensures Classify(total).status == Low <==> 1 <= total <= 3
    ensures Classify(total).status == Moderate <==> 4 <= total <= 7
    ensures Classify(total).status == High <==> total >= 8
    ensures var r := Classify(total);
      && (r.status == Clean <==> r.severity == NoSeverity)
      && (r.status == Low <==> r.severity == Minor)
      && (r.status == Moderate <==> r.severity == Medium)
      && (r.status == High <==> r.severity == Critical)
  {
  }

  /** More items never give a better status. */
  lemma ClassifyMonotone(a: nat, b: nat)
    requires a <= b
    ensures Rank(Classify(a).status) <= Rank(Classify(b).status)
  {
  }

  /** `max(0, 100 - total * 10)`. */
  function CleanlinessScore(total: nat): (score: nat)
    ensures score <= 100
    ensures total <= 10 ==> score == 100 - 10 * total
    ensures total >= 10 ==> score == 0
  {
    var raw := 100 - total * 10;
    if raw > 0 then raw else 0
  }

  /** More items never give a higher score. */
  lemma ScoreNonIncreasing(a: nat, b: nat)
    requires a <= b
    ensures CleanlinessScore(b) <= CleanlinessScore(a)
  {
  }

  /** A perfect score is exactly a clean status, and a high status scores at most 20. */
  lemma ScoreAgreesWithStatus(total: nat)
    ensures CleanlinessScore(total) == 100 <==> Classify(total).status == Clean
    ensures Classify(total).status == High ==> CleanlinessScore(total) <= 20
    ensures Classify(total).status == Low ==> 70 <= CleanlinessScore(total) <= 90
  {
  }

  // ---------------------------------------------------------------------------------------
  // The report

  /** The `detection` and `statistics` parts of the JSON report. */
  datatype Report = Report(
    totalItems: nat,
    status: string,
    severity: string,
    cleanlinessScore: nat,
    confidenceThreshold: real,
    classCounts: map<string, nat>,
    detections: seq<Detection>)

  /**
   * `generate_report`: the image is read and measured first, which fails when `cv2.imread` finds
   * nothing to read; then `detect` runs and the report carries its total and its tally unchanged,
   * with the status, severity and score of that total.
   */
  method GenerateReport(imagePath: string, present: bool, readable: bool, boxes: seq<Box>, confidence: real)
    returns (r: Result<Report, ReportError>)
    ensures r.Failure? <==> !(present && readable)
    ensures r.Failure? ==> r.error == NoImageToMeasure
    ensures r.Success? ==>
      var p := r.value;
      var rating := Classify(|boxes|);
      && p.totalItems == |boxes|
      && p.classCounts == TallyOf(Labels(boxes))
      && |p.detections| == |boxes|
      && (forall i :: 0 <= i < |boxes| ==> p.detections[i] == Detection(boxes[i].name, boxes[i].confidence))
      && p.status == StatusName(rating.status)
      && p.severity == SeverityName(rating.severity)
      && p.cleanlinessScore == CleanlinessScore(|boxes|)
      && p.confidenceThreshold == confidence
  {
    if !(present && readable) {
      return Failure(NoImageToMeasure);
    }
    var data := Detect(imagePath, present, readable, boxes);
    match data
    case Failure(e) =>
      r := Failure(e);
    case Success(d) =>
      var total := d.totalDetections;
      var rating := Classify(total);
      r := Success(Report(total, StatusName(rating.status), SeverityName(rating.severity),
                          CleanlinessScore(total), confidence, d.classCounts, d.detections));
  }
}
