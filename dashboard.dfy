/**
 * The counting done by the CleanEye dashboard: the detection list built for one image, and the
 * frame loop that analyses an uploaded video up to a frame limit, totals the detections, collects
 * the distinct labels and raises one voice alert at the first frame with a detection. Drawing,
 * the page widgets and the temporary video file are not modelled.
 */
module Dashboard {
  import opened Inference

  /** One entry of the detection list: the model's label, the label shown, and the confidence. */
  datatype Detection = Detection(rawLabel: string, shownLabel: string, confidence: real)

  /** The labels appearing among `boxes`. */
  function NameSet(boxes: seq<Box>): set<string>
  {
    set j | 0 <= j < |boxes| :: boxes[j].name
  }

  /** `annotate_image`'s detection list: one entry per box, in box order, showing the raw label. */
  method AnnotateImage(boxes: seq<Box>) returns (detections: seq<Detection>)
    ensures |detections| == |boxes|
    ensures forall i :: 0 <= i < |boxes| ==>
      && detections[i].rawLabel == boxes[i].name
      && detections[i].shownLabel == detections[i].rawLabel
      && detections[i].confidence == boxes[i].confidence
    ensures (set d | d in detections :: d.shownLabel) == NameSet(boxes)
  {
    detections := [];
    for i := 0 to |boxes|
      invariant |detections| == i
      invariant forall j :: 0 <= j < i ==>
        detections[j] == Detection(boxes[j].name, boxes[j].name, boxes[j].confidence)
    {
      var rawLabel := boxes[i].name;
      detections := detections + [Detection(rawLabel, rawLabel, boxes[i].confidence)];
    }
    forall l | l in NameSet(boxes) ensures l in (set d | d in detections :: d.shownLabel) {
      var j :| 0 <= j < |boxes| && boxes[j].name == l;
      assert detections[j] in detections;
    }
  }

  /** The labels appearing in any of `frames`. */
  function LabelSet(frames: seq<seq<Box>>): set<string>
  {
    if frames == [] then {} else LabelSet(frames[..|frames| - 1]) + NameSet(frames[|frames| - 1])
  }

  /** A label is collected exactly when some box of some frame carries it. */
  lemma {:induction false} LabelSetMembers(frames: seq<seq<Box>>, l: string)
    ensures l in LabelSet(frames) <==>
            exists i, j :: 0 <= i < |frames| && 0 <= j < |frames[i]| && frames[i][j].name == l
  {
    if frames != [] {
      var n := |frames| - 1;
      var init := frames[..n];
      LabelSetMembers(init, l);
      if l in LabelSet(frames) {
        if l in LabelSet(init) {
          var i, j :| 0 <= i < |init| && 0 <= j < |init[i]| && init[i][j].name == l;
          assert frames[i] == init[i];
        } else {
          var j :| 0 <= j < |frames[n]| && frames[n][j].name == l;
          assert 0 <= n < |frames| && frames[n][j].name == l;
        }
      }
      if exists i, j :: 0 <= i < |frames| && 0 <= j < |frames[i]| && frames[i][j].name == l {
        var i, j :| 0 <= i < |frames| && 0 <= j < |frames[i]| && frames[i][j].name == l;
        if i < n {
          assert init[i] == frames[i];
        }
      }
    }
  }

  /** No box at all: no label, no detection, every frame empty. */
  lemma {:induction false} NothingFound(frames: seq<seq<Box>>)
    ensures LabelSet(frames) == {} <==> TotalBoxes(frames) == 0
    ensures TotalBoxes(frames) == 0 <==> forall i :: 0 <= i < |frames| ==> frames[i] == []
  {
    if frames != [] {
      var n := |frames| - 1;
      var init := frames[..n];
      NothingFound(init);
      if frames[n] != [] {
        assert frames[n][0].name in NameSet(frames[n]);
      }
      assert forall i :: 0 <= i < n ==> init[i] == frames[i];
    }
  }

  /**
   * The alert test `detections_found == len(result["detections"])`, taken right after frame `k`'s
   * detections were added, holds on a frame with detections exactly when every earlier frame had none.
   */
  lemma AlertOnFirstDetection(frames: seq<seq<Box>>, k: nat)
    requires k < |frames| && frames[k] != []
    ensures TotalBoxes(frames[..k + 1]) == |frames[k]| <==> forall i :: 0 <= i < k ==> frames[i] == []
  {
    assert frames[..k + 1][..k] == frames[..k];
    NothingFound(frames[..k]);
    assert forall i :: 0 <= i < k ==> frames[..k][i] == frames[i];
  }

  /** How the upload handler ended. */
  datatype VideoOutcome =
    | NoUpload
    | CannotOpen
    | Analyzed(framesAnalyzed: nat, detectionsFound: nat, uniqueItems: set<string>, alertFrames: seq<nat>)

  /**
   * `handle_video_upload`: reads frames until the video ends or `frameLimit` frames are analysed,
   * adding up the detections and collecting their labels. `alertFrames` lists the frame numbers at
   * which the "garbage detected" voice alert was spoken. The limit comes from a slider whose range
   * starts at 30, and the progress bar divides by it.
   */
  method AnalyzeVideo(uploaded: bool, isOpen: bool, frames: seq<seq<Box>>, frameLimit: nat, voiceEnabled: bool)
    returns (r: VideoOutcome)
    requires frameLimit > 0
    ensures !uploaded ==> r == NoUpload
    ensures uploaded && !isOpen ==> r == CannotOpen
    ensures uploaded && isOpen ==> r.Analyzed?
    ensures r.Analyzed? ==>
      var n := r.framesAnalyzed;
      && n == (if |frames| < frameLimit then |frames| else frameLimit)
      && r.detectionsFound == TotalBoxes(frames[..n])
      && r.uniqueItems == LabelSet(frames[..n])
      && |r.alertFrames| <= 1
      && (r.alertFrames != [] <==> voiceEnabled && r.detectionsFound > 0)
      && (forall f :: f in r.alertFrames ==>
            && 1 <= f <= n && frames[f - 1] != []
            && forall i :: 0 <= i < f - 1 ==> frames[i] == [])
  {
    if !uploaded {
      return NoUpload;
    }
    if !isOpen {
      return CannotOpen;
    }
    var framesAnalyzed := 0;
    var detectionsFound := 0;
    var uniqueItems: set<string> := {};
    var alertFrames: seq<nat> := [];
    while true
      invariant framesAnalyzed <= |frames| && framesAnalyzed < frameLimit
      invariant detectionsFound == TotalBoxes(frames[..framesAnalyzed])
      invariant uniqueItems == LabelSet(frames[..framesAnalyzed])
      invariant |alertFrames| <= 1
      invariant alertFrames != [] <==> voiceEnabled && detectionsFound > 0
      invariant forall f :: f in alertFrames ==>
        && 1 <= f <= framesAnalyzed && frames[f - 1] != []
        && forall i :: 0 <= i < f - 1 ==> frames[i] == []
      decreases |frames| - framesAnalyzed
    {
      if framesAnalyzed == |frames| {
        break;
      }
      var boxes := frames[framesAnalyzed];
      assert frames[..framesAnalyzed + 1][..framesAnalyzed] == frames[..framesAnalyzed];
      NothingFound(frames[..framesAnalyzed]);
      framesAnalyzed := framesAnalyzed + 1;
      var detections := AnnotateImage(boxes);
      if detections != [] {
        detectionsFound := detectionsFound + |detections|;
        ghost var before := uniqueItems;
        for j := 0 to |detections|
          invariant uniqueItems == before + NameSet(boxes[..j])
        {
          assert boxes[..j + 1] == boxes[..j] + [boxes[j]];
          uniqueItems := uniqueItems + {detections[j].shownLabel};
        }
        assert boxes[..|detections|] == boxes;
        if voiceEnabled && detectionsFound == |detections| {
          AlertOnFirstDetection(frames, framesAnalyzed - 1);
          alertFrames := alertFrames + [framesAnalyzed];
        }
      }
      if framesAnalyzed >= frameLimit {
        break;
      }
    }
    r := Analyzed(framesAnalyzed, detectionsFound, uniqueItems, alertFrames);
  }
}
