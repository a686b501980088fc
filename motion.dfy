/** The per-contour rule of `SurveillanceCore.detection_loop`
    (surveillance_core.py:278-296): which moving blobs are reported, with what
    confidence, severity and zone. The contours themselves come from OpenCV's
    background subtractor and are inputs here. */
module Motion {
  import opened Records
  import Zones

  /** `self.motion_threshold`: a contour is reported only when its area exceeds it. */
  const MotionThreshold: nat := 1000
  /** Above this area a report is of severity Medium. */
  const MediumArea: nat := 5000
  /** The area at which confidence reaches 100. */
  const FullConfidenceArea: nat := 10000

  const MotionKind: string := "Motion Detected"

  /** The severities a detection may carry. */
  datatype Severity = Low | Medium | High
  {
    function Name(): string
    {
      match this
      case Low => "Low"
      case Medium => "Medium"
      case High => "High"
    }
  }

  /** A contour as the detection loop uses it: its area (a whole number of
      pixels here) and its bounding rectangle. */
  datatype Contour = Contour(area: nat, x: int, y: int, width: nat, height: nat)

  /** What one qualifying contour makes the loop pass to `process_detection`. */
  datatype Report = Report(zone: Zones.Zone, confidence: nat, severity: Severity)

  /** `min(100, int((area / 10000) * 100))`, in exact arithmetic. */
  function Confidence(area: nat): (c: nat)
    ensures c <= 100
    ensures c == 100 <==> area >= FullConfidenceArea
    ensures c < 100 ==> c * 100 <= area < (c + 1) * 100
  {
    var percent := area / (FullConfidenceArea / 100);
    if percent < 100 then percent else 100
  }

  /** `'Medium' if area > 5000 else 'Low'`: a motion report is never High. */
  function SeverityOf(area: nat): (s: Severity)
    ensures s == Medium <==> area > MediumArea
    ensures s == Low <==> area <= MediumArea
  {
    if area > MediumArea then Medium else Low
  }

  /** The rule applied to one contour of a frame: reported iff its area exceeds
      the threshold, located by the centre of its bounding rectangle. */
  function Classify(c: Contour, frame: Frame): (r: Option<Report>)
    ensures r.Some? <==> c.area > MotionThreshold
    ensures r.Some? ==> 10 <= r.value.confidence <= 100
    ensures r.Some? ==> r.value.confidence == Confidence(c.area)
    ensures r.Some? ==> (r.value.severity == Medium <==> c.area > MediumArea)
    ensures r.Some? ==> r.value.severity != High
    ensures r.Some? ==> r.value.zone == Zones.DetermineZone(c.x + c.width / 2, c.y + c.height / 2, frame.width, frame.height)
  {
    if c.area > MotionThreshold then
      Some(Report(
        Zones.DetermineZone(c.x + c.width / 2, c.y + c.height / 2, frame.width, frame.height),
        Confidence(c.area),
        SeverityOf(c.area)))
    else
      None
  }

  /** The report of one contour, as a list of zero or one element. */
  function Reported(c: Contour, frame: Frame): seq<Report>
  {
    match Classify(c, frame)
    case Some(r) => [r]
    case None => []
  }

  /** The reports of one pass over a frame's contours, in contour order. */
  function Reports(contours: seq<Contour>, frame: Frame): (rs: seq<Report>)
    ensures |rs| <= |contours|
  {
    if contours == [] then []
    else Reports(contours[..|contours| - 1], frame) + Reported(contours[|contours| - 1], frame)
  }

  /** Every report of a pass has a confidence between 10 and 100 and is
      never of severity High. */
  lemma {:induction false} ReportsAreMotionReports(contours: seq<Contour>, frame: Frame)
    ensures forall r :: r in Reports(contours, frame) ==>
      10 <= r.confidence <= 100 && r.severity != High
  {
    if contours != [] {
      ReportsAreMotionReports(contours[..|contours| - 1], frame);
    }
  }

  /** The reports of a pass are exactly the reports of its qualifying
      contours: each report is some contour's, and each contour above the
      threshold has its report among them. */
  lemma {:induction false} ReportsAreContourReports(contours: seq<Contour>, frame: Frame)
    ensures forall r :: r in Reports(contours, frame) ==>
      exists c :: c in contours && Classify(c, frame) == Some(r)
    ensures forall c :: c in contours && c.area > MotionThreshold ==>
      Classify(c, frame).value in Reports(contours, frame)
  {
    if contours != [] {
      var init := contours[..|contours| - 1];
      var last := contours[|contours| - 1];
      ReportsAreContourReports(init, frame);
      forall r | r in Reports(contours, frame)
        ensures exists c :: c in contours && Classify(c, frame) == Some(r)
      {
        if r in Reports(init, frame) {
          var c :| c in init && Classify(c, frame) == Some(r);
          assert c in contours;
        } else {
          assert Classify(last, frame) == Some(r);
          assert last in contours;
        }
      }
      forall c | c in contours && c.area > MotionThreshold
        ensures Classify(c, frame).value in Reports(contours, frame)
      {
        if c != last {
          assert c in init by {
            var k :| 0 <= k < |contours| && contours[k] == c;
            assert k < |contours| - 1;
            assert init[k] == c;
          }
        }
      }
    }
  }

  /** How many contours exceed the threshold. */
  function CountAbove(contours: seq<Contour>): nat
  {
    if contours == [] then 0
    else CountAbove(contours[..|contours| - 1]) + (if contours[|contours| - 1].area > MotionThreshold then 1 else 0)
  }

  /** One report per contour whose area exceeds the threshold, and no other. */
  lemma {:induction false} ReportsCountAbove(contours: seq<Contour>, frame: Frame)
    ensures |Reports(contours, frame)| == CountAbove(contours)
  {
    if contours != [] {
      ReportsCountAbove(contours[..|contours| - 1], frame);
    }
  }

  /** The reports of the first `i + 1` contours extend those of the first `i`
      by the report of contour `i`, if any. */
  lemma ReportsStep(contours: seq<Contour>, i: nat, frame: Frame)
    requires i < |contours|
    ensures Reports(contours[..i + 1], frame) == Reports(contours[..i], frame) + Reported(contours[i], frame)
  {
    assert contours[..i + 1][..i] == contours[..i];
  }

  /** The pass over contours distributes over concatenation: a frame's contours
      may be handled in any split. */
  lemma {:induction false} ReportsAppend(a: seq<Contour>, b: seq<Contour>, frame: Frame)
    ensures Reports(a + b, frame) == Reports(a, frame) + Reports(b, frame)
    decreases |b|
  {
    if b == [] {
      assert a + b == a;
    } else {
      assert (a + b)[..|a + b| - 1] == a + b[..|b| - 1];
      ReportsAppend(a, b[..|b| - 1], frame);
    }
  }
}
