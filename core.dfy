/** The camera and detection objects of surveillance_core.py: `CameraDebugger`,
    which owns the capture device and the latest frame, and `SurveillanceCore`,
    which runs motion detection over that frame and reports what it finds.
    Device probing, OpenCV calls and threads are outside the model: their
    outcomes are parameters, and a loop of a thread is modelled as one pass. */
module Core {
  import opened Records
  import Zones
  import Motion
  import Feed

  /** A value of the settings dictionary. */
  datatype SettingValue = Number(n: int) | Flag(b: bool) | Names(names: seq<string>)

  type Settings = map<string, SettingValue>

  /** What `get_settings` answers before `update_settings` has ever run. */
  const DefaultSettings: Settings := map[
    "motion_sensitivity" := Number(75),
    "detection_zones" := Names(["Center", "Left", "Right"]),
    "recording_enabled" := Flag(true)]

  /** The dictionary `process_detection` builds and returns. */
  datatype DetectionRecord = DetectionRecord(
    kind: string,
    zone: string,
    confidence: int,
    severity: string,
    timestamp: string)

  /** The record as the callback receives it: every key is present. */
  function DataOf(r: DetectionRecord): (d: Feed.DetectionData)
    ensures d.kind == Some(r.kind) && d.zone == Some(r.zone)
    ensures d.severity == Some(r.severity) && d.confidence == Some(r.confidence)
  {
    Feed.DetectionData(Some(r.kind), Some(r.zone), Some(r.severity), Some(r.confidence))
  }

  /** `dict.update`: the keys of `updates` take their new values, every other
      key keeps its old one, and no key is lost. */
  function MergeSettings(current: Settings, updates: Settings): (r: Settings)
    ensures r.Keys == current.Keys + updates.Keys
    ensures forall k :: k in updates ==> r[k] == updates[k]
    ensures forall k :: k in current && k !in updates ==> r[k] == current[k]
  {
    current + updates
  }

  /** The record `process_detection` makes of one motion report. */
  function RecordOf(report: Motion.Report, now: Clock): (r: DetectionRecord)
    ensures r.kind == Motion.MotionKind && r.timestamp == now.iso
    ensures r.zone == report.zone.Name() && r.confidence == report.confidence
    ensures r.severity == report.severity.Name()
  {
    DetectionRecord(Motion.MotionKind, report.zone.Name(), report.confidence, report.severity.Name(), now.iso)
  }

  /** The records `detection_loop` produces from a pass's reports, in order. */
  function RecordsOf(reports: seq<Motion.Report>, now: Clock): (rs: seq<DetectionRecord>)
    ensures |rs| == |reports|
  {
    if reports == [] then []
    else RecordsOf(reports[..|reports| - 1], now) + [RecordOf(reports[|reports| - 1], now)]
  }

  /** The feed entries the callback makes of a list of records, in order. */
  function EntriesOf(records: seq<DetectionRecord>, now: Clock): (es: seq<Feed.Entry>)
    ensures |es| == |records|
  {
    if records == [] then []
    else EntriesOf(records[..|records| - 1], now) + [Feed.EntryOf(DataOf(records[|records| - 1]), now)]
  }

  /** Record `i` is the record `process_detection` makes of report `i`. */
  lemma {:induction false} RecordsOfPointwise(reports: seq<Motion.Report>, now: Clock)
    ensures forall i :: 0 <= i < |reports| ==> RecordsOf(reports, now)[i] == RecordOf(reports[i], now)
  {
    if reports != [] {
      RecordsOfPointwise(reports[..|reports| - 1], now);
    }
  }

  /** Entry `i` is the callback's entry for record `i`. */
  lemma {:induction false} EntriesOfPointwise(records: seq<DetectionRecord>, now: Clock)
    ensures forall i :: 0 <= i < |records| ==>
      EntriesOf(records, now)[i] == Feed.EntryOf(DataOf(records[i]), now)
  {
    if records != [] {
      EntriesOfPointwise(records[..|records| - 1], now);
    }
  }

  /** The records of two lists of reports are those of each, in order. */
  lemma {:induction false} RecordsOfAppend(a: seq<Motion.Report>, b: seq<Motion.Report>, now: Clock)
    ensures RecordsOf(a + b, now) == RecordsOf(a, now) + RecordsOf(b, now)
    decreases |b|
  {
    if b == [] {
      assert a + b == a;
    } else {
      assert (a + b)[..|a + b| - 1] == a + b[..|b| - 1];
      RecordsOfAppend(a, b[..|b| - 1], now);
    }
  }

  /** One more record pushes one more entry onto the feed. */
  lemma PushOneMore(l: seq<Feed.Entry>, records: seq<DetectionRecord>, rec: DetectionRecord, now: Clock)
    ensures Feed.PushAll(l, EntriesOf(records + [rec], now)) ==
      Feed.BoundedPush(Feed.EntryOf(DataOf(rec), now), Feed.PushAll(l, EntriesOf(records, now)))
  {
    assert (records + [rec])[..|records|] == records;
    var es := EntriesOf(records + [rec], now);
    assert es == EntriesOf(records, now) + [Feed.EntryOf(DataOf(rec), now)];
    assert es[..|es| - 1] == EntriesOf(records, now);
  }

  class CameraDebugger {
    /** The capture loop is (to be) running. */
    var running: bool
    /** `self.cap` is set and open. */
    var deviceOpen: bool
    /** The newest frame read, kept after the camera stops. */
    var currentFrame: Option<Frame>

    constructor ()
      ensures !running && !deviceOpen && currentFrame == None
    {
      running := false;
      deviceOpen := false;
      currentFrame := None;
    }

    /** `start_camera`. `found` is whether probing found a working source and
        `initialized` whether initializing it succeeded. An already running camera
        is left alone and reported as started. */
    method StartCamera(found: bool, initialized: bool) returns (ok: bool)
      modifies this
      ensures old(running) ==> ok && unchanged(this)
      ensures !old(running) ==> ok == (found && initialized) && running == ok
      ensures !old(running) && found ==> deviceOpen == initialized
      ensures !old(running) && !found ==> deviceOpen == old(deviceOpen)
      ensures currentFrame == old(currentFrame)
    {
      if running {
        return true;
      }
      if !found {
        return false;
      }
      deviceOpen := initialized;
      if !initialized {
        return false;
      }
      running := true;
      return true;
    }

    /** `stop_camera`: the loop stops and the device is released; the last
        frame stays readable. */
    method StopCamera()
      modifies this
      ensures !running && !deviceOpen
      ensures currentFrame == old(currentFrame)
      ensures !IsCameraWorking()
    {
      running := false;
      deviceOpen := false;
    }

    /** One pass of `camera_loop`. `stillOpen` is what `cap.isOpened()`
        answered at the start of the pass (the device can be lost while the
        loop runs), `reopened` whether re-initializing a lost device
        succeeded, `read` what `cap.read()` returned. */
    method CaptureStep(stillOpen: bool, reopened: bool, read: Option<Frame>)
      modifies this
      ensures running == old(running)
      ensures !old(running) ==> unchanged(this)
      ensures old(running) ==> deviceOpen == ((old(deviceOpen) && stillOpen) || reopened)
      ensures old(running) && deviceOpen && read.Some? ==> currentFrame == read && IsCameraWorking()
      ensures !(old(running) && deviceOpen && read.Some?) ==> currentFrame == old(currentFrame)
    {
      if !running {
        return;
      }
      if !deviceOpen || !stillOpen {
        deviceOpen := reopened;
        if !reopened {
          return;
        }
      }
      if read.Some? {
        currentFrame := read;
      }
    }

    /** `is_camera_working`: a working camera has a frame to give, and a
        stopped one never counts as working. */
    predicate IsCameraWorking()
      reads this
      ensures IsCameraWorking() ==> currentFrame.Some?
      ensures !running ==> !IsCameraWorking()
    {
      running && currentFrame.Some?
    }
  }

  class SurveillanceCore {
    const camera: CameraDebugger
    /** The detection loop is (to be) running. */
    var running: bool
    /** The newest annotated frame. */
    var processedFrame: Option<Frame>
    /** `self.settings`, absent until the first `update_settings`. */
    var settings: Option<Settings>
    /** The detection callback; in the application it is the live feed's. */
    var callback: Feed.LiveFeed?

    constructor ()
      ensures fresh(camera)
      ensures !camera.running && !camera.deviceOpen && camera.currentFrame == None
      ensures !running && processedFrame == None && settings == None && callback == null
    {
      camera := new CameraDebugger();
      running := false;
      processedFrame := None;
      settings := None;
      callback := null;
    }

    /** `set_detection_callback`. */
    method SetDetectionCallback(feed: Feed.LiveFeed?)
      modifies this
      ensures callback == feed
      ensures running == old(running) && processedFrame == old(processedFrame) && settings == old(settings)
    {
      callback := feed;
    }

    /** `is_running`: detection runs and the camera delivers frames. Whenever
        it holds, `get_processed_frame` has a frame to give, so the stream
        never fetches a missing frame. */
    predicate IsRunning()
      reads this, camera
      ensures IsRunning() ==> running && camera.IsCameraWorking()
      ensures IsRunning() ==> GetProcessedFrame().Some?
    {
      running && camera.IsCameraWorking()
    }

    /** `get_processed_frame`: the annotated frame once there is one, else the
        raw frame. */
    function GetProcessedFrame(): (f: Option<Frame>)
      reads this, camera
      ensures processedFrame.Some? ==> f == processedFrame
      ensures processedFrame.None? ==> f == camera.currentFrame
      ensures f.None? <==> processedFrame.None? && camera.currentFrame.None?
    {
      if processedFrame.Some? then processedFrame else camera.currentFrame
    }

    /** `get_system_status`. */
    function SystemStatus(now: Clock): (s: SystemStatus)
      reads this, camera
      ensures s.running <==> running && camera.running && camera.currentFrame.Some?
      ensures s.cameraConnected <==> camera.running && camera.currentFrame.Some?
      ensures s.detectionActive == running
      ensures s.running <==> s.cameraConnected && s.detectionActive
      ensures s.lastUpdate == FormatStamp(now.iso)
    {
      Records.SystemStatus(IsRunning(), camera.IsCameraWorking(), running, FormatStamp(now.iso))
    }

    /** `get_settings`. */
    function GetSettings(): (s: Settings)
      reads this
      ensures settings.None? ==> s == DefaultSettings
      ensures settings.Some? ==> s == settings.value
    {
      if settings.Some? then settings.value else DefaultSettings
    }

    /** `update_settings`. The first update starts from an empty dictionary, so
        the defaults `get_settings` showed before are not kept. */
    method UpdateSettings(updates: Settings)
      modifies this
      ensures settings == Some(MergeSettings(if old(settings).Some? then old(settings).value else map[], updates))
      ensures old(settings) == None ==> GetSettings() == updates
      ensures running == old(running) && processedFrame == old(processedFrame) && callback == old(callback)
    {
      var current := if settings.Some? then settings.value else map[];
      settings := Some(MergeSettings(current, updates));
    }

    /** `process_detection`: build the record and hand it to the callback. The
        callback cannot fail here, so nothing escapes. */
    method ProcessDetection(kind: string, zone: string, confidence: int, severity: string, now: Clock)
      returns (record: DetectionRecord)
      modifies callback
      ensures record.kind == kind && record.zone == zone
      ensures record.confidence == confidence && record.severity == severity
      ensures record.timestamp == now.iso
      ensures callback != null ==>
        callback.detections == Feed.BoundedPush(Feed.EntryOf(DataOf(record), now), old(callback.detections))
      ensures callback != null ==>
        callback.stats == old(callback.stats).(alertsToday := old(callback.stats.alertsToday) + 1)
    {
      record := DetectionRecord(kind, zone, confidence, severity, now.iso);
      if callback != null {
        callback.OnDetection(DataOf(record), now);
      }
    }

    /** The body of the `for contour in contours` loop for one contour: a
        contour above the threshold goes through `process_detection`. */
    method ReportContour(c: Motion.Contour, frame: Frame, now: Clock)
      returns (reported: seq<DetectionRecord>)
      modifies callback
      ensures reported == RecordsOf(Motion.Reported(c, frame), now)
      ensures callback != null && reported == [] ==>
        callback.detections == old(callback.detections) && callback.stats == old(callback.stats)
      ensures callback != null && reported != [] ==>
        callback.detections == Feed.BoundedPush(Feed.EntryOf(DataOf(reported[0]), now), old(callback.detections))
      ensures callback != null && reported != [] ==>
        callback.stats == old(callback.stats).(alertsToday := old(callback.stats.alertsToday) + 1)
    {
      var report := Motion.Classify(c, frame);
      if report.Some? {
        var r := report.value;
        var rec := ProcessDetection(Motion.MotionKind, r.zone.Name(), r.confidence, r.severity.Name(), now);
        assert [r][..0] == [];
        reported := [rec];
      } else {
        reported := [];
      }
    }

    /** The `for contour in contours` loop of `detection_loop` over a frame. */
    method ReportContours(contours: seq<Motion.Contour>, frame: Frame, now: Clock)
      returns (records: seq<DetectionRecord>)
      modifies callback
      ensures records == RecordsOf(Motion.Reports(contours, frame), now)
      ensures callback != null ==>
        callback.detections == Feed.PushAll(old(callback.detections), EntriesOf(records, now))
      ensures callback != null ==>
        callback.stats == old(callback.stats).(alertsToday := old(callback.stats.alertsToday) + |records|)
    {
      var feed := callback;
      records := [];
      ghost var reports: seq<Motion.Report> := [];
      var i := 0;
      while i < |contours|
        invariant 0 <= i <= |contours|
        invariant reports == Motion.Reports(contours[..i], frame)
        invariant records == RecordsOf(reports, now)
        invariant feed != null ==> feed.detections == Feed.PushAll(old(feed.detections), EntriesOf(records, now))
        invariant feed != null ==>
          feed.stats == old(feed.stats).(alertsToday := old(feed.stats.alertsToday) + |records|)
      {
        Motion.ReportsStep(contours, i, frame);
        var reported := ReportContour(contours[i], frame, now);
        RecordsOfAppend(reports, Motion.Reported(contours[i], frame), now);
        if reported == [] {
          assert records + reported == records;
        } else {
          assert records + reported == records + [reported[0]];
          if feed != null {
            PushOneMore(old(feed.detections), records, reported[0], now);
            assert feed.detections == Feed.PushAll(old(feed.detections), EntriesOf(records + reported, now));
          }
        }
        records := records + reported;
        reports := reports + Motion.Reported(contours[i], frame);
        i := i + 1;
      }
      assert contours[..i] == contours;
    }

    /** One pass of `detection_loop`. `contours` are what the background
        subtractor found in the current frame and `annotated` that frame with
        the overlays drawn. Without a frame the pass does nothing. */
    method DetectionTick(contours: seq<Motion.Contour>, annotated: Frame, now: Clock)
      returns (records: seq<DetectionRecord>)
      modifies this, callback
      ensures callback == old(callback) && running == old(running) && settings == old(settings)
      ensures !(running && camera.currentFrame.Some?) ==>
        records == [] && processedFrame == old(processedFrame) &&
        (callback != null ==> callback.detections == old(callback.detections) && callback.stats == old(callback.stats))
      ensures running && camera.currentFrame.Some? ==>
        processedFrame == Some(annotated) &&
        records == RecordsOf(Motion.Reports(contours, camera.currentFrame.value), now)
      ensures running && camera.currentFrame.Some? && callback != null ==>
        callback.detections == Feed.PushAll(old(callback.detections), EntriesOf(records, now)) &&
        callback.stats == old(callback.stats).(alertsToday := old(callback.stats.alertsToday) + |records|)
    {
      if !running || camera.currentFrame.None? {
        return [];
      }
      records := ReportContours(contours, camera.currentFrame.value, now);
      processedFrame := Some(annotated);
    }

    /** `start_surveillance`: refused (False, nothing changed) when already
        running; otherwise starts the camera and, if that works, detection. */
    method StartSurveillance(found: bool, initialized: bool) returns (ok: bool)
      modifies this, camera
      ensures old(running) ==> !ok && unchanged(this) && unchanged(camera)
      ensures !old(running) ==> ok == (old(camera.running) || (found && initialized))
      ensures !old(running) ==> running == ok && camera.running == ok
      ensures !old(running) && old(camera.running) ==> unchanged(camera)
      ensures !old(running) && !old(camera.running) && found ==> camera.deviceOpen == initialized
      ensures !old(running) && !found ==> camera.deviceOpen == old(camera.deviceOpen)
      ensures processedFrame == old(processedFrame) && settings == old(settings) && callback == old(callback)
      ensures camera.currentFrame == old(camera.currentFrame)
    {
      if running {
        return false;
      }
      var started := camera.StartCamera(found, initialized);
      if !started {
        return false;
      }
      running := true;
      return true;
    }

    /** `stop_surveillance`: detection and camera stop; frames already taken
        stay readable. */
    method StopSurveillance()
      modifies this, camera
      ensures !running && !camera.running && !camera.deviceOpen
      ensures !IsRunning()
      ensures processedFrame == old(processedFrame) && settings == old(settings) && callback == old(callback)
      ensures camera.currentFrame == old(camera.currentFrame)
    {
      running := false;
      camera.StopCamera();
    }
  }
}
