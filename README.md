# Smart surveillance: motion reports and the live detection feed

This project models the two files at the heart of the smartsurveillance
application and proves properties of the model in Dafny:

- `surveillance_core.py` holds two objects.
  - `CameraDebugger` owns the capture device and the newest frame.
  - `SurveillanceCore` runs motion detection over that frame. It places each
    moving blob in a 3 x 2 grid of named zones, gives the blob a confidence
    and a severity, builds a detection record and hands it to a callback.
- `app.py` is the Flask layer. Its module-level state is the live feed:
  - `live_detections`, a list that is newest first and bounded to 100;
  - `live_stats`, a dictionary of counts.

  The app's detection callback fills that state, and a stats thread refreshes
  the counts. The `/status`, `/recent_alerts` and `/logs` views read it.
  `generate_frames` streams video and counts consecutive failures.

The modules follow the program's structure:

| module | file | what it holds |
|---|---|---|
| `Records` | `records.dfy` | values shared by both files: frames, clock readings, the system status, the `%Y-%m-%d %H:%M:%S` timestamp text |
| `Zones` | `zones.dfy` | `determine_zone` and its grid |
| `Motion` | `motion.dfy` | the per-contour rule of `detection_loop`: threshold, confidence, severity and zone |
| `Feed` | `feed.dfy` | the live feed as a class `LiveFeed`; the stats refresh; the views |
| `Stream` | `stream.dfy` | the failure counter of `generate_frames`, as a step function with a method that loops over it |
| `Core` | `core.dfy` | the classes `CameraDebugger` and `SurveillanceCore`, the settings dictionary and the detection records |

Code that only computes is modelled by functions and lemmas. Code that
updates fields or loops is modelled by classes and methods with `modifies`
clauses and loop invariants:
- the camera and core objects;
- the feed's list and counts;
- the `for contour in contours` loop;
- the frame generator's loop;
- the loop that builds the `/logs` rows.

The methods that compute a result or run a loop are proved against a function
that specifies them, and the properties of that function are proved as
lemmas. These are `ReportContours`, `DetectionTick`, `GenerateFrames`,
`Logs`, `OnDetection` and `RefreshStats`. The methods that only switch the
camera and the core on or off state their new fields directly. These are
`StartCamera`, `StopCamera`, `CaptureStep`, `SetDetectionCallback`,
`StartSurveillance`, `StopSurveillance` and `Clear`.

Several outside results enter the model as parameters:
- the device probe and initialisation results;
- the contours the background subtractor finds and the annotated frame;
- what the JPEG encoder answers;
- the wall clock, as a `Clock` reading that holds local seconds and the
  matching `isoformat()` and `%H:%M:%S` texts.

The repository also contains a second detector that the two modelled files
do not use. In that detector:
- `Flask application/surveillance_core.py:140-145` checks detections
  against the polygons of `config.RESTRICTED_ZONES`;
- `detection module/alert_system.py:20-31` suppresses repeated alerts with
  `ALERT_COOLDOWN`.

`surveillance_core.py` and `app.py` do neither. This model follows those two
files: a fixed grid of six zones, an area threshold, and no cooldown.

In the application, the stream's error frame "Camera Connection Lost" is
never sent, and the missing-frame branch of `generate_frames` is never taken:
- `generate_frames` fetches a frame only after `is_running()` holds
  (app.py:152, 162);
- `is_running()` requires a current frame (surveillance_core.py:181, 208);
- no code sets the current or processed frame back to None.

`Core.SurveillanceCore.IsRunning` proves that a running core always has a
frame to give. `Stream.NoConnectionLostWithFrames` proves that passes whose
fetched frames are all present never send the error frame, and that they
leave the counter at 0 or 1 after each fetch. `Stream.Step` still models
the branch as written, for a core whose frame could be missing.

`update_settings` starts from an empty dictionary the first time it runs. So
the defaults that `get_settings` showed before are not carried over.
`Core.SurveillanceCore.UpdateSettings` states exactly this.

## Model

| member | source | states |
|---|---|---|
| `Records.ReplaceT` | app.py:245 | same length; every 'T' becomes a space and every other character is kept in place |
| `Records.FormatStamp` | app.py:245 | the shown timestamp is the first 19 characters, or fewer for a shorter text, with each 'T' turned into a space and every other character kept in place; so it contains no 'T' |
| `Zones.DetermineZone` | surveillance_core.py:317-335 | always one of the six cells, including for points outside the frame; left column iff x < w//3, centre iff w//3 <= x < 2*w//3, right otherwise; top row iff y < h//2, bottom otherwise |
| `Zones.NamesAreDistinct` | surveillance_core.py:321-335 | the six zone names are pairwise different, so a name identifies its cell |
| `Zones.GridIsMonotone` | surveillance_core.py:321-335 | moving a point right or down never moves it to a column further left or a row further up; the column depends on x alone and the row on y alone |
| `Motion.Confidence` | surveillance_core.py:290 | never above 100; exactly 100 iff the area is at least 10000; below that it is the whole number of hundreds in the area |
| `Motion.SeverityOf` | surveillance_core.py:295 | Medium iff the area exceeds 5000, otherwise Low |
| `Motion.Classify` | surveillance_core.py:278-296 | a contour is reported iff its area exceeds the threshold 1000; a report has confidence between 10 and 100; it is never High and is Medium iff the area exceeds 5000; its zone is that of the bounding-box centre (x + w//2, y + h//2) |
| `Motion.Reports` | surveillance_core.py:278-296 | a pass over the contours never yields more reports than contours |
| `Motion.ReportsStep` | surveillance_core.py:278-296 | handling one more contour appends exactly that contour's report, if it has one |
| `Motion.ReportsAreMotionReports` | surveillance_core.py:290-295 | every report of a pass has a confidence between 10 and 100 and is never High |
| `Motion.ReportsAreContourReports` | surveillance_core.py:278-296 | every report of a pass is the report of one of its contours, and every contour above the threshold has its report among them |
| `Motion.ReportsCountAbove` | surveillance_core.py:278-281 | a pass yields exactly one report per contour whose area exceeds the threshold |
| `Motion.ReportsAppend` | surveillance_core.py:278-296 | the reports of a concatenation are the reports of each part, in order |
| `Feed.EntryOf` | app.py:32-39 | each field of the callback's dictionary is copied when present; a missing one takes its default ('Unknown', 'Unknown', 'Low', 0); the entry carries the call's time |
| `Feed.BoundedPush` | app.py:41-45 | after inserting at the front and truncating, the new entry is first, the length is min(n+1, 100), and the previous entries follow in their order with only the oldest dropped |
| `Feed.PushAll` | app.py:27-48 | after several callbacks on a list of at most 100, the list holds min(n + k, 100) entries and starts with the last entry pushed |
| `Feed.PushAllNewestFirst` | app.py:41-45 | after several callbacks the list is the pushed entries newest first, followed by the entries held before, cut to the newest 100 |
| `Feed.TodayWithinWeek` | app.py:57-66 | the number of entries dated today is at most the number newer than a week ago, which is at most the list's length |
| `Feed.Window` | app.py:69 | the zone window holds the zones of the newest min(50, n) entries, in order |
| `Feed.Occurrences` | app.py:73 | a zone's count is at most the list's length and is positive iff the zone occurs |
| `Feed.MostCommon` | app.py:71 | the chosen zone occurs in the list and no zone occurs more often |
| `Feed.RefreshedStats` | app.py:55-73 | an empty list leaves the stats unchanged; otherwise today's and the week's counts are those of the entries, with today <= week <= n; the most active zone is in the window of the newest 50 and no zone there occurs more often; its count is between 1 and 50 |
| `Feed.StatusLogEntry` | app.py:235-240 | the status row has level INFO and the current time as its timestamp |
| `Feed.DetectionLogEntry` | app.py:244-249 | a detection row is a WARNING iff the severity is 'High' and INFO otherwise; its timestamp is the entry's ISO text shortened to 19 characters with 'T' replaced |
| `Feed.LiveFeed.constructor` | app.py:19-25 | the feed starts empty with zero counts and most active zone 'None' |
| `Feed.LiveFeed.OnDetection` | app.py:27-48 | the list becomes the bounded push of the new entry; `alerts_today` grows by exactly one and nothing else in the stats changes |
| `Feed.LiveFeed.RefreshStats` | app.py:51-78 | the list is untouched and the stats become the refreshed stats of the list at the given time |
| `Feed.LiveFeed.Clear` | app.py:274-286 | the list is emptied and the stats are reset to zeros and 'None' |
| `Feed.LiveFeed.RecentAlerts` | app.py:141-143 | the newest min(10, n) entries, in order |
| `Feed.LiveFeed.Status` | app.py:127-139 | the system status, extended with the current time, detection_count = n, alert_count = alerts_today, and the head entry as last_detection (None iff the list is empty) |
| `Feed.LiveFeed.Logs` | app.py:229-251 | one status row followed by one row per entry among the newest 20, in order; each row is that entry's log row |
| `Stream.Step` | app.py:150-189 | idle passes leave the counter alone; a delivered frame resets it to 0; a present frame that fails to encode or raises leaves it at 1; a missing frame or an exception before the counter is touched adds one; past 10 the pass sends exactly one error frame if it encodes and nothing otherwise, and the counter resets, unless rendering it raises, which counts the pass twice; the error frame is sent iff a missing frame finds the counter at 10 or more and the error frame encodes |
| `Stream.CounterBoundedByFailures` | app.py:163-187 | the counter never exceeds the number of failing passes since the last delivered frame, unless more than 10 such passes have already happened |
| `Stream.ConnectionLostNeedsElevenFailures` | app.py:176-183 | the error frame is sent only after more than 10 failing passes without a delivered frame |
| `Stream.NoConnectionLostWithFrames` | app.py:152-183 | when every fetched frame is present, as it is whenever the core runs, the error frame is never sent and a fetching pass leaves the counter at 0 or 1 |
| `Stream.GenerateFrames` | app.py:145-189 | the loop yields exactly the chunks, and ends with the counter, of running the passes in order; the counter is bounded by the failures since the last live frame unless more than 10 have happened |
| `Core.DataOf` | surveillance_core.py:242-253 | the dictionary the callback receives has every key present, with the record's values |
| `Core.MergeSettings` | surveillance_core.py:237 | `dict.update`: the keys are the union; updated keys take their new values and all other keys keep theirs |
| `Core.RecordOf` | surveillance_core.py:242-248 | the record of a motion report has type 'Motion Detected', the report's zone name, confidence and severity name, and the call's ISO time |
| `Core.RecordsOf` | surveillance_core.py:291-296 | one record per report of the pass |
| `Core.RecordsOfPointwise` | surveillance_core.py:291-296 | record i is the record `process_detection` makes of report i |
| `Core.EntriesOf` | surveillance_core.py:251-253 | one feed entry per record |
| `Core.EntriesOfPointwise` | app.py:32-39 | entry i is the callback's entry for record i |
| `Core.RecordsOfAppend` | surveillance_core.py:278-296 | the records of concatenated reports are the records of each part, in order |
| `Core.PushOneMore` | app.py:41-45 | one more record pushes exactly one more entry onto the feed |
| `Core.CameraDebugger.constructor` | surveillance_core.py:8-12 | a new camera is stopped, has no device and no frame |
| `Core.CameraDebugger.StartCamera` | surveillance_core.py:133-160 | an already running camera reports success and changes nothing; otherwise it starts iff a source is found and initialises, and a failed probe leaves the device alone |
| `Core.CameraDebugger.StopCamera` | surveillance_core.py:162-173 | the camera stops, releases the device, keeps its last frame, and no longer counts as working |
| `Core.CameraDebugger.CaptureStep` | surveillance_core.py:95-131 | a stopped camera changes nothing; a device that is missing or that `isOpened()` reports lost is reopened or the pass ends; a frame that was read becomes the current frame and the camera counts as working; a failed read keeps the old frame |
| `Core.CameraDebugger.IsCameraWorking` | surveillance_core.py:179-181 | a working camera has a frame to give, and a stopped camera never counts as working |
| `Core.SurveillanceCore.constructor` | surveillance_core.py:185-195 | a new core is stopped, with a fresh stopped camera, no frames, no settings and no callback |
| `Core.SurveillanceCore.SetDetectionCallback` | surveillance_core.py:202-204 | the callback is replaced and nothing else changes |
| `Core.SurveillanceCore.IsRunning` | surveillance_core.py:206-214 | the system runs only while detection runs and the camera works, and then `get_processed_frame` always has a frame to give |
| `Core.SurveillanceCore.GetProcessedFrame` | surveillance_core.py:210-214 | the annotated frame when there is one, else the raw frame; none only when neither exists |
| `Core.SurveillanceCore.SystemStatus` | surveillance_core.py:206-223 | camera_connected iff the camera runs and has a frame; detection_active iff the core runs; running iff both hold |
| `Core.SurveillanceCore.GetSettings` | surveillance_core.py:225-231 | the defaults (sensitivity 75, zones Center/Left/Right, recording on) until settings exist, afterwards the stored settings |
| `Core.SurveillanceCore.UpdateSettings` | surveillance_core.py:233-238 | the stored settings become the old ones, or an empty map the first time, updated with the new keys; after a first update `get_settings` answers exactly the update |
| `Core.SurveillanceCore.ProcessDetection` | surveillance_core.py:240-257 | the record carries its arguments and the call's ISO time; with a callback set, the feed receives exactly that record's entry and its day count grows by one |
| `Core.SurveillanceCore.ReportContour` | surveillance_core.py:278-296 | one contour yields its record iff it is reported, and the feed gains that record's entry and nothing else |
| `Core.SurveillanceCore.ReportContours` | surveillance_core.py:278-296 | the records of one frame are those of the pass's reports, in contour order; the feed receives their entries in that order and its day count grows by their number |
| `Core.SurveillanceCore.DetectionTick` | surveillance_core.py:259-315 | without a running core or a frame nothing happens; otherwise the frame's contours are reported as above and the annotated frame becomes the processed frame |
| `Core.SurveillanceCore.StartSurveillance` | surveillance_core.py:337-359 | an already running core answers False and changes nothing; otherwise detection starts iff the camera starts (or already ran); a camera already running is left untouched; otherwise its device is open iff a source was found and initialised, and a failed probe leaves the device alone |
| `Core.SurveillanceCore.StopSurveillance` | surveillance_core.py:361-374 | detection and camera stop and the device is released; frames already taken stay readable; the system no longer counts as running |

## Left out

- Motion.Confidence: the area is a whole number and confidence is computed exactly as area // 100, capped at 100. `contourArea` returns a float and `int((area / 10000) * 100)` can round down by one (for area 5700 the float product is just below 57), so the source may report one less than the model.
- Feed.MostCommon: which zone `max(set(zones), key=zones.count)` picks among zones tied for the greatest count depends on set iteration order, so only that the chosen zone occurs and has the greatest count is stated.
- Feed.StatusLogEntry: the contract states the row's level and timestamp but not its message and details texts, which the function builds as the source does.
- Feed.DetectionLogEntry: the contract does not state the message and details texts, which the function builds from the entry's type, zone, confidence and severity as the source does.
- Camera probing and initialisation (`test_camera_sources`, `initialize_camera`) talk to devices and backends; their outcomes are the `found` and `initialized` parameters of `StartCamera` and `stillOpen`, `reopened` and `read` of `CaptureStep`.
- Threads, `join` with timeouts, daemon loops and every `time.sleep` are left out; each loop (`camera_loop`, `detection_loop`, `update_stats_periodically`, `generate_frames`) is modelled one pass at a time, and interleavings between them are not.
- OpenCV image work (background subtraction, `findContours`, `contourArea`, `boundingRect`, drawing the overlays, JPEG encoding, `create_no_camera_frame`, `create_error_frame`) is a foreign library on pixels; contours, the annotated frame and the encoder's success are inputs, and chunks stand for the encoded images.
- The FPS measurement and printing in `camera_loop` only prints; all console output is left out.
- Wall-clock time (`datetime.now`, `isoformat`, `strftime`, `fromisoformat`) is a `Clock` parameter; its texts are taken to describe the same instant, and a day is local seconds divided by 86400.
- Exceptions inside `detection_loop` and the callback are not modelled: the callback of the model cannot fail, so the `try` in `process_detection` has nothing to catch. In `generate_frames` an exception is modelled where it changes the counter: before the counter is touched (`Raised`), while encoding a present frame (`Threw` for `encode`), or while rendering the error frame (`Threw` for `errorRender`).
- Clock readings are whole seconds. app.py:63-65 compares datetimes to the microsecond, so an entry less than a second past the week's cutoff can count in the source and not in the model. For example, with the entry at 100.9 s and now at 604900.5 s, 100.9 > 100.5 holds in the source, but 100 > 100 fails in the model.
- One `Clock` reading stands for all the `datetime.now()` calls of one operation. Those are the calls of surveillance_core.py:247 and app.py:33 and 38, with one per qualifying contour in a pass of `detection_loop`; the two readings of the stats refresh at app.py:57 and 63, which `RefreshStats` takes as one `now`; and the `strftime` texts of app.py:132 and 236 and surveillance_core.py:222, which the model renders as `FormatStamp(now.iso)`. The source reads the clock each time, so its entries of one pass can differ by microseconds.
- `process_detection`'s default `severity='Low'` (surveillance_core.py:240) is not modelled, since its only caller always passes a severity.
- Core.CameraDebugger.IsCameraWorking: the contract states the two consequences the rest of the model uses, that a working camera has a frame and a stopped one is not working; the definition itself is the conjunction at surveillance_core.py:181.
- The `config` dictionary passed to `SurveillanceCore` is stored and never read, so it is not modelled.
- `test_camera_standalone`, the `__main__` blocks and the Flask plumbing (routes `index`, `test_camera`, `settings`, `save_settings`, `debug`, `video_feed`, flash messages, redirects and templates) are not part of this model. The start route's two calls are `SetDetectionCallback` followed by `StartSurveillance`.
- database.py, config.py, test_flask.py and the other directories of the repository are not part of this model.
