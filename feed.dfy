/** The web layer's live detection feed (app.py): the module-level list
    `live_detections`, newest first and bounded, and the dictionary
    `live_stats`, with the callback that fills them, the periodic refresh of
    the counts, and the read-only views the routes serve. */
module Feed {
  import opened Records

  /** `live_detections` keeps at most this many entries. */
  const MaxDetections: nat := 100
  /** `/recent_alerts` shows this many entries. */
  const RecentLimit: nat := 10
  /** `/logs` shows this many detections. */
  const LogLimit: nat := 20
  /** The most active zone is taken among this many newest entries. */
  const ZoneWindow: nat := 50
  const SecondsPerDay: nat := 86400
  const WeekSeconds: nat := 7 * 86400

  const Unknown: string := "Unknown"
  const NoZone: string := "None"
  const Info: string := "INFO"
  const Warning: string := "WARNING"

  /** The dictionary handed to `detection_callback`; a key may be missing. */
  datatype DetectionData = DetectionData(
    kind: Option<string>,
    zone: Option<string>,
    severity: Option<string>,
    confidence: Option<int>)

  /** One entry of `live_detections`. `stamp.iso` is its 'timestamp' text. */
  datatype Entry = Entry(
    time: string,
    kind: string,
    zone: string,
    severity: string,
    confidence: int,
    stamp: Clock)

  /** The dictionary `live_stats`. */
  datatype Stats = Stats(
    alertsToday: int,
    alertsWeek: int,
    mostActiveZone: string,
    zoneActivityCount: int)

  const InitialStats: Stats := Stats(0, 0, NoZone, 0)

  /** The JSON body of `/status`. */
  datatype StatusReport = StatusReport(
    system: SystemStatus,
    currentTime: string,
    detectionCount: nat,
    alertCount: int,
    lastDetection: Option<Entry>)

  /** One row of the `/logs` page. */
  datatype LogEntry = LogEntry(timestamp: string, level: string, message: string, details: string)

  /** The entry `detection_callback` builds: each missing key takes its
      default ('Unknown', 'Unknown', 'Low', 0). */
  function EntryOf(data: DetectionData, now: Clock): (e: Entry)
    ensures data.kind.Some? ==> e.kind == data.kind.value
    ensures data.kind.None? ==> e.kind == Unknown
    ensures data.zone.Some? ==> e.zone == data.zone.value
    ensures data.zone.None? ==> e.zone == Unknown
    ensures data.severity.Some? ==> e.severity == data.severity.value
    ensures data.severity.None? ==> e.severity == "Low"
    ensures data.confidence.Some? ==> e.confidence == data.confidence.value
    ensures data.confidence.None? ==> e.confidence == 0
    ensures e.time == now.hms && e.stamp == now
  {
    Entry(
      now.hms,
      if data.kind.Some? then data.kind.value else Unknown,
      if data.zone.Some? then data.zone.value else Unknown,
      if data.severity.Some? then data.severity.value else "Low",
      if data.confidence.Some? then data.confidence.value else 0,
      now)
  }

  /** `insert(0, e)` followed by truncation to the newest 100: the new entry
      comes first, the previous entries follow in order, and only the oldest
      beyond the bound are dropped. */
  function BoundedPush(e: Entry, l: seq<Entry>): (r: seq<Entry>)
    ensures |r| == Min(|l| + 1, MaxDetections)
    ensures r[0] == e
    ensures r[1..] == l[..|r| - 1]
  {
    var grown := [e] + l;
    assert grown[1..] == l;
    if |grown| > MaxDetections then grown[..MaxDetections] else grown
  }

  /** Several callbacks in a row, the last element of `es` pushed last. */
  function PushAll(l: seq<Entry>, es: seq<Entry>): (r: seq<Entry>)
    ensures |l| <= MaxDetections ==> |r| == Min(|l| + |es|, MaxDetections)
    ensures es != [] ==> |r| > 0 && r[0] == es[|es| - 1]
  {
    if es == [] then l else BoundedPush(es[|es| - 1], PushAll(l, es[..|es| - 1]))
  }

  /** `s` in reverse order. */
  function Reversed(s: seq<Entry>): (r: seq<Entry>)
    ensures |r| == |s|
  {
    if s == [] then [] else [s[|s| - 1]] + Reversed(s[..|s| - 1])
  }

  /** After several callbacks the list holds the pushed entries newest first,
      followed by the entries it held before, cut to the newest 100. */
  lemma {:induction false} PushAllNewestFirst(l: seq<Entry>, es: seq<Entry>)
    requires |l| <= MaxDetections
    ensures PushAll(l, es) == (Reversed(es) + l)[..Min(|l| + |es|, MaxDetections)]
  {
    if es != [] {
      var init := es[..|es| - 1];
      PushAllNewestFirst(l, init);
      var prev := PushAll(l, init);
      var r := PushAll(l, es);
      var target := (Reversed(es) + l)[..Min(|l| + |es|, MaxDetections)];
      assert Reversed(es) == [es[|es| - 1]] + Reversed(init);
      assert |r| == |target|;
      forall i | 0 <= i < |r|
        ensures r[i] == target[i]
      {
        if i > 0 {
          assert r[i] == r[1..][i - 1];
        }
      }
    }
  }

  /** The calendar day of a local time in seconds (`.date()`). */
  function DayOf(seconds: int): int
  {
    seconds / SecondsPerDay
  }

  /** How many entries are dated `day`. */
  function CountOnDay(l: seq<Entry>, day: int): nat
  {
    if l == [] then 0
    else (if DayOf(l[0].stamp.seconds) == day then 1 else 0) + CountOnDay(l[1..], day)
  }

  /** How many entries are strictly newer than `cutoff`. */
  function CountAfter(l: seq<Entry>, cutoff: int): nat
  {
    if l == [] then 0
    else (if l[0].stamp.seconds > cutoff then 1 else 0) + CountAfter(l[1..], cutoff)
  }

  /** An entry dated today is newer than a week ago, so today's count never
      exceeds the week's, which never exceeds the list's length. */
  lemma {:induction false} TodayWithinWeek(l: seq<Entry>, now: int)
    ensures CountOnDay(l, DayOf(now)) <= CountAfter(l, now - WeekSeconds) <= |l|
  {
    if l != [] {
      var s := l[0].stamp.seconds;
      if DayOf(s) == DayOf(now) {
        assert s >= DayOf(now) * SecondsPerDay;
        assert now < (DayOf(now) + 1) * SecondsPerDay;
      }
      TodayWithinWeek(l[1..], now);
    }
  }

  /** `[d['zone'] for d in live_detections[:50]]`: the zones of the newest
      50 entries, in order. */
  function Window(l: seq<Entry>): (zs: seq<string>)
    ensures |zs| == Min(ZoneWindow, |l|)
    ensures forall i :: 0 <= i < |zs| ==> zs[i] == l[i].zone
  {
    seq(Min(ZoneWindow, |l|), i requires 0 <= i < Min(ZoneWindow, |l|) => l[i].zone)
  }

  /** `zones.count(z)`. */
  function Occurrences(zs: seq<string>, z: string): (n: nat)
    ensures n <= |zs|
    ensures n > 0 <==> z in zs
  {
    if zs == [] then 0 else (if zs[0] == z then 1 else 0) + Occurrences(zs[1..], z)
  }

  /** A zone of greatest count: what `max(set(zones), key=zones.count)` returns,
      up to the choice among tied zones. */
  function MostCommon(zs: seq<string>): (r: string)
    requires zs != []
    ensures r in zs
    ensures forall z :: Occurrences(zs, z) <= Occurrences(zs, r)
  {
    if |zs| == 1 then
      assert forall z :: Occurrences(zs, z) == (if z == zs[0] then 1 else 0) by {
        assert zs[1..] == [];
      }
      zs[0]
    else
      var m := MostCommon(zs[1..]);
      if Occurrences(zs, zs[0]) >= Occurrences(zs, m) then zs[0] else m
  }

  /** One run of the body of `update_stats_periodically`, at clock reading `now`. */
  function RefreshedStats(l: seq<Entry>, now: Clock, s: Stats): (r: Stats)
    ensures l == [] ==> r == s
    ensures l != [] ==> r.alertsToday == CountOnDay(l, DayOf(now.seconds))
    ensures l != [] ==> r.alertsWeek == CountAfter(l, now.seconds - WeekSeconds)
    ensures l != [] ==> 0 <= r.alertsToday <= r.alertsWeek <= |l|
    ensures l != [] ==> r.mostActiveZone in Window(l)
    ensures l != [] ==> r.zoneActivityCount == Occurrences(Window(l), r.mostActiveZone)
    ensures l != [] ==> 1 <= r.zoneActivityCount <= ZoneWindow
    ensures l != [] ==> forall z :: Occurrences(Window(l), z) <= r.zoneActivityCount
  {
    if l == [] then s
    else
      TodayWithinWeek(l, now.seconds);
      var zones := Window(l);
      var top := MostCommon(zones);
      Stats(
        CountOnDay(l, DayOf(now.seconds)),
        CountAfter(l, now.seconds - WeekSeconds),
        top,
        Occurrences(zones, top))
  }

  /** Decimal text of a whole number, as an f-string shows it. */
  function NatText(n: nat): string
  {
    if n < 10 then ["0123456789"[n]] else NatText(n / 10) + ["0123456789"[n % 10]]
  }

  function IntText(n: int): string
  {
    if n < 0 then "-" + NatText(-n) else NatText(n)
  }

  /** The first row of `/logs`: whether the system runs. */
  function StatusLogEntry(running: bool, now: Clock): (r: LogEntry)
    ensures r.level == Info
    ensures r.timestamp == FormatStamp(now.iso)
  {
    LogEntry(
      FormatStamp(now.iso),
      Info,
      "System Status: " + (if running then "Running" else "Stopped"),
      "Camera: " + (if running then "Connected" else "Disconnected"))
  }

  /** The `/logs` row of one detection: a warning exactly for High severity. */
  function DetectionLogEntry(e: Entry): (r: LogEntry)
    ensures r.level == Warning <==> e.severity == "High"
    ensures r.level == Info <==> e.severity != "High"
    ensures r.timestamp == FormatStamp(e.stamp.iso)
  {
    LogEntry(
      FormatStamp(e.stamp.iso),
      if e.severity == "High" then Warning else Info,
      e.kind + " in zone: " + e.zone,
      "Confidence: " + IntText(e.confidence) + "%, Severity: " + e.severity)
  }

  /** The module-level state of app.py that the detection callback, the stats
      thread and the routes share. */
  class LiveFeed {
    var detections: seq<Entry>
    var stats: Stats

    constructor ()
      ensures detections == [] && stats == InitialStats
    {
      detections := [];
      stats := InitialStats;
    }

    /** `detection_callback`: record one detection and count it for today. */
    method OnDetection(data: DetectionData, now: Clock)
      modifies this
      ensures detections == BoundedPush(EntryOf(data, now), old(detections))
      ensures stats == old(stats).(alertsToday := old(stats.alertsToday) + 1)
    {
      var entry := EntryOf(data, now);
      detections := [entry] + detections;
      if |detections| > MaxDetections {
        detections := detections[..MaxDetections];
      }
      stats := stats.(alertsToday := stats.alertsToday + 1);
    }

    /** One iteration of `update_stats_periodically`. With no detections the
        stats are left as they are. */
    method RefreshStats(now: Clock)
      modifies this
      ensures detections == old(detections)
      ensures stats == RefreshedStats(old(detections), now, old(stats))
    {
      stats := RefreshedStats(detections, now, stats);
    }

    /** `clear_detections`: empty the list and reset the stats. */
    method Clear()
      modifies this
      ensures detections == [] && stats == InitialStats
    {
      detections := [];
      stats := InitialStats;
    }

    /** `/recent_alerts`: the newest ten entries, in order. */
    function RecentAlerts(): (r: seq<Entry>)
      reads this
      ensures |r| == Min(RecentLimit, |detections|)
      ensures forall i :: 0 <= i < |r| ==> r[i] == detections[i]
    {
      detections[..Min(RecentLimit, |detections|)]
    }

    /** `/status`: the system status extended with the feed's figures. */
    function Status(system: SystemStatus, now: Clock): (r: StatusReport)
      reads this
      ensures r.system == system
      ensures r.currentTime == FormatStamp(now.iso)
      ensures r.detectionCount == |detections|
      ensures r.alertCount == stats.alertsToday
      ensures r.lastDetection.None? <==> detections == []
      ensures r.lastDetection.Some? ==> r.lastDetection.value == detections[0]
    {
      StatusReport(
        system,
        FormatStamp(now.iso),
        |detections|,
        stats.alertsToday,
        if detections == [] then None else Some(detections[0]))
    }

    /** `/logs`: one status row, then one row per detection among the newest 20. */
    method Logs(running: bool, now: Clock) returns (entries: seq<LogEntry>)
      ensures |entries| == 1 + Min(LogLimit, |detections|)
      ensures entries[0] == StatusLogEntry(running, now)
      ensures forall i :: 0 <= i < |entries| - 1 ==> entries[i + 1] == DetectionLogEntry(detections[i])
    {
      var shown := detections[..Min(LogLimit, |detections|)];
      var rows: seq<LogEntry> := [];
      var i := 0;
      while i < |shown|
        invariant 0 <= i <= |shown|
        invariant |rows| == i
        invariant forall k :: 0 <= k < i ==> rows[k] == DetectionLogEntry(shown[k])
      {
        rows := rows + [DetectionLogEntry(shown[i])];
        i := i + 1;
      }
      assert shown == detections[..|rows|];
      entries := [StatusLogEntry(running, now)] + rows;
      assert entries[1..] == rows;
    }
  }
}
