/** Values shared by the camera core (surveillance_core.py) and the web feed (app.py). */
module Records {

  datatype Option<T> = None | Some(value: T)

  function Min(a: int, b: int): int
  {
    if a <= b then a else b
  }

  /** A captured image. Its pixels are not modelled: a frame is known by its
      size (the first two entries of numpy's `shape`) and a serial number. */
  datatype Frame = Frame(width: nat, height: nat, serial: nat)

  /** One reading of the wall clock, as the datetime library reports it:
      local seconds since the epoch, the `isoformat()` text of the same
      instant and its `%H:%M:%S` text. The library that renders the texts is
      not part of this model; the three are taken to describe one instant. */
  datatype Clock = Clock(seconds: int, iso: string, hms: string)

  /** The dictionary `get_system_status` returns. */
  datatype SystemStatus = SystemStatus(
    running: bool,
    cameraConnected: bool,
    detectionActive: bool,
    lastUpdate: string)

  /** Every 'T' of `s` replaced by a space, as `str.replace('T', ' ')`. */
  function ReplaceT(s: string): (r: string)
    ensures |r| == |s|
    ensures forall i :: 0 <= i < |s| ==> r[i] == (if s[i] == 'T' then ' ' else s[i])
  {
    if s == [] then [] else [if s[0] == 'T' then ' ' else s[0]] + ReplaceT(s[1..])
  }

  /** `timestamp[:19].replace('T', ' ')`: an ISO timestamp shown as
      `YYYY-MM-DD HH:MM:SS`. This is also the text `strftime('%Y-%m-%d %H:%M:%S')`
      gives for the same instant. */
  function FormatStamp(iso: string): (r: string)
    ensures |r| == Min(19, |iso|)
    ensures forall i :: 0 <= i < |r| ==> r[i] == (if iso[i] == 'T' then ' ' else iso[i])
    ensures 'T' !in r
  {
    var r := ReplaceT(iso[..Min(19, |iso|)]);
    assert forall i :: 0 <= i < |r| ==> r[i] != 'T';
    r
  }
}
