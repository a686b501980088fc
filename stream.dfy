/** The consecutive-failure counter of `generate_frames` (app.py:145-189), the
    generator behind `/video_feed`. Each pass of its endless loop is one tick;
    what the surveillance core and the JPEG encoder answer during that pass is
    an input, and the chunks it yields are the output. */
module Stream {
  import opened Records

  /** `max_failures`: more consecutive failures than this show an error frame. */
  const MaxFailures: nat := 10

  /** How an attempt to render and encode an image ended. */
  datatype Outcome = Encoded | NotEncoded | Threw

  /** What one pass of the loop observes. */
  datatype Tick =
      /** `is_running()` was false; the placeholder frame encoded or not. */
    | Idle(placeholderEncoded: bool)
      /** The core was running and `get_processed_frame()` gave `frame`;
          `encode` is how encoding that frame ended, `errorRender` how
          rendering and encoding the error frame ended if one was due. */
    | Fetched(frame: Option<Frame>, encode: Outcome, errorRender: Outcome)
      /** An exception left the body before the counter was touched: in
          `is_running`, `get_processed_frame` or the placeholder's rendering. */
    | Raised

  /** What the generator yields: the "No Camera" placeholder, a live frame,
      or the "Camera Connection Lost" error frame. */
  datatype Chunk = NoCamera | Live(frame: Frame) | ConnectionLost

  datatype StreamState = StreamState(failures: nat, sent: seq<Chunk>)

  /** A pass that delivered a live frame. */
  predicate Succeeds(t: Tick)
  {
    t.Fetched? && t.frame.Some? && t.encode.Encoded?
  }

  /** A pass that counts as a failure: no frame, a frame that did not encode,
      or an exception. */
  predicate Fails(t: Tick)
  {
    t.Raised? || (t.Fetched? && !Succeeds(t))
  }

  /** A pass whose error frame, due because the counter passed the bound,
      raised: the handler then counts the pass a second time. */
  predicate ErrorRenderThrew(failures: nat, t: Tick)
  {
    t.Fetched? && t.frame.None? && failures + 1 > MaxFailures && t.errorRender.Threw?
  }

  /** One pass of the loop, from `failures` consecutive failures. */
  function Step(failures: nat, t: Tick): (r: StreamState)
    ensures t.Idle? ==> r.failures == failures
    ensures t.Idle? ==> r.sent == (if t.placeholderEncoded then [NoCamera] else [])
    ensures t.Raised? ==> r == StreamState(failures + 1, [])
    ensures Succeeds(t) ==> r == StreamState(0, [Live(t.frame.value)])
    ensures t.Fetched? && t.frame.Some? && !t.encode.Encoded? ==> r == StreamState(1, [])
    ensures t.Fetched? && t.frame.None? && failures + 1 <= MaxFailures ==> r == StreamState(failures + 1, [])
    ensures t.Fetched? && t.frame.None? && failures + 1 > MaxFailures ==>
      r.failures == (if t.errorRender.Threw? then failures + 2 else 0)
    ensures t.Fetched? && t.frame.None? && failures + 1 > MaxFailures ==>
      r.sent == (if t.errorRender.Encoded? then [ConnectionLost] else [])
    ensures t.Fetched? && !ErrorRenderThrew(failures, t) ==> r.failures <= MaxFailures
    ensures ConnectionLost in r.sent <==>
      t.Fetched? && t.frame.None? && failures >= MaxFailures && t.errorRender.Encoded?
    ensures Fails(t) && !ErrorRenderThrew(failures, t) ==> r.failures <= failures + 1
    ensures Succeeds(t) || Fails(t) || r.failures == failures
  {
    match t
    case Idle(encoded) => StreamState(failures, if encoded then [NoCamera] else [])
    case Raised => StreamState(failures + 1, [])
    case Fetched(frame, encode, errorRender) =>
      if frame.Some? then
        // The counter is reset first; a failed or raising encode adds one.
        if encode.Encoded? then StreamState(0, [Live(frame.value)]) else StreamState(1, [])
      else
        var counted := failures + 1;
        if counted <= MaxFailures then StreamState(counted, [])
        else
          match errorRender
          case Encoded => StreamState(0, [ConnectionLost])
          case NotEncoded => StreamState(0, [])
          case Threw => StreamState(counted + 1, [])
  }

  /** The passes `ticks` in order, from a fresh generator. */
  function Run(ticks: seq<Tick>): StreamState
  {
    if ticks == [] then StreamState(0, [])
    else
      var before := Run(ticks[..|ticks| - 1]);
      var last := Step(before.failures, ticks[|ticks| - 1]);
      StreamState(last.failures, before.sent + last.sent)
  }

  /** How many failing passes there were since the last live frame. */
  function FailuresSinceLive(ticks: seq<Tick>): nat
  {
    if ticks == [] then 0
    else if Succeeds(ticks[|ticks| - 1]) then 0
    else (if Fails(ticks[|ticks| - 1]) then 1 else 0) + FailuresSinceLive(ticks[..|ticks| - 1])
  }

  /** The counter never exceeds the number of failing passes since the last
      live frame, unless more than `max_failures` of them have already
      happened: a pass adds at most one before the bound is checked, and only
      a pass past the bound can add a second. */
  lemma {:induction false} CounterBoundedByFailures(ticks: seq<Tick>)
    ensures Run(ticks).failures <= FailuresSinceLive(ticks) || FailuresSinceLive(ticks) > MaxFailures
  {
    if ticks != [] {
      CounterBoundedByFailures(ticks[..|ticks| - 1]);
    }
  }

  /** The error frame is shown only after more than `max_failures` failing
      passes with no live frame in between. */
  lemma ConnectionLostNeedsElevenFailures(ticks: seq<Tick>)
    requires ticks != []
    requires ConnectionLost in Step(Run(ticks[..|ticks| - 1]).failures, ticks[|ticks| - 1]).sent
    ensures FailuresSinceLive(ticks) > MaxFailures
  {
    CounterBoundedByFailures(ticks[..|ticks| - 1]);
  }

  /** Passes in which every fetched frame is present. This is every run of
      the application: `generate_frames` fetches only when `is_running()`
      holds, which requires a current frame, and no code clears the current
      or processed frame once set (`Core.SurveillanceCore.IsRunning`). */
  predicate FramesPresent(ticks: seq<Tick>)
  {
    forall i :: 0 <= i < |ticks| && ticks[i].Fetched? ==> ticks[i].frame.Some?
  }

  /** With every fetched frame present, the error frame is never sent and a
      fetching pass leaves the counter at 0 or 1: the branch of app.py that
      counts a missing frame and shows "Camera Connection Lost" is never
      taken. */
  lemma {:induction false} NoConnectionLostWithFrames(ticks: seq<Tick>)
    requires FramesPresent(ticks)
    ensures ConnectionLost !in Run(ticks).sent
    ensures ticks != [] && ticks[|ticks| - 1].Fetched? ==> Run(ticks).failures <= 1
  {
    if ticks != [] {
      var init := ticks[..|ticks| - 1];
      assert FramesPresent(init) by {
        forall i | 0 <= i < |init| && init[i].Fetched?
          ensures init[i].frame.Some?
        {
          assert init[i] == ticks[i];
        }
      }
      NoConnectionLostWithFrames(init);
    }
  }

  /** `generate_frames` driven through the passes `ticks`: the chunks it yields
      and its counter afterwards. */
  method GenerateFrames(ticks: seq<Tick>) returns (sent: seq<Chunk>, failures: nat)
    ensures StreamState(failures, sent) == Run(ticks)
    ensures failures <= FailuresSinceLive(ticks) || FailuresSinceLive(ticks) > MaxFailures
  {
    sent, failures := [], 0;
    var i := 0;
    while i < |ticks|
      invariant 0 <= i <= |ticks|
      invariant StreamState(failures, sent) == Run(ticks[..i])
    {
      assert ticks[..i + 1][..i] == ticks[..i];
      var next := Step(failures, ticks[i]);
      failures := next.failures;
      sent := sent + next.sent;
      i := i + 1;
    }
    assert ticks[..i] == ticks;
    CounterBoundedByFailures(ticks);
  }
}
