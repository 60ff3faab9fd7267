/** A screen or webcam recording session and its lifecycle
    (models/recording.rs). Clock readings are integer nanoseconds. */
module Recording {
  import opened Wrappers
  import opened Text

  datatype RecordingType = Screen | Webcam | ScreenWebcam

  datatype RecordingStatus = Preparing | Recording | Paused | Stopped | Failed

  /** `Duration::num_milliseconds` of a span of `ns` nanoseconds: whole
      milliseconds, truncated toward zero as Rust's `i64` division does. */
  function WholeMillis(ns: int): (ms: int)
    ensures ns >= 0 ==> 0 <= ms * 1000000 <= ns < ms * 1000000 + 1000000
    ensures ns < 0 ==> ms * 1000000 - 1000000 < ns <= ms * 1000000 <= 0
  {
    if ns >= 0 then ns / 1000000 else -((-ns) / 1000000)
  }

  /** What `stop` records for a session started at `start` and stopped at
      `stop`: whole milliseconds elapsed, in seconds. */
  function ElapsedSeconds(start: int, stop: int): real {
    WholeMillis(stop - start) as real / 1000.0
  }

  /** The recorded duration is the true elapsed time cut down to whole
      milliseconds: never more, and less by under a millisecond. */
  lemma ElapsedSecondsBounds(start: int, stop: int)
    requires start <= stop
    ensures 0.0 <= ElapsedSeconds(start, stop)
    ensures ElapsedSeconds(start, stop) <= (stop - start) as real / 1000000000.0
    ensures (stop - start) as real / 1000000000.0 < ElapsedSeconds(start, stop) + 0.001
  {
    var ms := WholeMillis(stop - start);
    assert ms * 1000000 <= stop - start < ms * 1000000 + 1000000;
    assert (ms * 1000000) as real <= (stop - start) as real;
  }

  const AllowedFps: set<nat> := {15, 24, 30, 60}

  class RecordingSession {
    var id: string
    var recordingType: RecordingType
    var status: RecordingStatus
    var outputPath: string
    var startedAt: Option<int>
    var stoppedAt: Option<int>
    var duration: Option<real>
    var screenSource: Option<string>
    var cameraDevice: Option<string>
    var audioSources: seq<string>
    var resolution: string
    var fps: nat
    var errorMessage: Option<string>
    var createdMediaClipId: Option<string>

    /** `RecordingSession::new`: a session in Preparing with no times, no
        sources and no error; `id` is the fresh UUID the source draws. */
    constructor (id: string, recordingType: RecordingType, outputPath: string,
                 resolution: string, fps: nat)
      ensures this.id == id && this.recordingType == recordingType
      ensures this.outputPath == outputPath && this.resolution == resolution && this.fps == fps
      ensures status == Preparing
      ensures startedAt.None? && stoppedAt.None? && duration.None?
      ensures screenSource.None? && cameraDevice.None? && audioSources == []
      ensures errorMessage.None? && createdMediaClipId.None?
    {
      this.id := id;
      this.recordingType := recordingType;
      status := Preparing;
      this.outputPath := outputPath;
      startedAt := None;
      stoppedAt := None;
      duration := None;
      screenSource := None;
      cameraDevice := None;
      audioSources := [];
      this.resolution := resolution;
      this.fps := fps;
      errorMessage := None;
      createdMediaClipId := None;
    }

    /** `start`: Recording from whatever status the session had, stamped `now`. */
    method Start(now: int)
      modifies this`status, this`startedAt
      ensures status == Recording && startedAt == Some(now)
    {
      status := Recording;
      startedAt := Some(now);
    }

    /** `stop`: Stopped from whatever status, stamped `now`; the duration is
        set from the start time when there is one and left alone otherwise. */
    method Stop(now: int)
      modifies this`status, this`stoppedAt, this`duration
      ensures status == Stopped && stoppedAt == Some(now)
      ensures startedAt.Some? ==> duration == Some(ElapsedSeconds(startedAt.value, now))
      ensures startedAt.None? ==> duration == old(duration)
    {
      status := Stopped;
      stoppedAt := Some(now);
      if startedAt.Some? && stoppedAt.Some? {
        var durationMs := WholeMillis(stoppedAt.value - startedAt.value);
        duration := Some(durationMs as real / 1000.0);
      }
    }

    /** `fail`: Failed with the message, stamped `now`; the duration is kept. */
    method Fail(error: string, now: int)
      modifies this`status, this`errorMessage, this`stoppedAt
      ensures status == Failed && errorMessage == Some(error) && stoppedAt == Some(now)
    {
      status := Failed;
      errorMessage := Some(error);
      stoppedAt := Some(now);
    }

    /** `update_duration`: replaces the duration and nothing else. */
    method UpdateDuration(seconds: real)
      modifies this`duration
      ensures duration == Some(seconds)
    {
      duration := Some(seconds);
    }

    /** `validate`: the first problem found, checking that the resolution has
        an `x`, that the frame rate is 15, 24, 30 or 60, and that a combined
        screen-and-webcam session names both a screen and a camera. */
    function Validate(): (r: Result<Unit>)
      reads this
      ensures r.Ok? <==> ('x' in resolution && fps in AllowedFps
                          && (recordingType == ScreenWebcam ==> screenSource.Some? && cameraDevice.Some?))
      ensures 'x' !in resolution ==> r == Err("Invalid resolution format: " + resolution)
      ensures 'x' in resolution && fps !in AllowedFps
              ==> r == Err("Invalid FPS: " + NatToString(fps) + ". Must be 15, 24, 30, or 60")
      ensures 'x' in resolution && fps in AllowedFps && recordingType == ScreenWebcam && screenSource.None?
              ==> r == Err("Screen source required for screen_webcam recording")
      ensures 'x' in resolution && fps in AllowedFps && recordingType == ScreenWebcam && screenSource.Some?
              && cameraDevice.None?
              ==> r == Err("Camera device required for screen_webcam recording")
    {
      if 'x' !in resolution then Err("Invalid resolution format: " + resolution)
      else if fps !in AllowedFps then Err("Invalid FPS: " + NatToString(fps) + ". Must be 15, 24, 30, or 60")
      else if recordingType == ScreenWebcam && screenSource.None? then
        Err("Screen source required for screen_webcam recording")
      else if recordingType == ScreenWebcam && cameraDevice.None? then
        Err("Camera device required for screen_webcam recording")
      else Ok(Unit)
    }
  }

  /** A session's whole life: created, started at `t0`, stopped at `t1`. It
      ends Stopped with both stamps and the elapsed duration, and a fresh
      1080p 30 fps screen session validates. */
  method Lifecycle(id: string, t0: int, t1: int) returns (s: RecordingSession)
    requires t0 <= t1
    ensures s.status == Stopped && s.startedAt == Some(t0) && s.stoppedAt == Some(t1)
    ensures s.duration == Some(ElapsedSeconds(t0, t1))
    ensures s.duration.value >= 0.0
    ensures s.Validate().Ok?
  {
    s := new RecordingSession(id, Screen, "out.mp4", "1920x1080", 30);
    assert s.resolution[4] == 'x';
    s.Start(t0);
    s.Stop(t1);
    ElapsedSecondsBounds(t0, t1);
  }
}
