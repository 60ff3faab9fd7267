/** The Windows recording back end's pure parts (platform/windows.rs):
    reading the camera list out of FFmpeg's DirectShow device listing, and
    the FFmpeg argument list `start_recording` assembles. Running FFmpeg is
    not modelled: the listing is a parameter and the arguments are
    returned. */
module WindowsRecording {
  import opened Wrappers
  import opened Text
  import opened CommandLine
  import opened Platform

  // ---------------------------------------------------------------------------
  // The camera list
  // ---------------------------------------------------------------------------

  const VideoTag := "(video)"
  const Quote := '"'

  /** The camera a listing line such as `[dshow @ 0x1] "HD Webcam" (video)`
      names: the text between its first two double quotes, used as both id
      and name. Only lines tagged "(video)" count. */
  function CameraOf(line: string): (r: Option<RecordingSource>)
    ensures r.Some? ==> r.value.id == r.value.name
  {
    if Contains(line, VideoTag) && Contains(line, [Quote]) then
      match IndexOf(line, [Quote])
      case None => None
      case Some(start) =>
        match IndexOf(line[start + 1..], [Quote])
        case None => None
        case Some(end) => Some(RecordingSource(line[start + 1..start + 1 + end], line[start + 1..start + 1 + end]))
    else None
  }

  /** The first occurrence of a character, found by `find`, is the position
      after a prefix that does not hold it. */
  lemma FindChar(pre: string, c: char, post: string)
    requires c !in pre
    ensures IndexOf(pre + [c] + post, [c]) == Some(|pre|)
  {
    var s := pre + [c] + post;
    assert MatchesAt(s, [c], |pre|) by {
      assert s[|pre|..|pre| + 1] == [c];
    }
    forall j | 0 <= j < |pre|
      ensures !MatchesAt(s, [c], j)
    {
      assert s[j..j + 1][0] == s[j] == pre[j];
    }
    IndexFromFirst(s, [c], 0, |pre|);
  }

  /** Where the two quotes are found decides the camera. */
  lemma CameraAt(line: string, start: nat, end: nat)
    requires Contains(line, VideoTag)
    requires IndexOf(line, [Quote]) == Some(start) && start < |line|
    requires IndexOf(line[start + 1..], [Quote]) == Some(end) && start + 1 + end <= |line|
    ensures CameraOf(line) == Some(RecordingSource(line[start + 1..start + 1 + end], line[start + 1..start + 1 + end]))
  {
  }

  /** A tagged line gives the camera named between its first two quotes. */
  lemma CameraOfQuoted(pre: string, name: string, post: string)
    requires Quote !in pre && Quote !in name
    requires Contains(pre + [Quote] + name + [Quote] + post, VideoTag)
    ensures CameraOf(pre + [Quote] + name + [Quote] + post) == Some(RecordingSource(name, name))
  {
    var line := pre + [Quote] + name + [Quote] + post;
    var rest := name + [Quote] + post;
    AppendAssoc(pre + [Quote], name + [Quote], post);
    AppendAssoc(pre + [Quote], name, [Quote]);
    assert line == pre + [Quote] + rest;
    FindChar(pre, Quote, rest);
    assert line[|pre| + 1..] == rest;
    FindChar(name, Quote, post);
    assert line[|pre| + 1..|pre| + 1 + |name|] == name;
    CameraAt(line, |pre|, |name|);
  }

  /** A tagged line gives a camera exactly when it holds at least two
      quotes; an untagged line never does. */
  lemma CameraOfCount(line: string)
    ensures CameraOf(line).Some? <==> Contains(line, VideoTag) && multiset(line)[Quote] >= 2
  {
    ContainsChar(line, Quote);
    if Quote in line {
      var start := IndexOf(line, [Quote]).value;
      assert line[start..start + 1] == [Quote];
      var pre, post := line[..start], line[start + 1..];
      assert Quote !in pre by {
        forall j | 0 <= j < start
          ensures pre[j] != Quote
        {
          assert !MatchesAt(line, [Quote], j);
          assert line[j..j + 1] == [pre[j]];
        }
      }
      assert line == pre + [Quote] + post;
      assert multiset(line)[Quote] == multiset(post)[Quote] + 1;
      ContainsChar(post, Quote);
    }
  }

  /** The cameras the lines name, in order. */
  function CameraScan(ls: seq<string>): seq<RecordingSource> {
    if ls == [] then []
    else (match CameraOf(ls[0]) case Some(c) => [c] case None => []) + CameraScan(ls[1..])
  }

  /** Every camera listed comes from one line, which carries its name
      between quotes. */
  lemma {:induction false} CameraScanFromLines(ls: seq<string>)
    ensures forall c :: c in CameraScan(ls) ==> exists k :: 0 <= k < |ls| && CameraOf(ls[k]) == Some(c)
  {
    if ls != [] {
      CameraScanFromLines(ls[1..]);
      forall c | c in CameraScan(ls)
        ensures exists k :: 0 <= k < |ls| && CameraOf(ls[k]) == Some(c)
      {
        if CameraOf(ls[0]) != Some(c) {
          var k :| 0 <= k < |ls[1..]| && CameraOf(ls[1..][k]) == Some(c);
          assert CameraOf(ls[k + 1]) == Some(c);
        }
      }
    }
  }

  /** Every line that names a camera adds it. */
  lemma {:induction false} CameraScanHasLines(ls: seq<string>, k: nat)
    requires k < |ls| && CameraOf(ls[k]).Some?
    ensures CameraOf(ls[k]).value in CameraScan(ls)
  {
    if k > 0 {
      CameraScanHasLines(ls[1..], k - 1);
    }
  }

  /** `list_cameras`, over FFmpeg's listing. Unlike the macOS microphone
      list there is no fallback entry: no camera line gives no camera. */
  method ListCameras(stderr: string) returns (cameras: seq<RecordingSource>)
    ensures cameras == CameraScan(Lines(stderr))
  {
    var ls := Lines(stderr);
    cameras := [];
    var i := 0;
    assert ls[i..] == ls;
    while i < |ls|
      invariant 0 <= i <= |ls|
      invariant cameras + CameraScan(ls[i..]) == CameraScan(ls)
    {
      var line := ls[i];
      ghost var rest := ls[i..];
      assert rest[0] == line && rest[1..] == ls[i + 1..];
      var camera := CameraOf(line);
      if camera.Some? {
        AppendAssoc(cameras, [camera.value], CameraScan(rest[1..]));
        cameras := cameras + [camera.value];
      } else {
        assert [] + CameraScan(rest[1..]) == CameraScan(rest[1..]);
      }
      i := i + 1;
    }
  }

  // ---------------------------------------------------------------------------
  // start_recording
  // ---------------------------------------------------------------------------

  /** The whole desktop through GDI, whatever screen was chosen. */
  function ScreenPairs(screen: Option<string>, fps: nat): seq<(string, string)> {
    if screen.Some? then [("-f", "gdigrab"), ("-framerate", NatToString(fps)), ("-i", "desktop")] else []
  }

  /** The camera through DirectShow, by name. */
  function CameraPairs(camera: Option<string>): seq<(string, string)> {
    match camera
    case None => []
    case Some(c) => [("-f", "dshow"), ("-i", "video=" + c)]
  }

  /** The default DirectShow microphone, when microphone audio is asked for. */
  function MicrophonePairs(audioSources: seq<string>): seq<(string, string)> {
    if "microphone" in audioSources then [("-f", "dshow"), ("-i", "audio=Microphone")] else []
  }

  function AudioCodecPairs(audioSources: seq<string>): seq<(string, string)> {
    if audioSources != [] then [("-c:a", "aac"), ("-b:a", "192k")] else []
  }

  /** `-s` for any resolution other than "source", with no check of its
      shape. */
  function SizePairs(resolution: string): seq<(string, string)> {
    if resolution != "source" then [("-s", resolution)] else []
  }

  function InputPairs(screen: Option<string>, camera: Option<string>, audioSources: seq<string>,
                      fps: nat): seq<(string, string)>
  {
    ScreenPairs(screen, fps) + CameraPairs(camera) + MicrophonePairs(audioSources)
  }

  function EncodingPairs(audioSources: seq<string>, resolution: string): seq<(string, string)> {
    VideoCodecPairs + AudioCodecPairs(audioSources) + SizePairs(resolution) + [FastStart]
  }

  /** The pairs of the argument list, in the order the source adds them. */
  function WinPairs(screen: Option<string>, camera: Option<string>, audioSources: seq<string>,
                    resolution: string, fps: nat): seq<(string, string)>
  {
    InputPairs(screen, camera, audioSources, fps) + EncodingPairs(audioSources, resolution)
  }

  /** The argument list `start_recording` builds before spawning FFmpeg,
      in its two halves. The session id is not part of it. */
  method WinRecordingArgs(outputPath: string, screenSource: Option<string>, cameraSource: Option<string>,
                          audioSources: seq<string>, resolution: string, fps: nat) returns (args: seq<string>)
    ensures args == RecordingArgs(WinPairs(screenSource, cameraSource, audioSources, resolution, fps), outputPath)
  {
    args := ["-y"];
    args := AddInputs(args, screenSource, cameraSource, audioSources, fps);
    ghost var inputs := InputPairs(screenSource, cameraSource, audioSources, fps);
    ghost var before := args;
    args := AddEncoding(args, audioSources, resolution);
    ExtendArgs(before, ["-y"], inputs, EncodingPairs(audioSources, resolution));
    args := args + [outputPath];
  }

  /** The input half of `start_recording`. */
  method AddInputs(args: seq<string>, screenSource: Option<string>, cameraSource: Option<string>,
                   audioSources: seq<string>, fps: nat) returns (r: seq<string>)
    ensures r == args + Flatten(InputPairs(screenSource, cameraSource, audioSources, fps))
  {
    r := args;
    var hasScreen := screenSource.Some?;
    var hasCamera := cameraSource.Some?;
    var hasAudio := audioSources != [];

    if hasScreen {
      r := r + ["-f", "gdigrab", "-framerate", NatToString(fps), "-i", "desktop"];
      FlattenThree(("-f", "gdigrab"), ("-framerate", NatToString(fps)), ("-i", "desktop"));
    }
    ghost var ps := ScreenPairs(screenSource, fps);
    assert r == args + Flatten(ps);

    ghost var before := r;
    if hasCamera {
      var cameraName := cameraSource.value;
      r := r + ["-f", "dshow", "-i", "video=" + cameraName];
      FlattenTwo(("-f", "dshow"), ("-i", "video=" + cameraName));
    }
    ghost var g := CameraPairs(cameraSource);
    assert r == before + Flatten(g);
    ExtendArgs(before, args, ps, g);
    ps := ps + g;

    before := r;
    if hasAudio {
      if "microphone" in audioSources {
        r := r + ["-f", "dshow", "-i", "audio=Microphone"];
        FlattenTwo(("-f", "dshow"), ("-i", "audio=Microphone"));
      }
    }
    g := MicrophonePairs(audioSources);
    assert r == before + Flatten(g);
    ExtendArgs(before, args, ps, g);
  }

  /** The encoding half of `start_recording`. */
  method AddEncoding(args: seq<string>, audioSources: seq<string>, resolution: string) returns (r: seq<string>)
    ensures r == args + Flatten(EncodingPairs(audioSources, resolution))
  {
    var hasAudio := audioSources != [];

    r := args + ["-c:v", "libx264", "-preset", "ultrafast", "-crf", "23", "-pix_fmt", "yuv420p"];
    FlattenFour(("-c:v", "libx264"), ("-preset", "ultrafast"), ("-crf", "23"), ("-pix_fmt", "yuv420p"));
    ghost var ps := VideoCodecPairs;
    assert r == args + Flatten(ps);

    ghost var before := r;
    if hasAudio {
      r := r + ["-c:a", "aac", "-b:a", "192k"];
      FlattenTwo(("-c:a", "aac"), ("-b:a", "192k"));
    }
    ghost var g := AudioCodecPairs(audioSources);
    assert r == before + Flatten(g);
    ExtendArgs(before, args, ps, g);
    ps := ps + g;

    before := r;
    if resolution != "source" {
      r := r + ["-s", resolution];
      FlattenOne(("-s", resolution));
    }
    g := SizePairs(resolution);
    assert r == before + Flatten(g);
    ExtendArgs(before, args, ps, g);
    ps := ps + g;

    before := r;
    r := r + ["-movflags", "+faststart"];
    FlattenOne(FastStart);
    ExtendArgs(before, args, ps, [FastStart]);
  }

  // ---------------------------------------------------------------------------
  // What the argument list holds
  // ---------------------------------------------------------------------------

  /** The input half sets only input flags. */
  lemma InputPairsFlags(screen: Option<string>, camera: Option<string>, audioSources: seq<string>,
                        fps: nat, p: (string, string))
    requires p in InputPairs(screen, camera, audioSources, fps)
    ensures p.0 in {"-f", "-framerate", "-i"}
  {
  }

  /** The encoding half sets no input flag. */
  lemma EncodingPairsFlags(audioSources: seq<string>, resolution: string, p: (string, string))
    requires p in EncodingPairs(audioSources, resolution)
    ensures p.0 !in {"-f", "-framerate", "-i"}
  {
  }

  /** A pair with an input flag is in the list exactly when it is in the
      input half, and any other pair exactly when it is in the encoding
      half. */
  lemma WinPairsHalves(screen: Option<string>, camera: Option<string>, audioSources: seq<string>,
                       resolution: string, fps: nat, p: (string, string))
    ensures p.0 in {"-f", "-framerate", "-i"} ==>
              (p in WinPairs(screen, camera, audioSources, resolution, fps) <==> p in InputPairs(screen, camera, audioSources, fps))
    ensures p.0 !in {"-f", "-framerate", "-i"} ==>
              (p in WinPairs(screen, camera, audioSources, resolution, fps) <==> p in EncodingPairs(audioSources, resolution))
  {
    if p in InputPairs(screen, camera, audioSources, fps) {
      InputPairsFlags(screen, camera, audioSources, fps, p);
    }
    if p in EncodingPairs(audioSources, resolution) {
      EncodingPairsFlags(audioSources, resolution, p);
    }
  }

  /** The inputs are the whole desktop for any screen, the camera by name,
      and the default microphone when microphone audio is asked for. */
  lemma WinInputs(screen: Option<string>, camera: Option<string>, audioSources: seq<string>,
                  resolution: string, fps: nat, v: string)
    ensures ("-i", v) in WinPairs(screen, camera, audioSources, resolution, fps)
            <==> (screen.Some? && v == "desktop")
                 || (camera.Some? && v == "video=" + camera.value)
                 || ("microphone" in audioSources && v == "audio=Microphone")
  {
    WinPairsHalves(screen, camera, audioSources, resolution, fps, ("-i", v));
  }

  /** The screen is grabbed at the session's frame rate. */
  lemma WinFramerate(screen: Option<string>, camera: Option<string>, audioSources: seq<string>,
                     resolution: string, fps: nat, v: string)
    ensures ("-framerate", v) in WinPairs(screen, camera, audioSources, resolution, fps)
            <==> screen.Some? && v == NatToString(fps)
  {
    WinPairsHalves(screen, camera, audioSources, resolution, fps, ("-framerate", v));
  }

  /** `-s` is given for every resolution but "source". */
  lemma WinSize(screen: Option<string>, camera: Option<string>, audioSources: seq<string>,
                resolution: string, fps: nat, v: string)
    ensures ("-s", v) in WinPairs(screen, camera, audioSources, resolution, fps)
            <==> resolution != "source" && v == resolution
  {
    WinPairsHalves(screen, camera, audioSources, resolution, fps, ("-s", v));
  }

  /** Among the encoding pairs only the audio group sets `-c:a` or `-b:a`. */
  lemma EncodingAudio(audioSources: seq<string>, resolution: string, p: (string, string))
    requires p.0 == "-c:a" || p.0 == "-b:a"
    ensures p in EncodingPairs(audioSources, resolution) <==> p in AudioCodecPairs(audioSources)
  {
    assert p !in VideoCodecPairs;
    assert p !in SizePairs(resolution) && p != FastStart;
  }

  /** AAC audio is set up exactly when some audio source is asked for. */
  lemma WinAudioCodec(screen: Option<string>, camera: Option<string>, audioSources: seq<string>,
                      resolution: string, fps: nat, v: string)
    ensures ("-c:a", v) in WinPairs(screen, camera, audioSources, resolution, fps)
            <==> audioSources != [] && v == "aac"
  {
    WinPairsHalves(screen, camera, audioSources, resolution, fps, ("-c:a", v));
    EncodingAudio(audioSources, resolution, ("-c:a", v));
  }

  /** So is the 192 kbit/s audio bitrate. */
  lemma WinAudioBitrate(screen: Option<string>, camera: Option<string>, audioSources: seq<string>,
                        resolution: string, fps: nat, v: string)
    ensures ("-b:a", v) in WinPairs(screen, camera, audioSources, resolution, fps)
            <==> audioSources != [] && v == "192k"
  {
    WinPairsHalves(screen, camera, audioSources, resolution, fps, ("-b:a", v));
    EncodingAudio(audioSources, resolution, ("-b:a", v));
  }

  /** The list starts with `-y` and ends with `-movflags +faststart` and the
      output path. */
  lemma WinArgsEnds(screen: Option<string>, camera: Option<string>, audioSources: seq<string>,
                    resolution: string, fps: nat, outputPath: string)
    ensures var args := RecordingArgs(WinPairs(screen, camera, audioSources, resolution, fps), outputPath);
            args[0] == "-y" && args[|args| - 3..] == ["-movflags", "+faststart", outputPath]
  {
    var ps := WinPairs(screen, camera, audioSources, resolution, fps);
    RecordingArgsShape(ps, outputPath, "-y", outputPath);
    RecordingArgsEnd(ps, outputPath);
  }
}
