/** The macOS recording back end's pure parts (platform/macos.rs): reading
    the microphone list out of FFmpeg's AVFoundation device listing, and the
    FFmpeg argument list `start_recording` assembles. Running FFmpeg is not
    modelled: the listing is a parameter and the arguments are returned. */
module MacRecording {
  import opened Wrappers
  import opened Text
  import opened CommandLine
  import opened Platform

  // ---------------------------------------------------------------------------
  // Device lines
  // ---------------------------------------------------------------------------

  const AudioHeader := "AVFoundation audio devices:"
  const OpenInputError := "Error opening input"
  const DeviceMark := "] ["
  const DefaultMicrophone := RecordingSource("0", "Default Microphone")

  /** Where the device index of a line such as `[AVFoundation indev @ 0x1]
      [0] Built-in Microphone` lies: from just after the first "] [" up to
      the next ']', which is at the second position. */
  function DeviceBounds(line: string): (r: Option<(nat, nat)>)
    ensures r.Some? ==> 3 <= r.value.0 <= r.value.1 < |line| && line[r.value.1] == ']'
    ensures r.Some? ==> MatchesAt(line, DeviceMark, r.value.0 - 3)
  {
    match IndexOf(line, DeviceMark)
    case None => None
    case Some(idx) =>
      match IndexOf(line[idx + 3..], "]")
      case None => None
      case Some(e) =>
        assert line[idx + 3..][e..e + 1] == [line[idx + 3 + e]];
        Some((idx + 3, idx + 3 + e))
  }

  /** As written, the name is sliced from two characters past the closing
      bracket with no bound check. */
  function NameStartAsWritten(line: string): Option<nat> {
    match DeviceBounds(line)
    case None => None
    case Some((_, close)) => Some(close + 2)
  }

  /** The slice `line[close + 2..]` is out of bounds, which panics. */
  predicate SlicePanics(line: string) {
    NameStartAsWritten(line).Some? && NameStartAsWritten(line).value > |line|
  }

  /** The slice panics exactly when the index's closing bracket is the last
      character of the line. */
  lemma SlicePanicsAtEnd(line: string)
    ensures SlicePanics(line) <==> DeviceBounds(line).Some? && DeviceBounds(line).value.1 == |line| - 1
  {
  }

  /** The first "] [" of a line whose prefix has no ']' is the one right after
      the prefix, and the index runs to the next ']'. */
  lemma DeviceBoundsOf(pre: string, id: string, rest: string)
    requires ']' !in pre && ']' !in id
    ensures DeviceBounds(pre + DeviceMark + id + "]" + rest) == Some((|pre| + 3, |pre| + 3 + |id|))
  {
    var line := pre + DeviceMark + id + "]" + rest;
    assert MatchesAt(line, DeviceMark, |pre|) by {
      assert line[|pre|..|pre| + 3] == DeviceMark;
    }
    forall j | 0 <= j < |pre|
      ensures !MatchesAt(line, DeviceMark, j)
    {
      assert line[j..j + 3][0] == line[j] == pre[j];
    }
    IndexFromFirst(line, DeviceMark, 0, |pre|);
    var tail := line[|pre| + 3..];
    assert tail == id + "]" + rest;
    assert MatchesAt(tail, "]", |id|) by {
      assert tail[|id|..|id| + 1] == "]";
    }
    forall j | 0 <= j < |id|
      ensures !MatchesAt(tail, "]", j)
    {
      assert tail[j..j + 1][0] == tail[j] == id[j];
    }
    IndexFromFirst(tail, "]", 0, |id|);
  }

  /** A device line that ends right after its index, such as "] [0]", makes
      the source's slice panic. */
  lemma DeviceLinePanics(pre: string, id: string)
    requires ']' !in pre && ']' !in id
    ensures SlicePanics(pre + DeviceMark + id + "]")
  {
    DeviceBoundsOf(pre, id, "");
    assert pre + DeviceMark + id + "]" + "" == pre + DeviceMark + id + "]";
  }

  /** The device a line describes: its index, and the rest of the line after
      the bracket and one separating character, trimmed. A line that ends
      right after the bracket gives an empty name instead of the source's
      out-of-bounds slice. */
  function DeviceOf(line: string): (r: Option<RecordingSource>)
    ensures r.Some? <==> DeviceBounds(line).Some?
  {
    match DeviceBounds(line)
    case None => None
    case Some((open, close)) =>
      var name := if close + 2 <= |line| then line[close + 2..] else [];
      Some(RecordingSource(line[open..close], Trim(name)))
  }

  /** `[…] [ID] NAME` gives the device ID called NAME, trimmed. */
  lemma DeviceOfLine(pre: string, id: string, sep: char, name: string)
    requires ']' !in pre && ']' !in id
    ensures DeviceOf(pre + DeviceMark + id + "]" + [sep] + name) == Some(RecordingSource(id, Trim(name)))
  {
    var line := pre + DeviceMark + id + "]" + [sep] + name;
    DeviceBoundsOf(pre, id, [sep] + name);
    assert line == pre + DeviceMark + id + "]" + ([sep] + name);
    assert line[|pre| + 3..|pre| + 3 + |id|] == id;
    assert line[|pre| + 3 + |id| + 2..] == name;
  }

  /** On the line that makes the source panic, the device keeps its index
      and gets an empty name. */
  lemma DeviceOfPanicLine(pre: string, id: string)
    requires ']' !in pre && ']' !in id
    ensures DeviceOf(pre + DeviceMark + id + "]") == Some(RecordingSource(id, ""))
  {
    var line := pre + DeviceMark + id + "]";
    DeviceBoundsOf(pre, id, "");
    assert line + "" == line;
    assert line[|pre| + 3..|pre| + 3 + |id|] == id;
  }

  // ---------------------------------------------------------------------------
  // The microphone list
  // ---------------------------------------------------------------------------

  /** A line inside the audio section that ends it. */
  predicate EndsSection(line: string) {
    Contains(line, OpenInputError) || line == []
  }

  /** The devices read from the remaining lines, `inSection` telling whether
      the audio header was seen. A header line (re)opens the section; inside
      it, an empty line or an FFmpeg open error ends the scan, and every
      other line adds the device it describes, if any. */
  function MicScan(ls: seq<string>, inSection: bool): seq<RecordingSource> {
    if ls == [] then []
    else if Contains(ls[0], AudioHeader) then MicScan(ls[1..], true)
    else if !inSection then MicScan(ls[1..], false)
    else if EndsSection(ls[0]) then []
    else (match DeviceOf(ls[0]) case Some(d) => [d] case None => []) + MicScan(ls[1..], true)
  }

  /** Without the audio header nothing is read. */
  lemma {:induction false} MicScanNoHeader(ls: seq<string>)
    requires forall k :: 0 <= k < |ls| ==> !Contains(ls[k], AudioHeader)
    ensures MicScan(ls, false) == []
  {
    if ls != [] {
      MicScanNoHeader(ls[1..]);
    }
  }

  /** Lines before the first header are ignored. */
  lemma {:induction false} MicScanAfterHeader(ls: seq<string>, k: nat)
    requires k < |ls| && Contains(ls[k], AudioHeader)
    requires forall j :: 0 <= j < k ==> !Contains(ls[j], AudioHeader)
    ensures MicScan(ls, false) == MicScan(ls[k + 1..], true)
  {
    if k > 0 {
      assert ls[1..][k - 1..] == ls[k..];
      MicScanAfterHeader(ls[1..], k - 1);
      assert ls[1..][k..] == ls[k + 1..];
    }
  }

  /** Inside the section, nothing after a line that ends it is read. */
  lemma {:induction false} MicScanStops(ls: seq<string>, k: nat)
    requires k < |ls| && !Contains(ls[k], AudioHeader) && EndsSection(ls[k])
    ensures MicScan(ls, true) == MicScan(ls[..k], true)
  {
    if k > 0 {
      assert ls[1..][..k - 1] == ls[..k][1..];
      MicScanStops(ls[1..], k - 1);
    }
  }

  /** Every device read comes from one of the lines. */
  lemma {:induction false} MicScanFromLines(ls: seq<string>, inSection: bool)
    ensures forall d :: d in MicScan(ls, inSection) ==> exists k :: 0 <= k < |ls| && DeviceOf(ls[k]) == Some(d)
  {
    if ls != [] {
      MicScanFromLines(ls[1..], true);
      MicScanFromLines(ls[1..], false);
      forall d | d in MicScan(ls, inSection)
        ensures exists k :: 0 <= k < |ls| && DeviceOf(ls[k]) == Some(d)
      {
        if DeviceOf(ls[0]) == Some(d) {
        } else {
          var k :| 0 <= k < |ls[1..]| && DeviceOf(ls[1..][k]) == Some(d);
          assert DeviceOf(ls[k + 1]) == Some(d);
        }
      }
    }
  }

  /** One step of the scan. */
  lemma MicScanStep(rest: seq<string>, inSection: bool)
    requires rest != []
    ensures Contains(rest[0], AudioHeader) ==> MicScan(rest, inSection) == MicScan(rest[1..], true)
    ensures !Contains(rest[0], AudioHeader) && !inSection ==> MicScan(rest, inSection) == MicScan(rest[1..], false)
    ensures !Contains(rest[0], AudioHeader) && inSection && EndsSection(rest[0]) ==> MicScan(rest, inSection) == []
    ensures !Contains(rest[0], AudioHeader) && inSection && !EndsSection(rest[0]) ==>
              MicScan(rest, inSection)
              == (if DeviceOf(rest[0]).Some? then [DeviceOf(rest[0]).value] else []) + MicScan(rest[1..], true)
  {
  }

  /** The microphone part of `list_microphones`, over FFmpeg's listing:
      the devices of the audio section, or the default microphone alone
      when none was read. */
  method ListMicrophones(stderr: string) returns (mics: seq<RecordingSource>)
    ensures var read := MicScan(Lines(stderr), false);
            mics == if read == [] then [DefaultMicrophone] else read
  {
    var ls := Lines(stderr);
    mics := [];
    var inAudioSection := false;
    var i := 0;
    assert ls[i..] == ls;
    while i < |ls|
      invariant 0 <= i <= |ls|
      invariant mics + MicScan(ls[i..], inAudioSection) == MicScan(ls, false)
    {
      var line := ls[i];
      ghost var rest := ls[i..];
      assert rest[0] == line && rest[1..] == ls[i + 1..];
      MicScanStep(rest, inAudioSection);
      if Contains(line, AudioHeader) {
        inAudioSection := true;
        i := i + 1;
        continue;
      }
      if inAudioSection {
        if EndsSection(line) {
          assert mics + [] == mics;
          break;
        }
        var device := DeviceOf(line);
        if device.Some? {
          AppendAssoc(mics, [device.value], MicScan(rest[1..], true));
          mics := mics + [device.value];
        } else {
          assert [] + MicScan(rest[1..], true) == MicScan(rest[1..], true);
        }
      }
      i := i + 1;
    }
    if mics == [] {
      mics := [DefaultMicrophone];
    }
  }

  // ---------------------------------------------------------------------------
  // start_recording
  // ---------------------------------------------------------------------------

  /** The picture-in-picture filter: the camera scaled to 30%, brightened
      slightly, overlaid 20 pixels in from the bottom-left corner. */
  const PipFilter := "[1:v]scale=iw*0.30:ih*0.30,eq=brightness=0.06:contrast=1.1[cam];[0:v][cam]overlay=20:main_h-overlay_h-20"

  /** The screen input: the screen's name, with `:none` audio when system
      audio is asked for. */
  function ScreenInput(screen: string, audioSources: seq<string>): string {
    if "system" in audioSources then screen + ":none" else screen
  }

  /** The camera input, paired with the chosen microphone (default "0") when
      microphone audio is asked for. */
  function CameraInput(camera: string, audioSources: seq<string>, microphoneDeviceId: Option<string>): string {
    if "microphone" in audioSources then camera + ":" + microphoneDeviceId.GetOr("0") else camera
  }

  function ScreenPairs(screen: Option<string>, audioSources: seq<string>, fps: nat): seq<(string, string)> {
    match screen
    case None => []
    case Some(s) =>
      [("-f", "avfoundation"), ("-capture_cursor", "1"), ("-r", NatToString(fps)), ("-i", ScreenInput(s, audioSources))]
  }

  function CameraPairs(camera: Option<string>, audioSources: seq<string>, microphoneDeviceId: Option<string>,
                       fps: nat): seq<(string, string)> {
    match camera
    case None => []
    case Some(c) =>
      [("-f", "avfoundation"), ("-r", NatToString(fps)), ("-i", CameraInput(c, audioSources, microphoneDeviceId))]
  }

  /** A separate default microphone, only when there is neither screen nor
      camera to carry the audio. */
  predicate SeparateMicrophone(screen: Option<string>, camera: Option<string>, audioSources: seq<string>) {
    "microphone" in audioSources && screen.None? && camera.None?
  }

  function MicrophonePairs(screen: Option<string>, camera: Option<string>, audioSources: seq<string>): seq<(string, string)> {
    if SeparateMicrophone(screen, camera, audioSources) then [("-f", "avfoundation"), ("-i", ":0")] else []
  }

  function PipPairs(screen: Option<string>, camera: Option<string>): seq<(string, string)> {
    if screen.Some? && camera.Some? then [("-filter_complex", PipFilter)] else []
  }

  function AudioCodecPairs(audioSources: seq<string>): seq<(string, string)> {
    if audioSources != [] then [("-c:a", "aac"), ("-b:a", "256k"), ("-ar", "48000")] else []
  }

  /** `-s` is given when a size other than "source" is asked for, it has
      the `WxH` shape, and there is no overlay (which sizes the output
      itself). */
  predicate SetsSize(screen: Option<string>, camera: Option<string>, resolution: string) {
    resolution != "source" && !(screen.Some? && camera.Some?) && |Split(resolution, "x")| == 2
  }

  function SizePairs(screen: Option<string>, camera: Option<string>, resolution: string): seq<(string, string)> {
    if SetsSize(screen, camera, resolution) then [("-s", resolution)] else []
  }

  /** The inputs: screen, camera, separate microphone, overlay. */
  function InputPairs(screen: Option<string>, camera: Option<string>, audioSources: seq<string>,
                      microphoneDeviceId: Option<string>, fps: nat): seq<(string, string)>
  {
    ScreenPairs(screen, audioSources, fps) + CameraPairs(camera, audioSources, microphoneDeviceId, fps)
    + MicrophonePairs(screen, camera, audioSources) + PipPairs(screen, camera)
  }

  /** The encoding: video codec, audio codec, size, MP4 layout. */
  function EncodingPairs(screen: Option<string>, camera: Option<string>, audioSources: seq<string>,
                         resolution: string): seq<(string, string)>
  {
    VideoCodecPairs + AudioCodecPairs(audioSources) + SizePairs(screen, camera, resolution) + [FastStart]
  }

  /** The pairs of the argument list, in the order the source adds them. */
  function MacPairs(screen: Option<string>, camera: Option<string>, audioSources: seq<string>,
                    microphoneDeviceId: Option<string>, resolution: string, fps: nat): seq<(string, string)>
  {
    InputPairs(screen, camera, audioSources, microphoneDeviceId, fps)
    + EncodingPairs(screen, camera, audioSources, resolution)
  }

  /** The argument list `start_recording` builds before spawning FFmpeg,
      in its two halves. The session id is not part of it. */
  method MacRecordingArgs(outputPath: string, screenSource: Option<string>, cameraSource: Option<string>,
                          audioSources: seq<string>, microphoneDeviceId: Option<string>,
                          resolution: string, fps: nat) returns (args: seq<string>)
    ensures args == RecordingArgs(MacPairs(screenSource, cameraSource, audioSources, microphoneDeviceId,
                                           resolution, fps), outputPath)
  {
    args := ["-y"];
    args := AddInputs(args, screenSource, cameraSource, audioSources, microphoneDeviceId, fps);
    ghost var inputs := InputPairs(screenSource, cameraSource, audioSources, microphoneDeviceId, fps);
    ghost var before := args;
    args := AddEncoding(args, screenSource, cameraSource, audioSources, resolution);
    ExtendArgs(before, ["-y"], inputs, EncodingPairs(screenSource, cameraSource, audioSources, resolution));
    args := args + [outputPath];
  }

  /** The input half of `start_recording`. */
  method AddInputs(args: seq<string>, screenSource: Option<string>, cameraSource: Option<string>,
                   audioSources: seq<string>, microphoneDeviceId: Option<string>, fps: nat)
    returns (r: seq<string>)
    ensures r == args + Flatten(InputPairs(screenSource, cameraSource, audioSources, microphoneDeviceId, fps))
  {
    r := args;
    var hasScreen := screenSource.Some?;
    var hasCamera := cameraSource.Some?;
    var hasAudio := audioSources != [];

    if hasScreen {
      var screenIdx := screenSource.value;
      var input := if hasAudio && "system" in audioSources then screenIdx + ":none" else screenIdx;
      r := r + ["-f", "avfoundation", "-capture_cursor", "1", "-r", NatToString(fps)];
      r := r + ["-i", input];
      FlattenFour(("-f", "avfoundation"), ("-capture_cursor", "1"), ("-r", NatToString(fps)), ("-i", input));
    }
    ghost var ps := ScreenPairs(screenSource, audioSources, fps);
    assert r == args + Flatten(ps);

    ghost var before := r;
    if hasCamera {
      var cameraIdx := cameraSource.value;
      var cameraInput := if hasAudio && "microphone" in audioSources
                         then cameraIdx + ":" + microphoneDeviceId.GetOr("0") else cameraIdx;
      r := r + ["-f", "avfoundation", "-r", NatToString(fps), "-i", cameraInput];
      FlattenThree(("-f", "avfoundation"), ("-r", NatToString(fps)), ("-i", cameraInput));
    }
    ghost var g := CameraPairs(cameraSource, audioSources, microphoneDeviceId, fps);
    assert r == before + Flatten(g);
    ExtendArgs(before, args, ps, g);
    ps := ps + g;

    before := r;
    if hasAudio && "microphone" in audioSources && !hasScreen && !hasCamera {
      r := r + ["-f", "avfoundation", "-i", ":0"];
      FlattenTwo(("-f", "avfoundation"), ("-i", ":0"));
    }
    g := MicrophonePairs(screenSource, cameraSource, audioSources);
    assert r == before + Flatten(g);
    ExtendArgs(before, args, ps, g);
    ps := ps + g;

    before := r;
    if hasScreen && hasCamera {
      r := r + ["-filter_complex", PipFilter];
      FlattenOne(("-filter_complex", PipFilter));
    }
    g := PipPairs(screenSource, cameraSource);
    assert r == before + Flatten(g);
    ExtendArgs(before, args, ps, g);
  }

  /** The encoding half of `start_recording`. */
  method AddEncoding(args: seq<string>, screenSource: Option<string>, cameraSource: Option<string>,
                     audioSources: seq<string>, resolution: string)
    returns (r: seq<string>)
    ensures r == args + Flatten(EncodingPairs(screenSource, cameraSource, audioSources, resolution))
  {
    var hasScreen := screenSource.Some?;
    var hasCamera := cameraSource.Some?;
    var hasAudio := audioSources != [];

    r := args + ["-c:v", "libx264", "-preset", "ultrafast", "-crf", "23", "-pix_fmt", "yuv420p"];
    FlattenFour(("-c:v", "libx264"), ("-preset", "ultrafast"), ("-crf", "23"), ("-pix_fmt", "yuv420p"));
    ghost var ps := VideoCodecPairs;
    assert r == args + Flatten(ps);

    ghost var before := r;
    if hasAudio {
      r := r + ["-c:a", "aac", "-b:a", "256k", "-ar", "48000"];
      FlattenThree(("-c:a", "aac"), ("-b:a", "256k"), ("-ar", "48000"));
    }
    ghost var g := AudioCodecPairs(audioSources);
    assert r == before + Flatten(g);
    ExtendArgs(before, args, ps, g);
    ps := ps + g;

    before := r;
    if resolution != "source" && !(hasScreen && hasCamera) {
      var parts := Split(resolution, "x");
      if |parts| == 2 {
        r := r + ["-s", resolution];
        FlattenOne(("-s", resolution));
      }
    }
    g := SizePairs(screenSource, cameraSource, resolution);
    assert r == before + Flatten(g);
    ExtendArgs(before, args, ps, g);
    ps := ps + g;

    before := r;
    r := r + ["-movflags", "+faststart"];
    FlattenOne(FastStart);
    ExtendArgs(before, args, ps, [FastStart]);
  }

  // ---------------------------------------------------------------------------
  // What the argument list holds
  // ---------------------------------------------------------------------------

  /** The overlay filter is given exactly when both screen and camera are
      recorded, and it is the picture-in-picture filter. */
  lemma MacOverlay(screen: Option<string>, camera: Option<string>, audioSources: seq<string>,
                   microphoneDeviceId: Option<string>, resolution: string, fps: nat, v: string)
    ensures ("-filter_complex", v) in MacPairs(screen, camera, audioSources, microphoneDeviceId, resolution, fps)
            <==> screen.Some? && camera.Some? && v == PipFilter
  {
  }

  /** `-s` is given exactly when `SetsSize` holds, with the resolution. */
  lemma MacSize(screen: Option<string>, camera: Option<string>, audioSources: seq<string>,
                microphoneDeviceId: Option<string>, resolution: string, fps: nat, v: string)
    ensures ("-s", v) in MacPairs(screen, camera, audioSources, microphoneDeviceId, resolution, fps)
            <==> SetsSize(screen, camera, resolution) && v == resolution
  {
  }

  /** The inputs are the screen (with `:none` audio when system audio is
      asked for), the camera (paired with the chosen or default microphone
      when microphone audio is asked for), and the default microphone `:0`
      only when there is neither screen nor camera. */
  lemma MacInputs(screen: Option<string>, camera: Option<string>, audioSources: seq<string>,
                  microphoneDeviceId: Option<string>, resolution: string, fps: nat, v: string)
    ensures ("-i", v) in MacPairs(screen, camera, audioSources, microphoneDeviceId, resolution, fps)
            <==> (screen.Some? && v == ScreenInput(screen.value, audioSources))
                 || (camera.Some? && v == CameraInput(camera.value, audioSources, microphoneDeviceId))
                 || ("microphone" in audioSources && screen.None? && camera.None? && v == ":0")
  {
  }

  /** The input half sets only input flags. */
  lemma InputPairsFlags(screen: Option<string>, camera: Option<string>, audioSources: seq<string>,
                        microphoneDeviceId: Option<string>, fps: nat, p: (string, string))
    requires p in InputPairs(screen, camera, audioSources, microphoneDeviceId, fps)
    ensures p.0 in {"-f", "-capture_cursor", "-r", "-i", "-filter_complex"}
  {
  }

  /** Among the encoding pairs only the audio group sets `-c:a`, `-b:a` or
      `-ar`. */
  lemma EncodingAudio(screen: Option<string>, camera: Option<string>, audioSources: seq<string>,
                      resolution: string, p: (string, string))
    requires p.0 == "-c:a" || p.0 == "-b:a" || p.0 == "-ar"
    ensures p in EncodingPairs(screen, camera, audioSources, resolution) <==> p in AudioCodecPairs(audioSources)
  {
    assert p !in VideoCodecPairs;
    assert p !in SizePairs(screen, camera, resolution) && p != FastStart;
  }

  /** AAC audio is set up exactly when some audio source is asked for. */
  lemma MacAudioCodec(screen: Option<string>, camera: Option<string>, audioSources: seq<string>,
                      microphoneDeviceId: Option<string>, resolution: string, fps: nat, v: string)
    ensures ("-c:a", v) in MacPairs(screen, camera, audioSources, microphoneDeviceId, resolution, fps)
            <==> audioSources != [] && v == "aac"
  {
    if ("-c:a", v) in InputPairs(screen, camera, audioSources, microphoneDeviceId, fps) {
      InputPairsFlags(screen, camera, audioSources, microphoneDeviceId, fps, ("-c:a", v));
    }
    EncodingAudio(screen, camera, audioSources, resolution, ("-c:a", v));
  }

  /** So is the 256 kbit/s audio bitrate. */
  lemma MacAudioBitrate(screen: Option<string>, camera: Option<string>, audioSources: seq<string>,
                        microphoneDeviceId: Option<string>, resolution: string, fps: nat, v: string)
    ensures ("-b:a", v) in MacPairs(screen, camera, audioSources, microphoneDeviceId, resolution, fps)
            <==> audioSources != [] && v == "256k"
  {
    if ("-b:a", v) in InputPairs(screen, camera, audioSources, microphoneDeviceId, fps) {
      InputPairsFlags(screen, camera, audioSources, microphoneDeviceId, fps, ("-b:a", v));
    }
    EncodingAudio(screen, camera, audioSources, resolution, ("-b:a", v));
  }

  /** So is the 48 kHz sample rate. */
  lemma MacSampleRate(screen: Option<string>, camera: Option<string>, audioSources: seq<string>,
                      microphoneDeviceId: Option<string>, resolution: string, fps: nat, v: string)
    ensures ("-ar", v) in MacPairs(screen, camera, audioSources, microphoneDeviceId, resolution, fps)
            <==> audioSources != [] && v == "48000"
  {
    if ("-ar", v) in InputPairs(screen, camera, audioSources, microphoneDeviceId, fps) {
      InputPairsFlags(screen, camera, audioSources, microphoneDeviceId, fps, ("-ar", v));
    }
    EncodingAudio(screen, camera, audioSources, resolution, ("-ar", v));
  }

  /** The list starts with `-y` and ends with `-movflags +faststart` and the
      output path. */
  lemma MacArgsEnds(screen: Option<string>, camera: Option<string>, audioSources: seq<string>,
                    microphoneDeviceId: Option<string>, resolution: string, fps: nat, outputPath: string)
    ensures var args := RecordingArgs(MacPairs(screen, camera, audioSources, microphoneDeviceId, resolution, fps),
                                      outputPath);
            args[0] == "-y" && args[|args| - 3..] == ["-movflags", "+faststart", outputPath]
  {
    var ps := MacPairs(screen, camera, audioSources, microphoneDeviceId, resolution, fps);
    RecordingArgsShape(ps, outputPath, "-y", outputPath);
    RecordingArgsEnd(ps, outputPath);
  }
}
