/** The FFmpeg command line that renders a concat manifest with the user's
    export settings (`build_export_command` in ffmpeg/export.rs). */
module ExportCommand {
  import opened Wrappers
  import opened Text
  import opened CommandLine
  import opened ExportModel

  /** The operating system the program was built for; it decides only which
      hardware H.264 encoder is asked for. */
  datatype Platform = MacOS | Windows | OtherOs

  /** The encoder passed with `-c:v`: a hardware H.264 encoder where the
      platform has one and acceleration is on, the codec's software encoder
      otherwise. */
  function VideoEncoder(platform: Platform, s: ExportSettings): string {
    if s.hardwareAcceleration && s.codec == H264 then
      match platform
      case MacOS => "h264_videotoolbox"
      case Windows => "h264_nvenc"
      case OtherOs => VideoCodecName(s.codec)
    else VideoCodecName(s.codec)
  }

  /** Rate control: the quality's CRF unless a hardware H.264 encoder is
      used, which gets a fixed 5 Mbit/s instead. */
  predicate UsesCrf(s: ExportSettings) {
    !s.hardwareAcceleration || s.codec != H264
  }

  function RateArgs(s: ExportSettings): seq<string> {
    if UsesCrf(s) then ["-crf", NatToString(CrfValue(s.quality))] else ["-b:v", "5M"]
  }

  function PresetArgs(s: ExportSettings): seq<string> {
    if !s.hardwareAcceleration then ["-preset", "medium"] else []
  }

  /** `scale=W:H:force_original_aspect_ratio=decrease`. */
  function ScaleFilter(width: nat, height: nat): string {
    "scale=" + NatToString(width) + ":" + NatToString(height) + ":force_original_aspect_ratio=decrease"
  }

  function ScaleArgs(dims: Option<(nat, nat)>): seq<string> {
    match dims
    case None => []
    case Some(d) => ["-vf", ScaleFilter(d.0, d.1)]
  }

  function FpsArgs(fps: Option<nat>): seq<string> {
    match fps
    case None => []
    case Some(f) => ["-r", NatToString(f)]
  }

  /** The argument list in the source's commented groups: the concat
      input, the video stream (encoder, rate control, preset, scaling,
      frame rate), the audio stream, and the output. */
  function InputArgs(concatFile: string): seq<string> {
    ["-f", "concat", "-safe", "0", "-i", concatFile]
  }

  function VideoArgs(platform: Platform, s: ExportSettings): seq<string> {
    ["-c:v", VideoEncoder(platform, s)] + RateArgs(s) + PresetArgs(s)
    + ScaleArgs(Dimensions(s.resolution)) + FpsArgs(s.fps)
  }

  function AudioArgs(s: ExportSettings): seq<string> {
    ["-c:a", AudioCodecName(s.audioCodec), "-b:a", NatToString(s.audioBitrate) + "k"]
  }

  /** The whole argument list, in the order the source adds the arguments;
      apart from the output path after `-y` it is a run of `flag value`
      pairs. */
  function ExportArgs(concatFile: string, outputPath: string, s: ExportSettings,
                      platform: Platform): seq<string>
  {
    InputArgs(concatFile) + VideoArgs(platform, s) + AudioArgs(s) + ["-y", outputPath]
  }

  lemma TwoPairs(a: string, b: string, c: string, d: string)
    ensures [a, b] + [c, d] == [a, b, c, d]
  {
  }

  /** `build_export_command`: adds the arguments to an `ffmpeg` command step
      by step. The source's `Result` is always `Ok`, so the command is
      returned as it is. */
  method BuildExportCommand(concatFile: string, outputPath: string, s: ExportSettings,
                            platform: Platform) returns (cmd: Command)
    ensures cmd == Command("ffmpeg", ExportArgs(concatFile, outputPath, s, platform))
  {
    var args := ["-f", "concat", "-safe", "0", "-i", concatFile];
    ghost var input := args;
    if s.hardwareAcceleration {
      match s.codec {
        case H264 =>
          match platform {
            case MacOS => args := args + ["-c:v", "h264_videotoolbox"];
            case Windows => args := args + ["-c:v", "h264_nvenc"];
            case OtherOs => args := args + ["-c:v", VideoCodecName(s.codec)];
          }
        case _ => args := args + ["-c:v", VideoCodecName(s.codec)];
      }
    } else {
      args := args + ["-c:v", VideoCodecName(s.codec)];
    }
    ghost var video := ["-c:v", VideoEncoder(platform, s)];
    assert args == input + video;
    ghost var before := args;
    if !s.hardwareAcceleration || s.codec != H264 {
      args := args + ["-crf", NatToString(CrfValue(s.quality))];
    } else {
      args := args + ["-b:v", "5M"];
    }
    assert args == before + RateArgs(s);
    AppendAssoc(input, video, RateArgs(s));
    video := video + RateArgs(s);
    before := args;
    if !s.hardwareAcceleration {
      args := args + ["-preset", "medium"];
    }
    assert args == before + PresetArgs(s);
    AppendAssoc(input, video, PresetArgs(s));
    video := video + PresetArgs(s);
    var dims := Dimensions(s.resolution);
    before := args;
    if dims.Some? {
      args := args + ["-vf", ScaleFilter(dims.value.0, dims.value.1)];
    }
    assert args == before + ScaleArgs(dims);
    AppendAssoc(input, video, ScaleArgs(dims));
    video := video + ScaleArgs(dims);
    before := args;
    if s.fps.Some? {
      args := args + ["-r", NatToString(s.fps.value)];
    }
    assert args == before + FpsArgs(s.fps);
    AppendAssoc(input, video, FpsArgs(s.fps));
    video := video + FpsArgs(s.fps);
    ghost var mark := args;
    args := args + ["-c:a", AudioCodecName(s.audioCodec)];
    args := args + ["-b:a", NatToString(s.audioBitrate) + "k"];
    AppendAssoc(mark, ["-c:a", AudioCodecName(s.audioCodec)], ["-b:a", NatToString(s.audioBitrate) + "k"]);
    TwoPairs("-c:a", AudioCodecName(s.audioCodec), "-b:a", NatToString(s.audioBitrate) + "k");
    args := args + ["-y", outputPath];
    cmd := Command("ffmpeg", args);
  }

  /** Every export reads the manifest through the concat demuxer first and
      ends by overwriting the output file. */
  lemma ExportArgsEnds(concatFile: string, outputPath: string, s: ExportSettings, platform: Platform)
    ensures var args := ExportArgs(concatFile, outputPath, s, platform);
            |args| >= 14 && args[..6] == InputArgs(concatFile)
            && args[|args| - 2..] == ["-y", outputPath]
  {
    var args := ExportArgs(concatFile, outputPath, s, platform);
    var middle := VideoArgs(platform, s) + AudioArgs(s);
    assert args == InputArgs(concatFile) + middle + ["-y", outputPath];
  }

  /** A single `flag value` pair gives its value to its own flag only. */
  lemma ValuesPair(f: string, v: string, flag: string)
    ensures Values([f, v], flag) == if f == flag then [v] else []
  {
    assert [f, v][2..] == [];
  }

  /** The video group is a run of whole pairs. */
  lemma VideoPairCount(platform: Platform, s: ExportSettings) returns (n: nat)
    ensures |VideoArgs(platform, s)| == 2 * n
  {
    var cv := ["-c:v", VideoEncoder(platform, s)];
    var r := RateArgs(s);
    var p := PresetArgs(s);
    var sc := ScaleArgs(Dimensions(s.resolution));
    var fr := FpsArgs(s.fps);
    var np := if s.hardwareAcceleration then 0 else 1;
    var ns := if s.resolution == Source then 0 else 1;
    var nf := if s.fps.None? then 0 else 1;
    assert |p| == 2 * np && |sc| == 2 * ns && |fr| == 2 * nf;
    n := 2 + np + ns + nf;
  }

  /** The values of `flag` across the four groups of the argument list. */
  lemma ExportValues(concatFile: string, outputPath: string, s: ExportSettings,
                     platform: Platform, flag: string)
    ensures Values(ExportArgs(concatFile, outputPath, s, platform), flag)
            == Values(InputArgs(concatFile), flag) + Values(VideoArgs(platform, s), flag)
               + Values(AudioArgs(s), flag) + Values(["-y", outputPath], flag)
  {
    var input := InputArgs(concatFile);
    var video := VideoArgs(platform, s);
    var n := VideoPairCount(platform, s);
    ValuesAppend(input, video, flag, 3);
    ValuesAppend(input + video, AudioArgs(s), flag, 3 + n);
    ValuesAppend(input + video + AudioArgs(s), ["-y", outputPath], flag, 5 + n);
  }

  lemma InputValues(concatFile: string, flag: string)
    ensures Values(InputArgs(concatFile), flag)
            == (if flag == "-f" then ["concat"] else []) + (if flag == "-safe" then ["0"] else [])
               + (if flag == "-i" then [concatFile] else [])
  {
    var a := InputArgs(concatFile);
    assert a[2..] == ["-safe", "0", "-i", concatFile];
    assert a[2..][2..] == ["-i", concatFile];
    ValuesPair("-i", concatFile, flag);
  }

  lemma AudioValues(s: ExportSettings, flag: string)
    ensures Values(AudioArgs(s), flag)
            == (if flag == "-c:a" then [AudioCodecName(s.audioCodec)] else [])
               + (if flag == "-b:a" then [NatToString(s.audioBitrate) + "k"] else [])
  {
    var a := AudioArgs(s);
    assert a[2..] == ["-b:a", NatToString(s.audioBitrate) + "k"];
    ValuesPair("-b:a", NatToString(s.audioBitrate) + "k", flag);
  }

  lemma RateValues(s: ExportSettings, flag: string)
    ensures Values(RateArgs(s), flag)
            == if UsesCrf(s) then (if flag == "-crf" then [NatToString(CrfValue(s.quality))] else [])
               else (if flag == "-b:v" then ["5M"] else [])
  {
    if UsesCrf(s) {
      ValuesPair("-crf", NatToString(CrfValue(s.quality)), flag);
    } else {
      ValuesPair("-b:v", "5M", flag);
    }
  }

  lemma PresetValues(s: ExportSettings, flag: string)
    ensures Values(PresetArgs(s), flag)
            == if !s.hardwareAcceleration && flag == "-preset" then ["medium"] else []
  {
    if !s.hardwareAcceleration {
      ValuesPair("-preset", "medium", flag);
    }
  }

  lemma ScaleValues(dims: Option<(nat, nat)>, flag: string)
    ensures Values(ScaleArgs(dims), flag)
            == if dims.Some? && flag == "-vf" then [ScaleFilter(dims.value.0, dims.value.1)] else []
  {
    if dims.Some? {
      ValuesPair("-vf", ScaleFilter(dims.value.0, dims.value.1), flag);
    }
  }

  lemma FpsValues(fps: Option<nat>, flag: string)
    ensures Values(FpsArgs(fps), flag)
            == if fps.Some? && flag == "-r" then [NatToString(fps.value)] else []
  {
    if fps.Some? {
      ValuesPair("-r", NatToString(fps.value), flag);
    }
  }

  /** The values of `flag` across the video group. */
  lemma VideoValues(platform: Platform, s: ExportSettings, flag: string)
    ensures Values(VideoArgs(platform, s), flag)
            == Values(["-c:v", VideoEncoder(platform, s)], flag) + Values(RateArgs(s), flag)
               + Values(PresetArgs(s), flag) + Values(ScaleArgs(Dimensions(s.resolution)), flag)
               + Values(FpsArgs(s.fps), flag)
  {
    var cv := ["-c:v", VideoEncoder(platform, s)];
    var r := RateArgs(s);
    var p := PresetArgs(s);
    var sc := ScaleArgs(Dimensions(s.resolution));
    var n := 2 + |p| / 2;
    ValuesAppend(cv, r, flag, 1);
    ValuesAppend(cv + r, p, flag, 2);
    ValuesAppend(cv + r + p, sc, flag, n);
    ValuesAppend(cv + r + p + sc, FpsArgs(s.fps), flag, n + |sc| / 2);
  }

  /** A flag of the video group takes its values from that group alone. */
  lemma VideoFlag(concatFile: string, outputPath: string, s: ExportSettings, platform: Platform,
                  flag: string)
    requires flag in {"-c:v", "-crf", "-b:v", "-preset", "-vf", "-r"}
    ensures Values(ExportArgs(concatFile, outputPath, s, platform), flag) == Values(VideoArgs(platform, s), flag)
  {
    ExportValues(concatFile, outputPath, s, platform, flag);
    InputValues(concatFile, flag);
    AudioValues(s, flag);
    ValuesPair("-y", outputPath, flag);
  }

  /** Exactly one encoder, whatever the settings. */
  lemma EncoderFlag(concatFile: string, outputPath: string, s: ExportSettings, platform: Platform)
    ensures Values(ExportArgs(concatFile, outputPath, s, platform), "-c:v") == [VideoEncoder(platform, s)]
  {
    var f := "-c:v";
    VideoFlag(concatFile, outputPath, s, platform, f);
    VideoValues(platform, s, f);
    ValuesPair(f, VideoEncoder(platform, s), f);
    RateValues(s, f);
    PresetValues(s, f);
    ScaleValues(Dimensions(s.resolution), f);
    FpsValues(s.fps, f);
  }

  /** A CRF exactly when `UsesCrf`: the quality tier's own value. */
  lemma CrfFlag(concatFile: string, outputPath: string, s: ExportSettings, platform: Platform)
    ensures Values(ExportArgs(concatFile, outputPath, s, platform), "-crf")
            == if UsesCrf(s) then [NatToString(CrfValue(s.quality))] else []
  {
    var f := "-crf";
    VideoFlag(concatFile, outputPath, s, platform, f);
    VideoValues(platform, s, f);
    ValuesPair("-c:v", VideoEncoder(platform, s), f);
    RateValues(s, f);
    PresetValues(s, f);
    ScaleValues(Dimensions(s.resolution), f);
    FpsValues(s.fps, f);
  }

  /** A fixed 5M video bitrate exactly when no CRF is used. */
  lemma BitrateFlag(concatFile: string, outputPath: string, s: ExportSettings, platform: Platform)
    ensures Values(ExportArgs(concatFile, outputPath, s, platform), "-b:v")
            == if UsesCrf(s) then [] else ["5M"]
  {
    var f := "-b:v";
    VideoFlag(concatFile, outputPath, s, platform, f);
    VideoValues(platform, s, f);
    ValuesPair("-c:v", VideoEncoder(platform, s), f);
    RateValues(s, f);
    PresetValues(s, f);
    ScaleValues(Dimensions(s.resolution), f);
    FpsValues(s.fps, f);
  }

  /** The `medium` preset exactly for software encoding. */
  lemma PresetFlag(concatFile: string, outputPath: string, s: ExportSettings, platform: Platform)
    ensures Values(ExportArgs(concatFile, outputPath, s, platform), "-preset")
            == if s.hardwareAcceleration then [] else ["medium"]
  {
    var f := "-preset";
    VideoFlag(concatFile, outputPath, s, platform, f);
    VideoValues(platform, s, f);
    ValuesPair("-c:v", VideoEncoder(platform, s), f);
    RateValues(s, f);
    PresetValues(s, f);
    ScaleValues(Dimensions(s.resolution), f);
    FpsValues(s.fps, f);
  }

  /** A scale filter to the resolution's frame size exactly when the
      resolution is not Source. */
  lemma ScaleFlag(concatFile: string, outputPath: string, s: ExportSettings, platform: Platform)
    ensures Values(ExportArgs(concatFile, outputPath, s, platform), "-vf")
            == if s.resolution == Source then []
               else [ScaleFilter(Dimensions(s.resolution).value.0, Dimensions(s.resolution).value.1)]
  {
    var f := "-vf";
    var dims := Dimensions(s.resolution);
    VideoFlag(concatFile, outputPath, s, platform, f);
    VideoValues(platform, s, f);
    ValuesPair("-c:v", VideoEncoder(platform, s), f);
    RateValues(s, f);
    PresetValues(s, f);
    ScaleValues(dims, f);
    FpsValues(s.fps, f);
    assert Values(VideoArgs(platform, s), f) == Values(ScaleArgs(dims), f);
  }

  /** A frame rate exactly when one is set. */
  lemma FrameRateFlag(concatFile: string, outputPath: string, s: ExportSettings, platform: Platform)
    ensures Values(ExportArgs(concatFile, outputPath, s, platform), "-r")
            == if s.fps.None? then [] else [NatToString(s.fps.value)]
  {
    var f := "-r";
    VideoFlag(concatFile, outputPath, s, platform, f);
    VideoValues(platform, s, f);
    ValuesPair("-c:v", VideoEncoder(platform, s), f);
    RateValues(s, f);
    PresetValues(s, f);
    ScaleValues(Dimensions(s.resolution), f);
    FpsValues(s.fps, f);
  }

  /** A flag outside the video group gets nothing from it. */
  lemma VideoSilent(platform: Platform, s: ExportSettings, flag: string)
    requires flag !in {"-c:v", "-crf", "-b:v", "-preset", "-vf", "-r"}
    ensures Values(VideoArgs(platform, s), flag) == []
  {
    VideoValues(platform, s, flag);
    ValuesPair("-c:v", VideoEncoder(platform, s), flag);
    RateValues(s, flag);
    PresetValues(s, flag);
    ScaleValues(Dimensions(s.resolution), flag);
    FpsValues(s.fps, flag);
  }

  /** Always the audio codec and its bitrate in kbit/s, once each. */
  lemma AudioFlags(concatFile: string, outputPath: string, s: ExportSettings, platform: Platform)
    ensures Values(ExportArgs(concatFile, outputPath, s, platform), "-c:a") == [AudioCodecName(s.audioCodec)]
    ensures Values(ExportArgs(concatFile, outputPath, s, platform), "-b:a") == [NatToString(s.audioBitrate) + "k"]
  {
    ExportValues(concatFile, outputPath, s, platform, "-c:a");
    InputValues(concatFile, "-c:a");
    VideoSilent(platform, s, "-c:a");
    AudioValues(s, "-c:a");
    ValuesPair("-y", outputPath, "-c:a");
    ExportValues(concatFile, outputPath, s, platform, "-b:a");
    InputValues(concatFile, "-b:a");
    VideoSilent(platform, s, "-b:a");
    AudioValues(s, "-b:a");
    ValuesPair("-y", outputPath, "-b:a");
  }

  /** The platform changes the encoder name and nothing else: every other
      flag has the same values on every platform. */
  lemma PlatformOnlyPicksEncoder(concatFile: string, outputPath: string, s: ExportSettings,
                                 p: Platform, q: Platform, flag: string)
    requires flag != "-c:v"
    ensures Values(ExportArgs(concatFile, outputPath, s, p), flag)
            == Values(ExportArgs(concatFile, outputPath, s, q), flag)
  {
    ExportValues(concatFile, outputPath, s, p, flag);
    ExportValues(concatFile, outputPath, s, q, flag);
    VideoValues(p, s, flag);
    VideoValues(q, s, flag);
    ValuesPair("-c:v", VideoEncoder(p, s), flag);
    ValuesPair("-c:v", VideoEncoder(q, s), flag);
  }

  /** The decimal text of the numbers the default settings print. */
  lemma DefaultNumerals()
    ensures NatToString(1920) == "1920" && NatToString(1080) == "1080" && NatToString(192) == "192"
  {
    assert DigitChar(0) == '0' && DigitChar(1) == '1' && DigitChar(2) == '2';
    assert DigitChar(8) == '8' && DigitChar(9) == '9';
    assert NatToString(19) == NatToString(1) + [DigitChar(9)];
    assert NatToString(192) == NatToString(19) + [DigitChar(2)];
    assert NatToString(1920) == NatToString(192) + [DigitChar(0)];
    assert NatToString(10) == NatToString(1) + [DigitChar(0)];
    assert NatToString(108) == NatToString(10) + [DigitChar(8)];
    assert NatToString(1080) == NatToString(108) + [DigitChar(0)];
  }

  /** The default settings on macOS: VideoToolbox at 5M, no preset, scaled to
      1080p, AAC at 192k. */
  lemma DefaultMacCommand(concatFile: string, outputPath: string)
    ensures ExportArgs(concatFile, outputPath, DefaultSettings(), MacOS)
            == ["-f", "concat", "-safe", "0", "-i", concatFile,
                "-c:v", "h264_videotoolbox", "-b:v", "5M",
                "-vf", "scale=" + "1920" + ":" + "1080" + ":force_original_aspect_ratio=decrease",
                "-c:a", "aac", "-b:a", "192" + "k", "-y", outputPath]
  {
    var s := DefaultSettings();
    DefaultNumerals();
    assert VideoArgs(MacOS, s) == ["-c:v", "h264_videotoolbox", "-b:v", "5M", "-vf", ScaleFilter(1920, 1080)];
    assert AudioArgs(s) == ["-c:a", "aac", "-b:a", "192" + "k"];
  }
}
