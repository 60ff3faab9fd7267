/** What `extract_metadata` (ffmpeg/metadata.rs) makes of ffprobe's
    answer: the frame-rate parser, and the choice of streams and fields once
    the JSON is parsed. Running ffprobe and decoding its JSON are not
    modelled; the parsed streams and format block are parameters. */
module Metadata {
  import opened Wrappers
  import opened Text

  // ---------------------------------------------------------------------------
  // parse_frame_rate
  // ---------------------------------------------------------------------------

  function InvalidFormatError(s: string): string { "Invalid frame rate format: " + s }
  function InvalidNumeratorError(s: string): string { "Invalid numerator: " + s }
  function InvalidDenominatorError(s: string): string { "Invalid denominator: " + s }
  const ZeroDenominatorError := "Frame rate denominator cannot be zero"

  /** `parse_frame_rate`: a rate written as a fraction such as "30000/1001". */
  function ParseFrameRate(s: string): (r: Result<real>)
    ensures r.Ok? ==> |Split(s, "/")| == 2
    ensures r.Ok? ==> ParseDecimal(Split(s, "/")[1]).Some? && ParseDecimal(Split(s, "/")[1]).value != 0.0
  {
    var parts := Split(s, "/");
    if |parts| != 2 then Err(InvalidFormatError(s))
    else
      match ParseDecimal(parts[0])
      case None => Err(InvalidNumeratorError(parts[0]))
      case Some(numerator) =>
        match ParseDecimal(parts[1])
        case None => Err(InvalidDenominatorError(parts[1]))
        case Some(denominator) =>
          if denominator == 0.0 then Err(ZeroDenominatorError)
          else Ok(numerator / denominator)
  }

  /** The text must hold exactly one '/'; with none or several the whole
      text is reported. */
  lemma FrameRateSlashes(s: string)
    ensures multiset(s)['/'] != 1 ==> ParseFrameRate(s) == Err(InvalidFormatError(s))
    ensures ParseFrameRate(s).Ok? ==> multiset(s)['/'] == 1
  {
    SplitCharCount(s, '/');
  }

  /** A fraction reads as the quotient of its two numbers, after the checks
      in order: the numerator, then the denominator, then a zero
      denominator. */
  lemma FrameRateOfFraction(a: string, b: string)
    requires '/' !in a && '/' !in b
    ensures var r := ParseFrameRate(a + "/" + b);
            && (ParseDecimal(a).None? ==> r == Err(InvalidNumeratorError(a)))
            && (ParseDecimal(a).Some? && ParseDecimal(b).None? ==> r == Err(InvalidDenominatorError(b)))
            && (ParseDecimal(a).Some? && ParseDecimal(b) == Some(0.0) ==> r == Err(ZeroDenominatorError))
            && (ParseDecimal(a).Some? && ParseDecimal(b).Some? && ParseDecimal(b).value != 0.0
                ==> r == Ok(ParseDecimal(a).value / ParseDecimal(b).value))
  {
    SplitTwo(a, "/", b);
  }

  /** A rate printed as two whole numbers reads back as their quotient, and
      a zero denominator is refused. */
  lemma FrameRateOfNumbers(n: nat, d: nat)
    ensures ParseFrameRate(NatToString(n) + "/" + NatToString(d))
            == if d == 0 then Err(ZeroDenominatorError) else Ok(n as real / d as real)
  {
    var a, b := NatToString(n), NatToString(d);
    if d == 0 {
      NoSlashInDigits(a);
      NoSlashInDigits(b);
      ParseDecimalOfDigits(a);
      ParseDecimalOfDigits(b);
      FrameRateOfFraction(a, b);
    } else {
      FrameRateOfDigits(a, b, n, d);
    }
  }

  lemma NoSlashInDigits(s: string)
    requires AllDigits(s)
    ensures '/' !in s
  {
    assert forall i :: 0 <= i < |s| ==> s[i] != '/';
  }

  /** Two runs of digits around the '/' read as the quotient of their
      values. */
  lemma FrameRateOfDigits(a: string, b: string, n: nat, d: nat)
    requires |a| > 0 && AllDigits(a) && |b| > 0 && AllDigits(b)
    requires DigitsValue(a) == n && DigitsValue(b) == d && d != 0
    ensures ParseFrameRate(a + "/" + b) == Ok(n as real / d as real)
  {
    NoSlashInDigits(a);
    NoSlashInDigits(b);
    ParseDecimalOfDigits(a);
    ParseDecimalOfDigits(b);
    FrameRateOfFraction(a, b);
  }

  /** The whole-number rates of the unit tests. */
  lemma FrameRateThirty()
    ensures ParseFrameRate("30" + "/" + "1") == Ok(30.0)
  {
    TwoDigits('3', '0');
    OneDigit();
    FrameRateOfDigits("30", "1", 30, 1);
  }

  lemma FrameRateSixty()
    ensures ParseFrameRate("60" + "/" + "1") == Ok(60.0)
  {
    TwoDigits('6', '0');
    OneDigit();
    FrameRateOfDigits("60", "1", 60, 1);
  }

  lemma OneDigit()
    ensures AllDigits("1") && DigitsValue("1") == 1
  {
    assert "1"[..0] == [];
  }

  /** NTSC's 30000/1001, which the unit test expects within 0.01 of 29.97. */
  lemma FrameRateNtsc()
    ensures var r := ParseFrameRate("30000" + "/" + "1001");
            r.Ok? && 29.96 < r.value < 29.98
  {
    NtscDigits();
    FrameRateOfDigits("30000", "1001", 30000, 1001);
    NtscNear(30000.0 / 1001.0);
  }

  lemma NtscNear(r: real)
    requires r * 1001.0 == 30000.0
    ensures 29.96 < r < 29.98
  {
  }

  lemma NtscDigits()
    ensures AllDigits("30000") && DigitsValue("30000") == 30000
    ensures AllDigits("1001") && DigitsValue("1001") == 1001
  {
    ThreeDigits('3', '0', '0');
    DigitsSnoc("300", '0');
    assert "300" + ['0'] == "3000";
    DigitsSnoc("3000", '0');
    assert "3000" + ['0'] == "30000";
    ThreeDigits('1', '0', '0');
    DigitsSnoc("100", '1');
    assert "100" + ['1'] == "1001";
  }

  // ---------------------------------------------------------------------------
  // Stream selection in extract_metadata
  // ---------------------------------------------------------------------------

  /** One entry of ffprobe's `streams`, fields as they arrive. */
  datatype ProbeStream = ProbeStream(
    codecType: Option<string>,
    codecName: Option<string>,
    width: Option<nat>,
    height: Option<nat>,
    rFrameRate: Option<string>,
    bitRate: Option<string>)

  /** ffprobe's `format` block. */
  datatype ProbeFormat = ProbeFormat(duration: Option<string>, bitRate: Option<string>)

  /** `VideoMetadata`: what the import records about a file. */
  datatype VideoMetadata = VideoMetadata(
    duration: real,
    resolution: string,
    width: nat,
    height: nat,
    fps: real,
    codec: string,
    audioCodec: Option<string>,
    bitrate: Option<nat>,
    hasAudio: bool)

  const NoVideoError := "No video stream found"
  const NoWidthError := "Width not found"
  const NoHeightError := "Height not found"
  const NoCodecError := "Codec not found"
  const NoDurationError := "Duration not found"

  /** Frame rate assumed when the video stream gives none. */
  const DefaultFps: real := 30.0

  /** `streams.iter().find(|s| s.codec_type == kind)`, as an index. */
  function FirstStream(streams: seq<ProbeStream>, kind: string): (r: Option<nat>)
    ensures r.Some? ==> r.value < |streams| && streams[r.value].codecType == Some(kind)
    ensures r.Some? ==> forall j :: 0 <= j < r.value ==> streams[j].codecType != Some(kind)
    ensures r.None? <==> forall j :: 0 <= j < |streams| ==> streams[j].codecType != Some(kind)
  {
    if streams == [] then None
    else if streams[0].codecType == Some(kind) then Some(0)
    else
      match FirstStream(streams[1..], kind)
      case None => None
      case Some(k) => Some(k + 1)
  }

  /** `WxH`. */
  function ResolutionText(width: nat, height: nat): string {
    NatToString(width) + "x" + NatToString(height)
  }

  /** The bit rate: the video stream's text when it has one, else the
      format's, then parsed; a text that does not parse gives none, with no
      second try. */
  function BitrateOf(video: ProbeStream, format: ProbeFormat): Option<nat> {
    var text := if video.bitRate.Some? then video.bitRate else format.bitRate;
    if text.Some? then ParseU64(text.value) else None
  }

  /** The fields read off the video stream and the format block. */
  datatype VideoFields = VideoFields(width: nat, height: nat, codec: string, fps: real, duration: real)

  /** The checks on the video stream and the format, in the source's order;
      the first that fails is the answer. */
  function ReadVideo(video: ProbeStream, format: ProbeFormat): Result<VideoFields> {
    if video.width.None? then Err(NoWidthError)
    else if video.height.None? then Err(NoHeightError)
    else if video.codecName.None? then Err(NoCodecError)
    else
      var fps := if video.rFrameRate.Some? then ParseFrameRate(video.rFrameRate.value) else Ok(DefaultFps);
      if fps.Err? then Err(fps.error)
      else
        var duration := if format.duration.Some? then ParseDecimal(format.duration.value) else None;
        if duration.None? then Err(NoDurationError)
        else Ok(VideoFields(video.width.value, video.height.value, video.codecName.value, fps.value, duration.value))
  }

  /** The record built from the fields read and the first audio stream. */
  function Describe(streams: seq<ProbeStream>, video: ProbeStream, format: ProbeFormat, f: VideoFields): VideoMetadata {
    var audio := FirstStream(streams, "audio");
    VideoMetadata(f.duration, ResolutionText(f.width, f.height), f.width, f.height, f.fps, f.codec,
                  if audio.Some? then streams[audio.value].codecName else None,
                  BitrateOf(video, format), audio.Some?)
  }

  /** The part of `extract_metadata` after ffprobe's JSON is decoded. */
  function ExtractMetadata(streams: seq<ProbeStream>, format: ProbeFormat): (r: Result<VideoMetadata>)
    ensures FirstStream(streams, "video").None? ==> r == Err(NoVideoError)
    ensures r.Ok? ==> FirstStream(streams, "video").Some?
  {
    match FirstStream(streams, "video")
    case None => Err(NoVideoError)
    case Some(v) =>
      match ReadVideo(streams[v], format)
      case Err(e) => Err(e)
      case Ok(f) => Ok(Describe(streams, streams[v], format, f))
  }

  /** Given a video stream, the checks run in order: width, height, codec,
      frame rate, duration; the first that fails is the answer. */
  lemma MetadataErrors(streams: seq<ProbeStream>, format: ProbeFormat, v: nat)
    requires FirstStream(streams, "video") == Some(v)
    ensures var video := streams[v];
            var r := ExtractMetadata(streams, format);
            && (video.width.None? ==> r == Err(NoWidthError))
            && (video.width.Some? && video.height.None? ==> r == Err(NoHeightError))
            && (video.width.Some? && video.height.Some? && video.codecName.None? ==> r == Err(NoCodecError))
            && (video.width.Some? && video.height.Some? && video.codecName.Some?
                && video.rFrameRate.Some? && ParseFrameRate(video.rFrameRate.value).Err?
                ==> r == Err(ParseFrameRate(video.rFrameRate.value).error))
            && (video.width.Some? && video.height.Some? && video.codecName.Some?
                && (video.rFrameRate.None? || ParseFrameRate(video.rFrameRate.value).Ok?)
                ==> (r.Ok? <==> format.duration.Some? && ParseDecimal(format.duration.value).Some?))
            && (r.Err? && r.error == NoDurationError ==>
                  format.duration.None? || ParseDecimal(format.duration.value).None?)
  {
  }

  /** A successful answer describes the first video stream: its size and
      codec, its frame rate or 30, and the format's duration. */
  lemma MetadataOfVideo(streams: seq<ProbeStream>, format: ProbeFormat, v: nat)
    requires FirstStream(streams, "video") == Some(v)
    requires ExtractMetadata(streams, format).Ok?
    ensures var m := ExtractMetadata(streams, format).value;
            var video := streams[v];
            && video.width == Some(m.width) && video.height == Some(m.height) && video.codecName == Some(m.codec)
            && (video.rFrameRate.None? ==> m.fps == DefaultFps)
            && (video.rFrameRate.Some? ==> ParseFrameRate(video.rFrameRate.value) == Ok(m.fps))
            && format.duration.Some? && ParseDecimal(format.duration.value) == Some(m.duration)
  {
  }

  /** Audio is reported exactly when some stream is audio, with the first
      audio stream's codec. */
  lemma MetadataAudio(streams: seq<ProbeStream>, format: ProbeFormat)
    requires ExtractMetadata(streams, format).Ok?
    ensures var m := ExtractMetadata(streams, format).value;
            && (m.hasAudio <==> exists k :: 0 <= k < |streams| && streams[k].codecType == Some("audio"))
            && (m.hasAudio ==> m.audioCodec == streams[FirstStream(streams, "audio").value].codecName)
            && (!m.hasAudio ==> m.audioCodec.None?)
  {
    var v := FirstStream(streams, "video").value;
    var audio := FirstStream(streams, "audio");
    if audio.Some? {
      assert streams[audio.value].codecType == Some("audio");
    }
  }

  /** The video stream's bit rate wins over the format's whenever it is
      present, even when only the format's would parse. */
  lemma MetadataBitrate(streams: seq<ProbeStream>, format: ProbeFormat, v: nat)
    requires FirstStream(streams, "video") == Some(v)
    requires ExtractMetadata(streams, format).Ok?
    ensures var m := ExtractMetadata(streams, format).value;
            var video := streams[v];
            && (video.bitRate.Some? ==> m.bitrate == ParseU64(video.bitRate.value))
            && (video.bitRate.None? && format.bitRate.Some? ==> m.bitrate == ParseU64(format.bitRate.value))
            && (video.bitRate.None? && format.bitRate.None? ==> m.bitrate.None?)
  {
  }

  /** The resolution text splits on 'x' into the two numbers it was made
      from. */
  lemma ResolutionRoundTrip(width: nat, height: nat)
    ensures var parts := Split(ResolutionText(width, height), "x");
            && |parts| == 2 && AllDigits(parts[0]) && AllDigits(parts[1])
            && DigitsValue(parts[0]) == width && DigitsValue(parts[1]) == height
  {
    var a, b := NatToString(width), NatToString(height);
    assert 'x' !in a by { assert forall i :: 0 <= i < |a| ==> IsDigit(a[i]); }
    assert 'x' !in b by { assert forall i :: 0 <= i < |b| ==> IsDigit(b[i]); }
    SplitTwo(a, "x", b);
  }
}
