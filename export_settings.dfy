/** The user's export settings and the fixed tables that turn each setting
    into what the encoder is given (models/export.rs). */
module ExportModel {
  import opened Wrappers

  datatype ExportResolution = Source | UHD4K | QHD | FullHD | HD | SD

  datatype VideoCodec = H264 | HEVC | VP9

  datatype ExportQuality = High | Medium | Low

  datatype AudioCodec = AAC | MP3 | Opus

  /** `fps` is an optional frame-rate override; `audioBitrate` is in kbps.
      Both are `u32` in the source; the model leaves their width unbounded. */
  datatype ExportSettings = ExportSettings(
    resolution: ExportResolution,
    codec: VideoCodec,
    quality: ExportQuality,
    fps: Option<nat>,
    audioCodec: AudioCodec,
    audioBitrate: nat,
    hardwareAcceleration: bool)

  /** Target frame size: none for Source, a fixed landscape width x height
      for every other choice. */
  function Dimensions(r: ExportResolution): (d: Option<(nat, nat)>)
    ensures d.None? <==> r == Source
    ensures d.Some? ==> d.value.0 > d.value.1 > 0
  {
    match r
    case Source => None
    case UHD4K => Some((3840, 2160))
    case QHD => Some((2560, 1440))
    case FullHD => Some((1920, 1080))
    case HD => Some((1280, 720))
    case SD => Some((854, 480))
  }

  /** Distinct resolutions give distinct frame sizes, and the sizes strictly
      shrink from 2160p down to 480p. */
  lemma DimensionsDistinctAndOrdered()
    ensures forall a, b :: a != b ==> Dimensions(a) != Dimensions(b)
    ensures Dimensions(UHD4K).value.0 > Dimensions(QHD).value.0 > Dimensions(FullHD).value.0
            > Dimensions(HD).value.0 > Dimensions(SD).value.0
  {
  }

  /** The software encoder for each codec. */
  function VideoCodecName(c: VideoCodec): string {
    match c
    case H264 => "libx264"
    case HEVC => "libx265"
    case VP9 => "libvpx-vp9"
  }

  /** Each codec has its own encoder. */
  lemma VideoCodecNameInjective()
    ensures forall a, b :: a != b ==> VideoCodecName(a) != VideoCodecName(b)
  {
  }

  /** The output container: WebM for VP9 and MP4 for the two MPEG codecs. */
  function Extension(c: VideoCodec): (e: string)
    ensures e == "webm" <==> c == VP9
    ensures e == "mp4" <==> c != VP9
  {
    match c
    case H264 => "mp4"
    case HEVC => "mp4"
    case VP9 => "webm"
  }

  /** Constant-rate-factor for each tier: lower means higher quality. */
  function CrfValue(q: ExportQuality): (v: nat)
    ensures 18 <= v <= 28
  {
    match q
    case High => 18
    case Medium => 23
    case Low => 28
  }

  /** Better quality tiers get strictly lower CRF values. */
  lemma CrfOrdered()
    ensures CrfValue(High) < CrfValue(Medium) < CrfValue(Low)
    ensures forall a, b :: a != b ==> CrfValue(a) != CrfValue(b)
  {
  }

  /** The encoder for each audio codec. */
  function AudioCodecName(c: AudioCodec): string {
    match c
    case AAC => "aac"
    case MP3 => "libmp3lame"
    case Opus => "libopus"
  }

  /** Each audio codec has its own encoder. */
  lemma AudioCodecNameInjective()
    ensures forall a, b :: a != b ==> AudioCodecName(a) != AudioCodecName(b)
  {
  }

  /** `ExportSettings::default`: 1080p H.264 at the best quality, source frame
      rate, 192 kbps AAC, hardware encoding requested. */
  function DefaultSettings(): (s: ExportSettings)
    ensures Dimensions(s.resolution) == Some((1920, 1080))
    ensures s.codec == H264 && CrfValue(s.quality) == 18 && s.fps == None
    ensures AudioCodecName(s.audioCodec) == "aac" && s.audioBitrate == 192
    ensures s.hardwareAcceleration
  {
    ExportSettings(FullHD, H264, High, None, AAC, 192, true)
  }
}
