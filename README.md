# clipforge core, modelled in Dafny

clipforge is a desktop video editor: a Tauri shell around FFmpeg. This
project models the logic the editor runs between its user interface and its
external tools, and proves properties of it. It covers:

- **Export** (`ffmpeg/export.rs`):
  - the ffconcat manifest built from the main track;
  - the FFmpeg export argument list;
  - the reader of FFmpeg progress lines;
  - the timeline duration.
- **The export job registry** (`commands/export.rs`): job states, cancel, the
  export task's status writes, and the failure message built from the last
  output lines.
- **Value types** (`models/*.rs`): export settings tables, timeline clips and
  tracks, captions and their validators, media clips, projects, and the
  recording session state machine.
- **Captions**:
  - the SubRip (.srt) parser of `ai/whisper.rs`;
  - editing and deleting a caption in the media library (`commands/captions.rs`).
- **Recording back ends** (`platform/macos.rs`, `platform/windows.rs`):
  - the permission fold;
  - the device-list line parsers, over a given stderr text;
  - the FFmpeg argument lists built by `start_recording`.
- **Small rules**:
  - the frame-rate parser and the stream selection of `ffmpeg/metadata.rs`;
  - the proxy predicate of `ffmpeg/proxy.rs`;
  - playback path selection (`commands/playback.rs`).

Each Dafny module follows one source file:

| module | file(s) |
|---|---|
| `Text`, `CommandLine`, `Wrappers`, `Lookup` | shared: Rust string operations (`split`, `lines`, `trim`, `split_whitespace`, `find`, `to_lowercase`, number parsing and printing); lookup by id (`iter().find`); the `flag value` view of an argument list; `Option`/`Result` |
| `ExportModel` | `models/export.rs` |
| `Timeline` | `models/timeline.rs` |
| `Clip` | `models/clip.rs` |
| `CaptionModel` | `models/caption.rs` |
| `ProjectModel` | `models/project.rs` |
| `Recording` | `models/recording.rs` |
| `ExportPipeline` | `generate_concat_file`, `calculate_timeline_duration` in `ffmpeg/export.rs` |
| `ExportCommand` | `build_export_command` in `ffmpeg/export.rs` |
| `Progress` | `parse_progress` in `ffmpeg/export.rs`, with its three regular expressions as scanners |
| `ExportJobs` | `commands/export.rs` |
| `Disk` | the files `std::fs` writes and removes, as a map from path to content |
| `CaptionCommands` | `commands/captions.rs` |
| `Whisper` | the SRT parsers of `ai/whisper.rs` |
| `Platform` | what `platform/macos.rs` and `platform/windows.rs` share (the permission fold is written identically in both) |
| `MacRecording`, `WindowsRecording` | `platform/macos.rs`, `platform/windows.rs` |
| `Metadata` | `ffmpeg/metadata.rs` |
| `Proxy` | `ffmpeg/proxy.rs` |
| `Playback` | `commands/playback.rs` |

The model keeps the source's form:

- **State updated in place becomes classes:**
  - the export job map (`ExportJobs.ExportState`);
  - the media library edited by the caption commands;
  - the recording session;
  - the project;
  - the file system.
- **Loops become methods with loop invariants**, each proved equal to a
  specification function about which the properties are proved:
  - the manifest text loop;
  - the stderr collection loop;
  - the SRT block loop;
  - the device-list loops;
  - the permission fold;
  - the argument builders.
- **Everything else becomes pure functions.**

Modelling choices:

- **Numbers:**
  - times and rates are `real`;
  - recording clock readings are integer nanoseconds;
  - `u64` results are bounded explicitly (`U64_MAX`, saturating subtraction, `as u64` as a floor clamped to the range).
- **Outside effects become parameters:** clocks, UUIDs, process outcomes, the target OS and the result of each file-system call.
- **Strings** are sequences of characters. Where Rust counts UTF-8 bytes (the 500-byte caption limit), the model counts them with `Utf8Len`.

Where the design notes and the code disagree, the code is modelled:

- **A cancelled export does not stay cancelled.** The export task writes
  Complete or Failed over whatever status it finds, including Cancelled
  (`ExportJobs.CancelledIsOverwritten`).
- **A failed caption edit stays applied.** `update_caption` writes the fields
  before validating, so an edit that fails validation returns an error but
  stays in the library.
- **Caption fields:** `MediaClip.captions` is declared `Vec<String>`
  (`models/clip.rs:22`), but the caption commands use it as a list of caption
  records. The model uses caption records.

## Model

| member | source | states |
|---|---|---|
| ExportModel.Dimensions | src-tauri/src/models/export.rs:74-83 | no size exactly for Source; every other resolution is a landscape size, width above height above 0 |
| ExportModel.DimensionsDistinctAndOrdered | src-tauri/src/models/export.rs:74-83 | different resolutions give different sizes, and widths fall strictly from 4K to SD |
| ExportModel.VideoCodecNameInjective | src-tauri/src/models/export.rs:88-94 | no two video codecs share an FFmpeg encoder name |
| ExportModel.Extension | src-tauri/src/models/export.rs:98-104 | the extension is webm exactly for VP9 and mp4 for every other codec |
| ExportModel.CrfValue | src-tauri/src/models/export.rs:109-115 | every CRF value lies in 18..28 |
| ExportModel.CrfOrdered | src-tauri/src/models/export.rs:109-115 | High < Medium < Low, and no two qualities share a CRF value |
| ExportModel.AudioCodecNameInjective | src-tauri/src/models/export.rs:120-126 | no two audio codecs share an FFmpeg encoder name |
| ExportModel.DefaultSettings | src-tauri/src/models/export.rs:129-141 | the defaults are 1920x1080, H.264 at CRF 18, no fps override, aac at 192 kbps, hardware acceleration on |
| Timeline.TimelineClip.EndTime | src-tauri/src/models/timeline.rs:91-97 | a clip ends its own duration (out point minus in point) after its start |
| Timeline.Track.Duration | src-tauri/src/models/timeline.rs:58-64 | 0 for a track without clips; otherwise at least every clip's end time and equal to one of them |
| Timeline.Track.ClipCount | src-tauri/src/models/timeline.rs:66-68 | the count is the number of clips |
| Timeline.NewTrack | src-tauri/src/models/timeline.rs:45-56 | a new track has the given id, name and type, no clips (count 0, duration 0), order 0, is visible and unlocked, and has volume 1.0 |
| Timeline.NewTimelineClip | src-tauri/src/models/timeline.rs:72-89 | a new clip keeps its ids and times, ends at start + (out - in), is on layer 0 and has no transform |
| Timeline.MaxOr | src-tauri/src/ffmpeg/export.rs:275-279 | the default for no values; otherwise an upper bound of all values that is one of them |
| Clip.FourKIsHd | src-tauri/src/models/clip.rs:66-72 | a 4K clip (width at least 3840) is also HD (width at least 1920) |
| Clip.FileName | src-tauri/src/models/clip.rs:35-39 | a file name, when found, is non-empty, not "." or "..", and holds no '/'; paths are Unix paths, as "## Left out" says |
| Clip.FileNameOfJoin | src-tauri/src/models/clip.rs:35-39 | a directory joined with a name by '/' gives back that name as the last component |
| Clip.NamedComponentsAppend | src-tauri/src/models/clip.rs:35-39 | taking the named path components commutes with appending |
| Clip.NewMediaClip | src-tauri/src/models/clip.rs:26-60 | the name is the source path's file name (Unix paths, as "## Left out" says) or "Unknown"; the resolution is "WxH"; the given fields are kept; proxy, thumbnail, audio codec and bitrate are None, has_audio is false and there are no captions |
| Clip.NewMediaClipName | src-tauri/src/models/clip.rs:35-39 | a clip imported from dir/name is called name |
| CaptionModel.DefaultStyle | src-tauri/src/models/caption.rs:119-130 | the default style is Arial 24, #FFFFFF on a transparent background, at the bottom, centred |
| CaptionModel.NewCaption | src-tauri/src/models/caption.rs:65-84 | a new caption keeps its text, times, clip and language, has no confidence and has the default style |
| CaptionModel.Duration | src-tauri/src/models/caption.rs:86-88 | start plus duration is the end time; the duration is positive exactly when the caption ends after it starts |
| CaptionModel.WordCount | src-tauri/src/models/caption.rs:92-94 | zero words exactly when every character of the text is whitespace |
| CaptionModel.WordCountOfJoin | src-tauri/src/models/caption.rs:92-94 | a text made of n words joined by spaces counts n words |
| CaptionModel.WordCountExample | src-tauri/src/models/caption.rs:155-168 | "Hello world" has 2 words |
| CaptionModel.Validate | src-tauri/src/models/caption.rs:97-116 | Ok exactly when the text is non-empty and at most 500 bytes, 0 <= start < end, and any confidence lies in [0, 1]; an Ok caption has positive duration; the errors come in the source's order: empty text, text over 500 bytes, negative start, end not after start, confidence outside [0, 1]; every error is one of the five messages |
| CaptionModel.LongTextRejected | src-tauri/src/models/caption.rs:101-103 | a text of more than 500 characters, and so of more than 500 bytes, is rejected as too long |
| CaptionModel.NewCaptionValid | src-tauri/src/models/caption.rs:65-84 | a caption created with non-empty, short text and ordered times validates, and so does its default style |
| CaptionModel.ValidateStyle | src-tauri/src/models/caption.rs:135-148 | Ok exactly when the font is non-empty, the size is in 12..72 and the colour is '#' plus six hex digits; an empty font reports the font error first |
| CaptionModel.DefaultStyleValid | src-tauri/src/models/caption.rs:119-148 | the default style passes the style validator |
| ProjectModel.Project.constructor | src-tauri/src/models/project.rs:94-115 | one track named "Main Track" of type Main, an empty media library, no file path, version "1.0.0", the default export settings, auto-save on and never run |
| ProjectModel.Project.MarkModified | src-tauri/src/models/project.rs:117-119 | sets the modification time and changes nothing else |
| Recording.WholeMillis | src-tauri/src/models/recording.rs:113-117 | whole milliseconds of a nanosecond reading, truncated toward zero as `num_milliseconds` does |
| Recording.ElapsedSecondsBounds | src-tauri/src/models/recording.rs:113-117 | for ordered readings the duration is non-negative, at most the exact elapsed time and less than a millisecond below it |
| Recording.RecordingSession.constructor | src-tauri/src/models/recording.rs:79-101 | status Preparing, no start, stop or duration, no sources, no error, no media clip |
| Recording.RecordingSession.Start | src-tauri/src/models/recording.rs:104-107 | status becomes Recording and the start time is set, from any status |
| Recording.RecordingSession.Stop | src-tauri/src/models/recording.rs:110-119 | status becomes Stopped and the stop time is set; the duration is the elapsed time when started, and otherwise unchanged |
| Recording.RecordingSession.Fail | src-tauri/src/models/recording.rs:123-127 | status becomes Failed with the error message and the stop time |
| Recording.RecordingSession.UpdateDuration | src-tauri/src/models/recording.rs:130-132 | only the duration changes |
| Recording.RecordingSession.Validate | src-tauri/src/models/recording.rs:135-160 | Ok exactly when the resolution contains 'x', the fps is 15, 24, 30 or 60, and a screen-and-webcam session has both sources; the resolution error comes first, then the fps error, then for a screen-and-webcam session the missing-screen error and then the missing-camera error |
| Recording.Lifecycle | src-tauri/src/models/recording.rs:242-261 | new, start, stop gives a Stopped session with both times, a non-negative duration equal to the elapsed time, and a session that validates |
| ExportPipeline.SelectMainTrack | src-tauri/src/ffmpeg/export.rs:58-62 | None exactly when no track is Main; otherwise a Main track with the most clips, and the last one among equals |
| ExportPipeline.InsertByStart | src-tauri/src/ffmpeg/export.rs:71-72 | inserting adds the clip to the multiset and to the members |
| ExportPipeline.InsertSorted | src-tauri/src/ffmpeg/export.rs:71-72 | inserting into a list sorted by start keeps it sorted |
| ExportPipeline.SortByStart | src-tauri/src/ffmpeg/export.rs:71-72 | the result is a permutation of the clips, sorted by start time |
| ExportPipeline.SortByStartStable | src-tauri/src/ffmpeg/export.rs:71-72 | clips with equal start times keep their input order (the sort is stable) |
| ExportPipeline.SortByStartExample | src-tauri/src/ffmpeg/export.rs:407-436 | clips starting at 5, 0 and 10 come out in the order 0, 5, 10 |
| Lookup.FindById | src-tauri/src/ffmpeg/export.rs:86-89 | the index of the first element with the id, or None exactly when no element has it; used for the media library here and for a media item's captions at commands/captions.rs:278-282 |
| ExportPipeline.PlayablePath | src-tauri/src/ffmpeg/export.rs:94-97 | the proxy path when there is one, else the source path |
| ExportPipeline.EscapeQuotes | src-tauri/src/ffmpeg/export.rs:100 | the escaped path is 3 characters longer for each single quote |
| ExportPipeline.UnescapeEscape | src-tauri/src/ffmpeg/export.rs:100 | mapping each `'\''` back to `'` recovers the original path |
| ExportPipeline.EscapeKeepsNewlines | src-tauri/src/ffmpeg/export.rs:100 | escaping adds no newline and removes none |
| ExportPipeline.RoundHalfEven | src-tauri/src/ffmpeg/export.rs:106-107 | the rounded integer lies within one half of the value, and a value exactly halfway between two integers goes to the even one |
| ExportPipeline.PadZeros | src-tauri/src/ffmpeg/export.rs:106-107 | zero padding reaches the width and keeps the digits' value |
| ExportPipeline.FormatFixed6 | src-tauri/src/ffmpeg/export.rs:106-107 | `{:.6}` text ends in a point and exactly six digits, with something before the point |
| ExportPipeline.FormatFixed6Reads | src-tauri/src/ffmpeg/export.rs:106-107 | the six-decimal text reads back as the sign and the value rounded to millionths |
| ExportPipeline.FormatFixed6Close | src-tauri/src/ffmpeg/export.rs:106-107 | the printed magnitude is within half a millionth of the value |
| ExportPipeline.FormatFixed6Exact | src-tauri/src/ffmpeg/export.rs:106-107 | a value that is a whole number of millionths prints and reads back exactly |
| ExportPipeline.EntryLines | src-tauri/src/ffmpeg/export.rs:103-107 | each clip contributes three lines |
| ExportPipeline.FirstMissing | src-tauri/src/ffmpeg/export.rs:79-89 | the first clip whose media is missing, with all before it found; None exactly when all are found |
| ExportPipeline.ManifestLines | src-tauri/src/ffmpeg/export.rs:79-113 | three lines per clip |
| ExportPipeline.ConcatManifest | src-tauri/src/ffmpeg/export.rs:58-62 | fails with "No main track found" exactly when no track is Main |
| ExportPipeline.ConcatManifestLines | src-tauri/src/ffmpeg/export.rs:77-107 | a manifest that builds reads back, line by line, as the header "ffconcat version 1.0" followed by three lines per clip of the sorted main track |
| ExportPipeline.ConcatManifestText | src-tauri/src/ffmpeg/export.rs:58-113 | a manifest that builds has a main track, every clip's media is found, and the text is the header and entry lines, each ended by a newline |
| ExportPipeline.ManifestLinesPlain | src-tauri/src/ffmpeg/export.rs:103-107 | when no media path holds a newline, no manifest line holds a newline or ends in a carriage return |
| ExportPipeline.EntryLinesPlain | src-tauri/src/ffmpeg/export.rs:103-107 | the three lines of one entry hold no line break |
| ExportPipeline.NoNewlineInFixed6 | src-tauri/src/ffmpeg/export.rs:106-107 | six-decimal text holds no newline and does not end in a carriage return |
| ExportPipeline.ConcatManifestOk | src-tauri/src/ffmpeg/export.rs:58-113 | with a main track whose media are all found, the manifest is the header plus the entries |
| ExportPipeline.ConcatManifestMissing | src-tauri/src/ffmpeg/export.rs:86-89 | the first clip whose media is absent makes the manifest fail with "Media clip not found: <id>" |
| ExportPipeline.ManifestLinesStep | src-tauri/src/ffmpeg/export.rs:79-113 | one more found clip appends exactly its three lines |
| ExportPipeline.TerminatedEntry | src-tauri/src/ffmpeg/export.rs:103-107 | an entry's text is `file '<escaped>'`, `inpoint X`, `outpoint Y`, each line ended by a newline |
| ExportPipeline.ManifestTextStep | src-tauri/src/ffmpeg/export.rs:103-107 | the text grows by exactly the three pushed lines per clip |
| ExportPipeline.GenerateConcatFile | src-tauri/src/ffmpeg/export.rs:38-126 | the no-main-track and missing-media errors leave the file system unchanged; a failed write reports "Failed to write concat file: ..."; Ok exactly when the manifest builds and the write succeeds, and then `concat.txt` under the directory holds the manifest |
| ExportPipeline.CalculateTimelineDuration | src-tauri/src/ffmpeg/export.rs:274-280 | 0 for no tracks; otherwise at least every track's duration and equal to one of them |
| ExportPipeline.TimelineDurationBoundsClips | src-tauri/src/ffmpeg/export.rs:274-280 | every clip ends by the timeline duration, and a positive duration is the end of some clip |
| ExportPipeline.TwoClipTrack | src-tauri/src/models/timeline.rs:58-64 | a two-clip track lasts until the later clip end |
| ExportPipeline.TwoTrackTimeline | src-tauri/src/ffmpeg/export.rs:274-280 | a two-track timeline lasts as long as its longer track |
| ExportPipeline.TimelineDurationBackToBack | src-tauri/src/ffmpeg/export.rs:619-629 | clips of 5 s and 7 s back to back last 12 s |
| ExportPipeline.TimelineDurationTwoTracks | src-tauri/src/ffmpeg/export.rs:632-643 | tracks of 10 s and 15 s last 15 s |
| ExportPipeline.TimelineDurationTrimmed | src-tauri/src/ffmpeg/export.rs:646-657 | a clip trimmed to 2..8 lasts 6 s |
| ExportPipeline.TimelineDurationEmptyTrack | src-tauri/src/ffmpeg/export.rs:660-666 | an empty track lasts 0 s |
| ExportPipeline.TimelineDurationWithGap | src-tauri/src/ffmpeg/export.rs:669-679 | a clip starting at 10 s after a gap makes the timeline last 15 s |
| ExportCommand.BuildExportCommand | src-tauri/src/ffmpeg/export.rs:129-215 | the arguments appended step by step are the export argument list, for the program ffmpeg |
| ExportCommand.ExportArgsEnds | src-tauri/src/ffmpeg/export.rs:137-208 | the list starts `-f concat -safe 0 -i <concat>` and ends `-y <output>` |
| ExportCommand.ExportValues | src-tauri/src/ffmpeg/export.rs:137-208 | each flag's values are those of the input, video, audio and output groups, in that order |
| ExportCommand.VideoFlag | src-tauri/src/ffmpeg/export.rs:145-200 | the video flags get values only from the video group |
| ExportCommand.EncoderFlag | src-tauri/src/ffmpeg/export.rs:145-172 | exactly one encoder is given, whatever the settings |
| ExportCommand.CrfFlag | src-tauri/src/ffmpeg/export.rs:175-182 | `-crf` with the quality's value exactly when acceleration is off or the codec is not H.264 |
| ExportCommand.BitrateFlag | src-tauri/src/ffmpeg/export.rs:175-182 | `-b:v 5M` exactly when no CRF is used |
| ExportCommand.PresetFlag | src-tauri/src/ffmpeg/export.rs:185-187 | `-preset medium` exactly when hardware acceleration is off |
| ExportCommand.ScaleFlag | src-tauri/src/ffmpeg/export.rs:190-195 | a scale filter to the resolution's size exactly when it is not Source |
| ExportCommand.FrameRateFlag | src-tauri/src/ffmpeg/export.rs:198-200 | `-r <fps>` exactly when an fps override is set |
| ExportCommand.VideoSilent | src-tauri/src/ffmpeg/export.rs:145-200 | the video group sets no flag outside its six |
| ExportCommand.AudioFlags | src-tauri/src/ffmpeg/export.rs:203-204 | `-c:a <codec>` and `-b:a <bitrate>k` are always present, once each |
| ExportCommand.PlatformOnlyPicksEncoder | src-tauri/src/ffmpeg/export.rs:145-168 | the target OS changes only the encoder; every other flag's values are the same |
| ExportCommand.DefaultMacCommand | src-tauri/src/ffmpeg/export.rs:524-547 | the default settings on macOS give the full list with h264_videotoolbox, `-b:v 5M` and the 1920:1080 scale |
| Progress.RunEnd | src-tauri/src/ffmpeg/export.rs:222-224 | the end of the longest run of one character class from a position |
| Progress.MatchAt | src-tauri/src/ffmpeg/export.rs:222-224 | a match's groups have the shape the pattern requires (digits, or digits and dots) |
| Progress.SearchFinds | src-tauri/src/ffmpeg/export.rs:227-229 | the search returns the leftmost match |
| Progress.SearchMisses | src-tauri/src/ffmpeg/export.rs:227-229 | no match anywhere gives no captures |
| Progress.CapturesLeftmost | src-tauri/src/ffmpeg/export.rs:227-229 | `captures` takes the leftmost position where the pattern matches |
| Progress.CapturesNone | src-tauri/src/ffmpeg/export.rs:227-229 | a line the pattern never matches gives no captures |
| Progress.AsU64 | src-tauri/src/ffmpeg/export.rs:254 | `as u64`: 0 for non-positive values, the floor in range, never above the u64 maximum |
| Progress.SaturatingSub | src-tauri/src/ffmpeg/export.rs:258 | the difference when it is non-negative, else 0 |
| Progress.Min | src-tauri/src/ffmpeg/export.rs:248 | the smaller of the two values |
| Progress.UnsignedGroup | src-tauri/src/ffmpeg/export.rs:223-224 | a group of digits and dots reads as a non-negative number |
| Progress.ReadingsNonNegative | src-tauri/src/ffmpeg/export.rs:231-244 | the fps and elapsed-time readings are never negative |
| Progress.NoFrameNoSample | src-tauri/src/ffmpeg/export.rs:227-229 | a line with no `frame=` followed by digits gives no sample |
| Progress.FrameSample | src-tauri/src/ffmpeg/export.rs:227-229 | with a leftmost `frame=` match, a sample exists exactly when its digits fit in u64, and then it carries that frame number |
| Progress.ParseProgress | src-tauri/src/ffmpeg/export.rs:218-271 | a sample needs a `frame=` match; its progress is in [0, 1], its fps is never negative and both frame counts fit in u64 |
| Progress.SampleRanges | src-tauri/src/ffmpeg/export.rs:231-270 | progress is in [0, 1] and 0 when the total is not positive; fps defaults to 30; fps is never negative; frame counts fit in u64; the ETA is 0 when fps is 0 or the frame is 0 |
| Progress.EtaIsRemainingOverSpeed | src-tauri/src/ffmpeg/export.rs:257-262 | with positive fps and frame, the ETA is the saturating remaining frames over fps, floored |
| Progress.ProgressOfTime | src-tauri/src/ffmpeg/export.rs:236-251 | with the leftmost `time=` match and a positive total, progress is min(h*3600 + m*60 + s over the total, 1), unparsable fields counting 0 |
| Progress.ProgressWithoutTime | src-tauri/src/ffmpeg/export.rs:236-251 | without any `time=` match, progress is 0 |
| Progress.FpsOfMatch | src-tauri/src/ffmpeg/export.rs:231-234 | with the leftmost `fps=` match, fps is its number, or 30 when it does not parse |
| Progress.TestParseProgress | src-tauri/src/ffmpeg/export.rs:685-697 | the test's line at a 120 s total gives frame 1234, 30 fps and a progress strictly between 0 and 1 |
| Progress.TestParseProgressNone | src-tauri/src/ffmpeg/export.rs:699-706 | "Some random FFmpeg output without progress" gives no sample |
| Progress.TestParseProgressEta | src-tauri/src/ffmpeg/export.rs:708-718 | the test's line at a 100 s total gives a 96 s estimate, which is positive |
| ExportJobs.NewHandle | src-tauri/src/commands/export.rs:124-141 | a new job has the given id and output path, status Preparing and no process |
| ExportJobs.WithStatus | src-tauri/src/commands/export.rs:229-234 | the keys are unchanged, every other job is unchanged, and a present job gets the status and keeps its id, path and process |
| ExportJobs.WithStatusTwice | src-tauri/src/commands/export.rs:175-178 | two status writes to one job leave only the second |
| ExportJobs.CancelledJobs | src-tauri/src/commands/export.rs:304-316 | cancel keeps every key and every other job, takes the process and sets Cancelled |
| ExportJobs.CancelledIsOverwritten | src-tauri/src/commands/export.rs:175-178 | a later Complete or Failed write replaces Cancelled; the status does not stick |
| ExportJobs.Reverse | src-tauri/src/commands/export.rs:282-283 | the reversal has the same length, with the elements in reverse order |
| ExportJobs.Take | src-tauri/src/commands/export.rs:282 | the first min(n, length) elements |
| ExportJobs.RecentLinesAreTail | src-tauri/src/commands/export.rs:282-283 | reverse, take 10, reverse is the last min(10, n) lines in their original order |
| ExportJobs.FailureMessageQuotesTail | src-tauri/src/commands/export.rs:276-289 | with no output the message is the bare status; otherwise it quotes the last min(10, n) output lines joined by newlines |
| ExportJobs.Samples | src-tauri/src/commands/export.rs:244-266 | at most one progress sample per line |
| ExportJobs.SamplesInRange | src-tauri/src/commands/export.rs:253-265 | every sample's progress is in [0, 1] and its fps is not negative |
| ExportJobs.SamplesNeedFrames | src-tauri/src/commands/export.rs:244-266 | output without `frame=` produces no progress events |
| ExportJobs.CollectOutput | src-tauri/src/commands/export.rs:237-268 | the collected text is every line ended by a newline, and the progress samples are those of the lines that parse, in order |
| ExportJobs.RunResult | src-tauri/src/commands/export.rs:220-292 | Ok exactly when FFmpeg spawned, was waited for and exited successfully |
| ExportJobs.FinalStatus | src-tauri/src/commands/export.rs:164-194 | the task ends Complete or Failed, Complete exactly when the run succeeded |
| ExportJobs.ExportState.constructor | src-tauri/src/commands/export.rs:28-32 | an empty job map with no process handles |
| ExportJobs.ExportState.Register | src-tauri/src/commands/export.rs:124-141 | inserts a Preparing job without a process under its id, keeping the absence of processes |
| ExportJobs.ExportState.SetStatus | src-tauri/src/commands/export.rs:229-234 | writes a status only to a present job and never re-inserts one |
| ExportJobs.ExportState.Cancel | src-tauri/src/commands/export.rs:297-332 | an unknown id gives "Export job not found: <id>" and changes nothing; a failed kill reports its error; otherwise the job stays in the map, loses its process, becomes Cancelled and its output file is removed |
| ExportJobs.ExportState.RunExport | src-tauri/src/commands/export.rs:209-293 | a spawn failure returns before any status write; otherwise the job becomes Rendering and the samples are those of its output; the result is the run's |
| ExportJobs.ExportState.ExportTask | src-tauri/src/commands/export.rs:154-203 | the job ends with the run's final status; on failure the output file is removed; the temp directory is removed either way |
| ExportJobs.ExportTimeline | src-tauri/src/commands/export.rs:81-206 | the checks fail in order: no project, missing output directory, temp-dir failure, manifest failure; any failure registers no job and writes no file; Ok exactly when all checks pass, and then one Preparing job is registered under the new id |
| Disk.JoinPath | src-tauri/src/ffmpeg/export.rs:116 | the joined path ends with the file name; the separator is '/', as "## Left out" says |
| Disk.FileSystem.Write | src-tauri/src/ffmpeg/export.rs:123 | the file gets the content and no other file changes |
| Disk.FileSystem.RemoveFile | src-tauri/src/commands/export.rs:197 | that file is gone and no other changes |
| Disk.FileSystem.RemoveDirAll | src-tauri/src/commands/export.rs:202 | every file under the directory is gone and every other file is kept |
| CaptionCommands.Edited | src-tauri/src/commands/captions.rs:285-293 | each field given as Some is overwritten; every other field keeps its value |
| CaptionCommands.UpdateNotFound | src-tauri/src/commands/captions.rs:273-282 | a missing clip gives "Media clip not found: <id>" and a missing caption "Caption not found: <id>"; the library is unchanged in both cases |
| CaptionCommands.UpdateApplied | src-tauri/src/commands/captions.rs:284-298 | the edited caption replaces the old one in place, even when it fails validation; the result is the validation's error or a copy of the stored caption |
| CaptionCommands.UpdateNothing | src-tauri/src/commands/captions.rs:285-293 | an edit with no fields leaves the library unchanged |
| CaptionCommands.WithoutCaptionAppend | src-tauri/src/commands/captions.rs:316 | `retain` distributes over concatenation, so the kept captions stay in order |
| CaptionCommands.WithoutCaptionMembers | src-tauri/src/commands/captions.rs:316 | the kept captions are exactly those without the id |
| CaptionCommands.WithoutCaptionCount | src-tauri/src/commands/captions.rs:315-318 | nothing is removed exactly when no caption has the id |
| CaptionCommands.WithoutCaptionAll | src-tauri/src/commands/captions.rs:315-318 | when nothing is removed, the list is unchanged |
| CaptionCommands.MediaLibrary.UpdateCaption | src-tauri/src/commands/captions.rs:263-299 | the result and the new library are those of the update outcome |
| CaptionCommands.MediaLibrary.DeleteCaption | src-tauri/src/commands/captions.rs:303-323 | a missing clip gives "Media clip not found"; otherwise every caption with the id is removed from that clip only, "Caption not found" exactly when none was, and then the library is unchanged |
| Whisper.ParseSrtTime | src-tauri/src/ai/whisper.rs:240-257 | a time parses only when it has one comma and three colon fields |
| Whisper.SrtTimeShape | src-tauri/src/ai/whisper.rs:241-249 | a time that parses holds exactly one comma, and two colons before it |
| Whisper.SrtTimeOfFields | src-tauri/src/ai/whisper.rs:240-257 | `H:M:S,ms` made of digit fields is h*3600 + m*60 + s + ms/1000 |
| Whisper.SrtTimeExample1 | src-tauri/src/ai/whisper.rs:275-279 | "00:00:01,500" is 1.5 s |
| Whisper.SrtTimeExample2 | src-tauri/src/ai/whisper.rs:275-279 | "00:01:30,250" is 90.25 s |
| Whisper.SrtTimeExample3 | src-tauri/src/ai/whisper.rs:275-279 | "01:00:00,000" is 3600 s |
| Whisper.SrtTimeExample4 | src-tauri/src/ai/whisper.rs:282-286 | "00:00:04,200" is 4.2 s |
| Whisper.ParseSrtTimestamp | src-tauri/src/ai/whisper.rs:227-237 | parses exactly when " --> " splits the line in two and both times parse; the result is the pair of times |
| Whisper.SrtTimestampOfTimes | src-tauri/src/ai/whisper.rs:227-237 | two times without spaces around " --> " give their values |
| Whisper.SrtTimestampExample | src-tauri/src/ai/whisper.rs:282-286 | "00:00:01,500 --> 00:00:04,200" gives (1.5, 4.2) |
| Whisper.BlockFields | src-tauri/src/ai/whisper.rs:187-215 | a block gives a caption exactly when, trimmed, it is non-empty, has at least 3 lines and its second line is a timestamp; the text is lines 2 onwards joined by spaces and trimmed |
| Whisper.BlocksFields | src-tauri/src/ai/whisper.rs:187-215 | one reading per block, in order |
| Whisper.GatherFields | src-tauri/src/ai/whisper.rs:207-214 | every caption carries the clip id, the language, its own id, no confidence and the default style |
| Whisper.SrtCaptions | src-tauri/src/ai/whisper.rs:179-223 | at most one caption per block, each carrying the given clip id and language |
| Whisper.SrtCaptionsFields | src-tauri/src/ai/whisper.rs:207-214 | every parsed caption carries the given clip id and language |
| Whisper.SrtCaptionsEmpty | src-tauri/src/ai/whisper.rs:187-220 | no caption exactly when every block is skipped |
| Whisper.GatherSources | src-tauri/src/ai/whisper.rs:187-215 | each caption comes from a distinct block that parses, in increasing block order |
| Whisper.SrtCaptionsFromBlocks | src-tauri/src/ai/whisper.rs:187-215 | the captions keep block order, one per block that parses |
| Whisper.SrtCaptionsStep | src-tauri/src/ai/whisper.rs:206-215 | one more block appends its caption when it parses and nothing otherwise |
| Whisper.ParseSrtContent | src-tauri/src/ai/whisper.rs:179-223 | the loop's captions are those of the blank-line-separated blocks; "No captions found in SRT file" exactly when there are none |
| Platform.RequestPermissions | src-tauri/src/platform/macos.rs:16-47 | with only known names, Ok with exactly the named rights; otherwise the error for the first unknown name |
| Platform.RecordingArgsShape | src-tauri/src/platform/windows.rs:121-198 | the list opens with -y, closes with the output path, and between them each flag's values are those of its pairs |
| Platform.RecordingArgsEnd | src-tauri/src/platform/windows.rs:192-198 | a pair list ending in `-movflags +faststart` gives a list ending with those words and the output path |
| MacRecording.DeviceBounds | src-tauri/src/platform/macos.rs:150-152 | the index starts right after the first "] [" and ends at the next ']' |
| MacRecording.SlicePanicsAtEnd | src-tauri/src/platform/macos.rs:153 | the name slice is out of bounds exactly when the closing bracket is the last character |
| MacRecording.DeviceLinePanics | src-tauri/src/platform/macos.rs:153 | a line ending right after its index, such as "... [0]", makes the slice go out of bounds |
| MacRecording.DeviceBoundsOf | src-tauri/src/platform/macos.rs:150-152 | for `pre] [ID]rest` with no ']' in pre or ID, the index is ID |
| MacRecording.DeviceOf | src-tauri/src/platform/macos.rs:150-158 | a device is read exactly when the line has "] [" followed later by ']' |
| MacRecording.DeviceOfLine | src-tauri/src/platform/macos.rs:150-158 | `...] [ID] NAME` gives the device ID named NAME, trimmed |
| MacRecording.DeviceOfPanicLine | src-tauri/src/platform/macos.rs:153 | the line that makes the source panic gives the device with an empty name |
| MacRecording.MicScanNoHeader | src-tauri/src/platform/macos.rs:137-141 | without the "AVFoundation audio devices:" line, no device is read |
| MacRecording.MicScanAfterHeader | src-tauri/src/platform/macos.rs:137-141 | reading starts after the first header line |
| MacRecording.MicScanStops | src-tauri/src/platform/macos.rs:145-147 | reading stops at the first empty line or "Error opening input" line |
| MacRecording.MicScanFromLines | src-tauri/src/platform/macos.rs:137-162 | every device read comes from some line |
| MacRecording.ListMicrophones | src-tauri/src/platform/macos.rs:123-173 | the loop's list is the devices read from the audio section, or exactly the default entry {"0", "Default Microphone"} when there are none |
| MacRecording.MacRecordingArgs | src-tauri/src/platform/macos.rs:186-312 | the list built step by step is -y, the macOS pairs and the output path |
| MacRecording.AddInputs | src-tauri/src/platform/macos.rs:193-270 | the input steps append exactly the input pairs |
| MacRecording.AddEncoding | src-tauri/src/platform/macos.rs:273-309 | the encoding steps append exactly the encoding pairs |
| MacRecording.MacOverlay | src-tauri/src/platform/macos.rs:259-270 | the picture-in-picture filter is present exactly when there are both a screen and a camera |
| MacRecording.MacSize | src-tauri/src/platform/macos.rs:298-303 | `-s <res>` exactly when the resolution is not "source", splits on 'x' into two parts, and screen and camera are not both present |
| MacRecording.MacInputs | src-tauri/src/platform/macos.rs:193-256 | the inputs are the screen (with `:none` when system audio is asked), the camera (`cam:mic` when a microphone is asked, mic defaulting to "0") and `:0` only for a microphone with neither screen nor camera |
| MacRecording.MacAudioCodec | src-tauri/src/platform/macos.rs:285-294 | `-c:a aac` exactly when some audio source is asked |
| MacRecording.MacAudioBitrate | src-tauri/src/platform/macos.rs:285-294 | `-b:a 256k` exactly when some audio source is asked |
| MacRecording.MacSampleRate | src-tauri/src/platform/macos.rs:285-294 | `-ar 48000` exactly when some audio source is asked |
| MacRecording.MacArgsEnds | src-tauri/src/platform/macos.rs:186-312 | the list starts with -y and ends `-movflags +faststart <output>` |
| WindowsRecording.CameraOf | src-tauri/src/platform/windows.rs:94-103 | a camera's id and name are the same text |
| WindowsRecording.CameraOfQuoted | src-tauri/src/platform/windows.rs:94-103 | a "(video)" line with a quoted name gives that name as the camera |
| WindowsRecording.CameraOfCount | src-tauri/src/platform/windows.rs:94-103 | a line gives a camera exactly when it contains "(video)" and at least two quotes |
| WindowsRecording.CameraScanFromLines | src-tauri/src/platform/windows.rs:93-106 | every camera listed comes from some line |
| WindowsRecording.CameraScanHasLines | src-tauri/src/platform/windows.rs:93-106 | every line that describes a camera puts it in the list |
| WindowsRecording.ListCameras | src-tauri/src/platform/windows.rs:79-109 | the loop's list is the cameras of the stderr lines, in order |
| WindowsRecording.WinRecordingArgs | src-tauri/src/platform/windows.rs:121-198 | the list built step by step is -y, the Windows pairs and the output path |
| WindowsRecording.AddInputs | src-tauri/src/platform/windows.rs:127-162 | the input steps append exactly the input pairs |
| WindowsRecording.AddEncoding | src-tauri/src/platform/windows.rs:165-195 | the encoding steps append exactly the encoding pairs |
| WindowsRecording.WinInputs | src-tauri/src/platform/windows.rs:127-162 | the inputs are `desktop` for any screen, `video=<name>` for a camera and `audio=Microphone` when a microphone is asked |
| WindowsRecording.WinFramerate | src-tauri/src/platform/windows.rs:127-137 | `-framerate <fps>` exactly when there is a screen |
| WindowsRecording.WinSize | src-tauri/src/platform/windows.rs:187-189 | `-s <res>` exactly when the resolution is not "source", with no shape check |
| WindowsRecording.WinAudioCodec | src-tauri/src/platform/windows.rs:177-184 | `-c:a aac` exactly when some audio source is asked |
| WindowsRecording.WinAudioBitrate | src-tauri/src/platform/windows.rs:177-184 | `-b:a 192k` exactly when some audio source is asked |
| WindowsRecording.WinArgsEnds | src-tauri/src/platform/windows.rs:121-198 | the list starts with -y and ends `-movflags +faststart <output>` |
| Metadata.ParseFrameRate | src-tauri/src/ffmpeg/metadata.rs:120-138 | a rate that parses split on '/' into exactly two pieces, and its denominator is a non-zero number |
| Metadata.FrameRateSlashes | src-tauri/src/ffmpeg/metadata.rs:121-124 | a text without exactly one '/' is an invalid format, and one that parses has exactly one |
| Metadata.FrameRateOfFraction | src-tauri/src/ffmpeg/metadata.rs:126-137 | `a/b` fails on a bad numerator, then on a bad denominator, then on a zero denominator, and otherwise is a divided by b |
| Metadata.FrameRateOfNumbers | src-tauri/src/ffmpeg/metadata.rs:120-138 | printed whole numbers n/d read back as n/d, or the zero-denominator error when d is 0 |
| Metadata.FrameRateThirty | src-tauri/src/ffmpeg/metadata.rs:145-150 | "30/1" is 30 |
| Metadata.FrameRateSixty | src-tauri/src/ffmpeg/metadata.rs:145-150 | "60/1" is 60 |
| Metadata.FrameRateNtsc | src-tauri/src/ffmpeg/metadata.rs:145-150 | "30000/1001" is between 29.96 and 29.98 |
| Metadata.FirstStream | src-tauri/src/ffmpeg/metadata.rs:68-77 | the first stream of the kind, or None exactly when there is none |
| Metadata.ExtractMetadata | src-tauri/src/ffmpeg/metadata.rs:68-72 | no video stream gives "No video stream found", and a result needs a video stream |
| Metadata.MetadataErrors | src-tauri/src/ffmpeg/metadata.rs:80-97 | the missing width, height, codec, bad frame rate and missing duration are reported in that order |
| Metadata.MetadataOfVideo | src-tauri/src/ffmpeg/metadata.rs:80-111 | size and codec come from the first video stream, fps is its parsed frame rate or 30 when it has none, and the duration is the format's |
| Metadata.MetadataAudio | src-tauri/src/ffmpeg/metadata.rs:74-115 | has_audio holds exactly when some audio stream exists, and the audio codec is that of the first one |
| Metadata.MetadataBitrate | src-tauri/src/ffmpeg/metadata.rs:100-104 | the video stream's bitrate text is preferred over the format's, with no fallback when it does not parse |
| Metadata.ResolutionRoundTrip | src-tauri/src/ffmpeg/metadata.rs:108 | "WxH" splits on 'x' back into the two numbers |
| Proxy.AnyContainedIff | src-tauri/src/ffmpeg/proxy.rs:15 | `any(contains)` holds exactly when some pattern occurs in the text |
| Proxy.NeedsProxy | src-tauri/src/ffmpeg/proxy.rs:8-16 | no proxy exactly when the lowercased codec name contains one of the web-compatible names |
| Proxy.NeedsProxyIff | src-tauri/src/ffmpeg/proxy.rs:8-16 | no proxy is needed exactly when the lowercased codec contains h264, vp8, vp9 or av1 |
| Proxy.NeedsProxyIgnoresCase | src-tauri/src/ffmpeg/proxy.rs:9 | the answer is the same for a codec name and its lowercase form |
| Proxy.NoProxyAround | src-tauri/src/ffmpeg/proxy.rs:15 | any name containing a web-compatible codec name needs no proxy |
| Proxy.NeedsProxyWithoutDigits | src-tauri/src/ffmpeg/proxy.rs:12-15 | a name with none of the digits 1, 2, 8, 9 always needs a proxy |
| Proxy.WebCodecExamples | src-tauri/src/ffmpeg/proxy.rs:81-88 | h264, H264, vp8, vp9 and av1 need no proxy |
| Proxy.OtherCodecExamples | src-tauri/src/ffmpeg/proxy.rs:89-93 | hevc, prores, mpeg4, mjpeg and dnxhd need a proxy |
| Playback.LoadClipForPlayback | src-tauri/src/commands/playback.rs:12-32 | an error exactly when no clip has the id |
| Playback.PlaybackNotFound | src-tauri/src/commands/playback.rs:13-16 | an unknown id gives "Media clip not found: <id>" |
| Playback.PlaybackPath | src-tauri/src/commands/playback.rs:20-27 | the first clip with the id gives its proxy path when it has one, else its source path |
| Playback.PlaybackIgnoresFlag | src-tauri/src/commands/playback.rs:20-27 | the result is the same whether a proxy is requested or not |
| Text.NatToString | src-tauri/src/ffmpeg/export.rs:178 | `to_string` of a whole number is digits, with no leading zero, that read back as the number |
| Text.ParseU64 | src-tauri/src/ffmpeg/export.rs:229 | a value parsed as u64 is at most the u64 maximum |
| Text.ParseU64OfNatToString | src-tauri/src/ffmpeg/metadata.rs:104 | a printed number in u64 range parses back as itself |
| Text.ParseDecimal | src-tauri/src/ffmpeg/metadata.rs:126-131 | a parsed number without a leading minus is not negative |
| Text.ParseDecimalOfNatToString | src-tauri/src/ffmpeg/metadata.rs:126-131 | a printed whole number parses back as itself |
| Text.ParseDecimalOfParts | src-tauri/src/ffmpeg/metadata.rs:126-131 | an optional minus, digits, a point and digits parse to the signed decimal value |
| Text.IndexOf | src-tauri/src/platform/macos.rs:150 | `find` gives the first position where the text occurs, or None exactly when it never does |
| Text.Split | src-tauri/src/ai/whisper.rs:185 | `split` always gives at least one piece |
| Text.JoinSplit | src-tauri/src/ai/whisper.rs:185 | joining the pieces with the separator gives back the text |
| Text.SplitCharCount | src-tauri/src/ffmpeg/metadata.rs:121 | splitting on a character gives one more piece than it has occurrences |
| Text.SplitPiecesAvoidSep | src-tauri/src/ai/whisper.rs:185 | no piece contains the separator |
| Text.LinesOfTerminated | src-tauri/src/commands/export.rs:246-247 | `lines` of text made of newline-ended lines gives those lines back |
| Text.LinesAppend | src-tauri/src/commands/export.rs:246-247 | `lines` distributes over text that ends in a newline |
| Text.Utf8LenBounds | src-tauri/src/models/caption.rs:101 | a text's UTF-8 length is between its character count and four times it |
| Text.Trim | src-tauri/src/ai/whisper.rs:188 | the result is the input with its leading and trailing whitespace removed: a slice of the input after the leading whitespace, with only whitespace after it; it neither starts nor ends with whitespace |
| Text.TrimIdempotent | src-tauri/src/ai/whisper.rs:188 | trimming twice is trimming once |
| Text.Words | src-tauri/src/models/caption.rs:92-94 | `split_whitespace` gives non-empty pieces without whitespace |
| Text.WordsOfJoin | src-tauri/src/models/caption.rs:92-94 | splitting words joined by single spaces gives the words back |
| Text.ToLower | src-tauri/src/ffmpeg/proxy.rs:9 | lowercasing keeps the length, turns each ASCII capital into its small letter and keeps every other character (ASCII only, as "## Left out" says) |
| CommandLine.ValuesFlatten | src-tauri/src/ffmpeg/export.rs:137-208 | reading a list built from pairs gives each flag's values from the pairs |
| CommandLine.PairValuesMember | src-tauri/src/platform/windows.rs:121-198 | a value is among a flag's values exactly when that pair is in the list |
| CommandLine.ValuesAppend | src-tauri/src/ffmpeg/export.rs:137-208 | reading pairs distributes over appending whole pairs |

## Left out

- **Process spawning, waiting and killing; event emission; async tasks.**
  - FFmpeg, ffprobe, system_profiler and whisper-cli are never run.
  - Their outcomes are parameters: a spawn or wait error, an exit status, and the stderr lines (`ExportJobs.ProcessRun`).
  - `emit_all` events and the `eprintln!`/`println!` logging are not modelled.
- **File reads and writes.** They act on `Disk.FileSystem`, a map from path to content. The outcomes of `create_dir_all` and `Path::exists` are parameters. `Path::parent` is a parameter (`ExportJobs.ExportEnv`).
- **Clocks and UUIDs** are parameters: `now`, `id`, `idOf`.
- **OS-dependent encoder.** `build_export_command` picks the hardware encoder by the target OS at compile time. Here the OS is a parameter (`ExportCommand.Platform`).
- **Floating point.**
  - IEEE rounding and NaN are not modelled. Times are exact reals, so the sorts and maxima never meet NaN.
  - `{:.6}` is modelled as rounding half to even to millionths.
  - `as u64` is modelled as the floor, clamped to the u64 range.
- Text.ParseDecimal: accepts an optional '+' or '-', digits, and an optional point followed by digits. Rust's `f64` parser also accepts exponents, "inf", "infinity" and "nan"; those inputs parse to None here.
- Progress.MatchAt: the regular expressions of `parse_progress` are hand-written scanners of the same token shapes, with `\d` as the ASCII digits and `\s` as the Unicode White_Space characters. In the Rust `regex` crate `\d` matches every Unicode decimal digit (category Nd). So on the line "frame=5١" (ending in U+0661) the source's `frame=(\d+)` captures "5١", `parse::<u64>` fails and `parse_progress` returns None, while the model's scanner stops at "5" and reads frame 5. FFmpeg prints its progress with ASCII digits only, so the two agree on the lines FFmpeg writes.
- Text.ToLower: maps the ASCII capitals 'A'..'Z' to small letters and keeps every other character, while Rust's `str::to_lowercase` lowercases all of Unicode and can change the length ('İ' becomes "i̇", two characters; 'Σ' becomes 'σ'). Its one user, `Proxy.NeedsProxy`, still answers as the source does: it only looks for "h264", "vp8", "vp9" and "av1", the only non-ASCII characters Rust lowercases to ASCII are 'İ' (to 'i' plus a combining dot) and the Kelvin sign (to 'k'), and none of those names holds an 'i' or a 'k'. So an occurrence of a name in either lowercasing comes from the same run of characters of the codec text.
- Clip.FileName: paths are read as Unix paths, with '/' as the only separator. On Windows, Rust's `Path` also separates components at `\` and recognises drive prefixes such as `C:`. So for `C:\v\a.mp4` the source gives the file name `a.mp4`, while the model, finding no '/', gives the whole text.
- NewMediaClip (`Clip.NewMediaClip`): the name is `Clip.FileName` of the source path, so a Windows path written with `\` is named by its whole text instead of its last component, as the line above says. The other fields are as `MediaClip::new` sets them on every platform.
- Disk.JoinPath: joins with '/'. On Windows, `Path::join` writes `\`, so the concat-file path that `ExportJobs.ExportTimeline` writes and passes to FFmpeg differs from the source's there in that separator.
- **`parse_srt_content` example.** The worked example in `test_parse_srt_content` is covered only by the general lemmas about blocks.
- ExportCommand.BuildExportCommand: the source returns `Result<Command, String>` but never fails, so the model returns the command directly.
- **macOS byte offsets.** `str::find` in the macOS device parser returns byte offsets. The model uses character positions, which agree on ASCII lines.
- **macOS `list_cameras`.** It looks for "Camera" or "FaceTime" in `system_profiler` output and returns one fixed entry. It is not modelled.
- **Device listing.**
  - `list_screens` and `list_windows` return constant lists on both platforms and are not modelled.
  - `list_sources` is not modelled either: it only gathers those lists.
  - On Windows, `list_sources` leaves the microphones out of the result.
- **Recording runtime.** These parts of `commands/recording.rs` are not modelled:
  - `stop_recording`'s polling with its timeout;
  - the `ACTIVE_RECORDINGS` registry, `is_recording_active` and the "Recording session not found" path;
  - the one-second duration ticker;
  - the media-clip creation from a recording.
- **`AppState` mismatches.** `commands/export.rs` reads a `project` field that the application state in `commands/media.rs` does not declare. The model takes the project as a parameter (`ExportJobs.ExportTimeline`, null for no project).
- **ffprobe output.** The JSON decoding of ffprobe's output is not modelled: `Metadata.ExtractMetadata` starts from the decoded streams and format.
- **Proxies and thumbnails.** `generate_proxy` (an FFmpeg run) is not modelled, and neither are thumbnails, audio extraction, the import commands or the cache directories.
- **Other models and stubs.**
  - `MediaClip::aspect_ratio` is not modelled.
  - `commands/timeline.rs` consists of stubs that always return errors.
  - `main.rs` and the `mod.rs` files are wiring.
  - `storage/cache.rs` keeps its logic in SQLite statements.
  - None of these is modelled.
- **Concurrency.** The mutexes around the job map and the media library are not modelled. Each command is one atomic step on its object.

## Findings

| source | as written | input that shows it | evidently intended | confidence | as-written member | corrected member |
|---|---|---|---|---|---|---|
| src-tauri/src/platform/macos.rs:153 | the device name is sliced from two characters past the index's closing ']' with no bound check | a device line that ends right after its index, such as `[AVFoundation indev @ 0x1] [0]` | a device with that index and an empty name, or the line skipped; not a panic | not executed; the slice is out of bounds on that line | MacRecording.DeviceLinePanics | MacRecording.DeviceOfPanicLine |
