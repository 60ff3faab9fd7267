/** Turning a timeline into an FFmpeg job (ffmpeg/export.rs): the concat
    manifest that lists the main track's clips, the encoder command line,
    the reading of FFmpeg's progress lines and the timeline's length. */
module ExportPipeline {
  import opened Wrappers
  import opened Text
  import opened Timeline
  import opened Clip
  import opened ExportModel
  import opened Disk
  import opened Lookup

  datatype ExportStatus = Preparing | Rendering | Complete | Cancelled | Failed

  /** One progress sample; `progress` is a fraction of the whole export. */
  datatype ExportProgress = ExportProgress(
    currentFrame: nat,
    totalFrames: nat,
    fps: real,
    progress: real,
    etaSeconds: nat)

  // ---------------------------------------------------------------------------
  // Choosing the track to export
  // ---------------------------------------------------------------------------

  predicate IsMain(t: Track) {
    t.trackType == Main
  }

  /** `filter(Main).max_by_key(clip count)`: the index of the main track
      with the most clips, the last such one on ties, or none when no track
      is a main track. */
  function SelectMainTrack(tracks: seq<Track>): (r: Option<nat>)
    ensures r.None? <==> forall i :: 0 <= i < |tracks| ==> !IsMain(tracks[i])
    ensures r.Some? ==> r.value < |tracks| && IsMain(tracks[r.value])
    ensures r.Some? ==> forall j :: 0 <= j < |tracks| && IsMain(tracks[j])
                                    ==> |tracks[j].clips| <= |tracks[r.value].clips|
    ensures r.Some? ==> forall j :: r.value < j < |tracks| && IsMain(tracks[j])
                                    ==> |tracks[j].clips| < |tracks[r.value].clips|
  {
    if tracks == [] then None
    else
      var n := |tracks| - 1;
      var r := SelectMainTrack(tracks[..n]);
      assert forall j :: 0 <= j < n ==> tracks[..n][j] == tracks[j];
      if IsMain(tracks[n]) && (r.None? || |tracks[r.value].clips| <= |tracks[n].clips|) then Some(n)
      else r
  }

  // ---------------------------------------------------------------------------
  // Ordering the clips
  // ---------------------------------------------------------------------------

  predicate SortedByStart(cs: seq<TimelineClip>) {
    forall i, j :: 0 <= i < j < |cs| ==> cs[i].startTime <= cs[j].startTime
  }

  /** The clips of `cs` that start at `t`, in order. */
  function WithStart(cs: seq<TimelineClip>, t: real): seq<TimelineClip> {
    if cs == [] then []
    else (if cs[0].startTime == t then [cs[0]] else []) + WithStart(cs[1..], t)
  }

  /** Places `c` before the first clip that starts no earlier than it. */
  function InsertByStart(c: TimelineClip, sorted: seq<TimelineClip>): (r: seq<TimelineClip>)
    ensures multiset(r) == multiset(sorted) + multiset{c}
    ensures forall x :: x in r <==> x == c || x in sorted
  {
    if sorted == [] || c.startTime <= sorted[0].startTime then [c] + sorted
    else
      assert sorted == [sorted[0]] + sorted[1..];
      [sorted[0]] + InsertByStart(c, sorted[1..])
  }

  /** Inserting into a sorted sequence keeps it sorted. */
  lemma {:induction false} InsertSorted(c: TimelineClip, sorted: seq<TimelineClip>)
    requires SortedByStart(sorted)
    ensures SortedByStart(InsertByStart(c, sorted))
  {
    if sorted != [] && c.startTime > sorted[0].startTime {
      var rest := InsertByStart(c, sorted[1..]);
      InsertSorted(c, sorted[1..]);
      forall k | 0 <= k < |rest| ensures sorted[0].startTime <= rest[k].startTime {
        assert rest[k] in rest;
      }
    }
  }

  /** `clips.sort_by(start_time)`: a stable sort on the start time. */
  function SortByStart(clips: seq<TimelineClip>): (r: seq<TimelineClip>)
    ensures multiset(r) == multiset(clips)
    ensures SortedByStart(r)
  {
    if clips == [] then []
    else
      assert clips == [clips[0]] + clips[1..];
      InsertSorted(clips[0], SortByStart(clips[1..]));
      InsertByStart(clips[0], SortByStart(clips[1..]))
  }

  /** The clips that start at the same time keep their relative order. */
  lemma {:induction false} InsertWithStart(c: TimelineClip, s: seq<TimelineClip>, t: real)
    ensures WithStart(InsertByStart(c, s), t)
            == (if c.startTime == t then [c] else []) + WithStart(s, t)
  {
    if s == [] || c.startTime <= s[0].startTime {
      assert ([c] + s)[1..] == s;
    } else {
      var rest := InsertByStart(c, s[1..]);
      assert ([s[0]] + rest)[1..] == rest;
      InsertWithStart(c, s[1..], t);
    }
  }

  /** Stability: for every start time, the clips starting then come out in
      the order they went in. With sortedness and the multiset equality this
      pins the result down to what a stable sort returns. */
  lemma {:induction false} SortByStartStable(clips: seq<TimelineClip>, t: real)
    ensures WithStart(SortByStart(clips), t) == WithStart(clips, t)
  {
    if clips != [] {
      InsertWithStart(clips[0], SortByStart(clips[1..]), t);
      SortByStartStable(clips[1..], t);
    }
  }

  /** Clips placed at 5, 0 and 10 seconds come out as 0, 5, 10. */
  lemma SortByStartExample(a: TimelineClip, b: TimelineClip, c: TimelineClip)
    requires a.startTime == 5.0 && b.startTime == 0.0 && c.startTime == 10.0
    ensures SortByStart([a, b, c]) == [b, a, c]
  {
    assert [a, b, c][1..] == [b, c];
    assert [b, c][1..] == [c];
    assert SortByStart([c]) == [c];
    assert SortByStart([b, c]) == [b, c];
    assert InsertByStart(a, [b, c]) == [b] + InsertByStart(a, [c]);
  }

  // ---------------------------------------------------------------------------
  // Resolving a clip to a file
  // ---------------------------------------------------------------------------

  /** `media_library.iter().find(|m| m.id == id)`, as an index. */
  function FindMedia(library: seq<MediaClip>, id: string): Option<nat> {
    FindById(library, (m: MediaClip) => m.id, id)
  }

  /** The file to read for an item: its proxy when it has one, else its source. */
  function PlayablePath(m: MediaClip): (p: string)
    ensures m.proxyPath.Some? ==> p == m.proxyPath.value
    ensures m.proxyPath.None? ==> p == m.sourcePath
  {
    m.proxyPath.GetOr(m.sourcePath)
  }

  /** `replace("'", "'\\''")`: each quote closes the quoted string, adds an
      escaped quote and reopens it. */
  function EscapeQuotes(p: string): (e: string)
    ensures |e| == |p| + 3 * multiset(p)['\'']
  {
    if p == [] then []
    else
      assert p == [p[0]] + p[1..];
      (if p[0] == '\'' then "'\\''" else [p[0]]) + EscapeQuotes(p[1..])
  }

  /** The inverse: every `'\''` read back as one quote. */
  function UnescapeQuotes(e: string): string {
    if |e| >= 4 && e[..4] == "'\\''" then "'" + UnescapeQuotes(e[4..])
    else if e == [] then []
    else [e[0]] + UnescapeQuotes(e[1..])
  }

  /** Escaping loses nothing: undoing it gives back the path. */
  lemma {:induction false} UnescapeEscape(p: string)
    ensures UnescapeQuotes(EscapeQuotes(p)) == p
  {
    if p != [] {
      var rest := EscapeQuotes(p[1..]);
      UnescapeEscape(p[1..]);
      if p[0] == '\'' {
        var e := "'\\''" + rest;
        assert e[..4] == "'\\''" && e[4..] == rest;
        assert UnescapeQuotes(e) == "'" + p[1..];
      } else {
        var e := [p[0]] + rest;
        assert e[0] != '\'';
        assert |e| >= 4 ==> e[..4][0] == e[0];
        assert e[1..] == rest;
        assert UnescapeQuotes(e) == [p[0]] + p[1..];
      }
      assert p == [p[0]] + p[1..];
    }
  }

  /** Escaping adds no line break and removes none, so a path without one
      stays on its `file` line. */
  lemma {:induction false} EscapeKeepsNewlines(p: string)
    ensures '\n' in EscapeQuotes(p) <==> '\n' in p
  {
    if p != [] {
      EscapeKeepsNewlines(p[1..]);
      assert p == [p[0]] + p[1..];
    }
  }

  // ---------------------------------------------------------------------------
  // Six-decimal numbers
  // ---------------------------------------------------------------------------

  function Abs(x: real): real {
    if x < 0.0 then -x else x
  }

  /** The integer nearest to `x`, the even one on a tie. */
  function RoundHalfEven(x: real): (n: int)
    ensures n as real - 0.5 <= x <= n as real + 0.5
    ensures x - x.Floor as real != 0.5 ==> n as real - 0.5 < x < n as real + 0.5
    ensures x - x.Floor as real == 0.5 ==> n % 2 == 0
  {
    var f := x.Floor;
    var frac := x - f as real;
    if frac < 0.5 then f
    else if frac > 0.5 then f + 1
    else if f % 2 == 0 then f
    else f + 1
  }

  /** `s` padded with leading zeros to `width` characters. */
  function PadZeros(s: string, width: nat): (r: string)
    ensures |r| == if |s| < width then width else |s|
    ensures AllDigits(s) ==> AllDigits(r) && DigitsValue(r) == DigitsValue(s)
    decreases width - |s|
  {
    if |s| < width then
      var r := PadZeros("0" + s, width);
      LeadingZeroValue(s);
      r
    else s
  }

  lemma {:induction false} LeadingZeroValue(s: string)
    ensures AllDigits(s) ==> AllDigits("0" + s) && DigitsValue("0" + s) == DigitsValue(s)
    decreases |s|
  {
    var z := "0" + s;
    if s != [] && AllDigits(s) {
      assert z[..|z| - 1] == "0" + s[..|s| - 1];
      LeadingZeroValue(s[..|s| - 1]);
    }
  }

  const Million: nat := 1000000

  lemma Pow10Six()
    ensures Pow10(6) == Million
  {
    assert Pow10(1) == 10;
    assert Pow10(2) == 100;
    assert Pow10(3) == 1000;
    assert Pow10(4) == 10000;
    assert Pow10(5) == 100000;
  }

  /** The millionths that `{:.6}` prints for `x`, ignoring the sign. */
  function Millionths(x: real): nat {
    var n := RoundHalfEven(Abs(x) * Million as real);
    if n < 0 then 0 else n
  }

  /** `format!("{:.6}", x)`: a sign for negative values, the whole part, a
      point and exactly six digits, rounding half to even. */
  function FormatFixed6(x: real): (s: string)
    ensures |s| >= 8 && s[|s| - 7] == '.' && AllDigits(s[|s| - 6..])
  {
    var m := Millionths(x);
    Pow10Six();
    NatToStringLength(m % Million, 6);
    var frac := PadZeros(NatToString(m % Million), 6);
    var s := (if x < 0.0 then "-" else "") + NatToString(m / Million) + "." + frac;
    assert s[|s| - 6..] == frac;
    s
  }

  /** Reading a formatted number back gives the value rounded to six
      decimals, with the sign of the value. */
  lemma FormatFixed6Reads(x: real)
    ensures ParseDecimal(FormatFixed6(x)) == Some(Signed(x < 0.0, Millionths(x) as real / Million as real))
  {
    var m := Millionths(x);
    var w := NatToString(m / Million);
    Pow10Six();
    NatToStringLength(m % Million, 6);
    var f := PadZeros(NatToString(m % Million), 6);
    assert FormatFixed6(x) == (if x < 0.0 then "-" else "") + w + "." + f;
    ParseDecimalOfParts(x < 0.0, w, f);
    FixedPartsValue(m);
  }

  /** The whole part and the six padded digits of `m` millionths read back
      as `m` millionths. */
  lemma FixedPartsValue(m: nat)
    ensures DecimalValue(NatToString(m / Million), PadZeros(NatToString(m % Million), 6)) == m as real / Million as real
  {
    Pow10Six();
    NatToStringLength(m % Million, 6);
    assert DecimalValue(NatToString(m / Million), PadZeros(NatToString(m % Million), 6))
           == (m / Million) as real + (m % Million) as real / Million as real;
    MillionthsSplit(m);
  }

  lemma MillionthsSplit(m: nat)
    ensures (m / Million) as real + (m % Million) as real / Million as real == m as real / Million as real
  {
    assert m == (m / Million) * Million + m % Million;
  }

  /** The printed value is within half a millionth of the value. */
  lemma FormatFixed6Close(x: real)
    ensures Abs(Millionths(x) as real / Million as real - Abs(x)) <= 0.0000005
  {
    var n := RoundHalfEven(Abs(x) * Million as real);
    assert n as real - 0.5 <= Abs(x) * Million as real <= n as real + 0.5;
  }

  /** A value that already has at most six decimals prints exactly. */
  lemma FormatFixed6Exact(k: int)
    ensures ParseDecimal(FormatFixed6(k as real / Million as real)) == Some(k as real / Million as real)
  {
    var x := k as real / Million as real;
    var a := if k < 0 then -k else k;
    assert Abs(x) * Million as real == a as real;
    assert RoundHalfEven(a as real) == a;
    assert Millionths(x) == a;
    FormatFixed6Reads(x);
  }

  // ---------------------------------------------------------------------------
  // The concat manifest
  // ---------------------------------------------------------------------------

  const ConcatHeader := "ffconcat version 1.0"

  /** The three lines that describe one clip. */
  function EntryLines(path: string, c: TimelineClip): (ls: seq<string>)
    ensures |ls| == 3
  {
    ["file '" + EscapeQuotes(path) + "'",
     "inpoint " + FormatFixed6(c.inPoint),
     "outpoint " + FormatFixed6(c.outPoint)]
  }

  predicate Found(library: seq<MediaClip>, c: TimelineClip) {
    FindMedia(library, c.mediaClipId).Some?
  }

  predicate AllFound(clips: seq<TimelineClip>, library: seq<MediaClip>) {
    forall k :: 0 <= k < |clips| ==> Found(library, clips[k])
  }

  /** The first clip whose item is not in the library. */
  function FirstMissing(clips: seq<TimelineClip>, library: seq<MediaClip>): (r: Option<nat>)
    ensures r.Some? ==> r.value < |clips| && !Found(library, clips[r.value])
    ensures r.Some? ==> forall k :: 0 <= k < r.value ==> Found(library, clips[k])
    ensures r.None? <==> AllFound(clips, library)
  {
    if clips == [] then None
    else if !Found(library, clips[0]) then Some(0)
    else
      match FirstMissing(clips[1..], library)
      case None => None
      case Some(k) => Some(k + 1)
  }

  /** The file a found clip is read from. */
  function ResolvedPath(library: seq<MediaClip>, c: TimelineClip): string
    requires Found(library, c)
  {
    PlayablePath(library[FindMedia(library, c.mediaClipId).value])
  }

  /** Three lines per clip, in order. */
  function ManifestLines(clips: seq<TimelineClip>, library: seq<MediaClip>): (ls: seq<string>)
    requires AllFound(clips, library)
    ensures |ls| == 3 * |clips|
  {
    if clips == [] then []
    else
      var n := |clips| - 1;
      assert AllFound(clips[..n], library);
      ManifestLines(clips[..n], library) + EntryLines(ResolvedPath(library, clips[n]), clips[n])
  }

  const NoMainTrackError := "No main track found"

  function MissingMediaError(id: string): string {
    "Media clip not found: " + id
  }

  /** What `generate_concat_file` writes, or the error it stops with: the
      chosen track's clips in start order, each as an entry for its item's
      file, after the header; no main track, or a clip whose item is missing,
      is an error. */
  function ConcatManifest(tracks: seq<Track>, library: seq<MediaClip>): (r: Result<string>)
    ensures SelectMainTrack(tracks).None? <==> r == Err(NoMainTrackError)
  {
    match SelectMainTrack(tracks)
    case None => Err(NoMainTrackError)
    case Some(t) =>
      var clips := SortByStart(tracks[t].clips);
      match FirstMissing(clips, library)
      case Some(k) => Err(MissingMediaError(clips[k].mediaClipId))
      case None => Ok(Terminated([ConcatHeader] + ManifestLines(clips, library)))
  }

  /** The clips of the main track, in the order the manifest lists them. */
  function ManifestClips(tracks: seq<Track>): seq<TimelineClip>
    requires SelectMainTrack(tracks).Some?
  {
    SortByStart(tracks[SelectMainTrack(tracks).value].clips)
  }

  predicate NoNewlineIn(s: string) {
    '\n' !in s
  }

  /** Read back line by line, a manifest is the header and then, for each
      clip in start order, exactly the lines `file '<escaped path>'`,
      `inpoint X` and `outpoint Y`, provided no file path holds a line break. */
  lemma ConcatManifestLines(tracks: seq<Track>, library: seq<MediaClip>)
    requires ConcatManifest(tracks, library).Ok?
    requires forall k :: 0 <= k < |library| ==> NoNewlineIn(PlayablePath(library[k]))
    ensures SelectMainTrack(tracks).Some?
    ensures AllFound(ManifestClips(tracks), library)
    ensures Lines(ConcatManifest(tracks, library).value)
            == [ConcatHeader] + ManifestLines(ManifestClips(tracks), library)
  {
    ConcatManifestText(tracks, library);
    var clips := ManifestClips(tracks);
    ManifestLinesPlain(clips, library);
    HeaderThenPlain(ManifestLines(clips, library));
    LinesOfTerminated([ConcatHeader] + ManifestLines(clips, library));
  }

  /** The text of a manifest that builds. */
  lemma ConcatManifestText(tracks: seq<Track>, library: seq<MediaClip>)
    requires ConcatManifest(tracks, library).Ok?
    ensures SelectMainTrack(tracks).Some?
    ensures AllFound(ManifestClips(tracks), library)
    ensures ConcatManifest(tracks, library).value
            == Terminated([ConcatHeader] + ManifestLines(ManifestClips(tracks), library))
  {
  }

  lemma HeaderThenPlain(ls: seq<string>)
    requires forall k :: 0 <= k < |ls| ==> PlainLine(ls[k])
    ensures forall k :: 0 <= k < |[ConcatHeader] + ls| ==> PlainLine(([ConcatHeader] + ls)[k])
  {
    var all := [ConcatHeader] + ls;
    forall k | 0 <= k < |all| ensures PlainLine(all[k]) {
      if k > 0 {
        assert all[k] == ls[k - 1];
      }
    }
  }

  lemma {:induction false} ManifestLinesPlain(clips: seq<TimelineClip>, library: seq<MediaClip>)
    requires AllFound(clips, library)
    requires forall k :: 0 <= k < |library| ==> NoNewlineIn(PlayablePath(library[k]))
    ensures forall k :: 0 <= k < |ManifestLines(clips, library)| ==> PlainLine(ManifestLines(clips, library)[k])
  {
    if clips != [] {
      var n := |clips| - 1;
      assert AllFound(clips[..n], library);
      ManifestLinesPlain(clips[..n], library);
      var p := ResolvedPath(library, clips[n]);
      EntryLinesPlain(p, clips[n]);
    }
  }

  /** The three lines of an entry hold no line break when its path holds none. */
  lemma EntryLinesPlain(path: string, c: TimelineClip)
    requires NoNewlineIn(path)
    ensures forall k :: 0 <= k < 3 ==> PlainLine(EntryLines(path, c)[k])
  {
    var e := EntryLines(path, c);
    EscapeKeepsNewlines(path);
    NoNewlineInFixed6(c.inPoint);
    NoNewlineInFixed6(c.outPoint);
    assert e[0] == "file '" + EscapeQuotes(path) + "'";
    assert PlainLine(e[0]);
    assert PlainLine(e[1]);
    assert PlainLine(e[2]);
  }

  lemma NoNewlineInFixed6(x: real)
    ensures '\n' !in FormatFixed6(x)
    ensures FormatFixed6(x)[|FormatFixed6(x)| - 1] != '\r'
  {
    var m := Millionths(x);
    var w := NatToString(m / Million);
    var f := PadZeros(NatToString(m % Million), 6);
    var s := FormatFixed6(x);
    assert s == (if x < 0.0 then "-" else "") + w + "." + f;
    forall i | 0 <= i < |s| ensures s[i] != '\n' {
      if x < 0.0 {
        if i > 0 && i <= |w| { assert s[i] == w[i - 1] && IsDigit(w[i - 1]); }
        else if i > |w| + 1 { assert s[i] == f[i - |w| - 2] && IsDigit(f[i - |w| - 2]); }
      } else {
        if i < |w| { assert s[i] == w[i] && IsDigit(w[i]); }
        else if i > |w| { assert s[i] == f[i - |w| - 1] && IsDigit(f[i - |w| - 1]); }
      }
    }
  }

  /** The manifest of a timeline whose clips are all found. */
  lemma ConcatManifestOk(tracks: seq<Track>, library: seq<MediaClip>)
    requires SelectMainTrack(tracks).Some? && AllFound(ManifestClips(tracks), library)
    ensures ConcatManifest(tracks, library)
            == Ok(Terminated([ConcatHeader] + ManifestLines(ManifestClips(tracks), library)))
  {
  }

  /** The manifest of a timeline whose clip `i` is the first one missing. */
  lemma ConcatManifestMissing(tracks: seq<Track>, library: seq<MediaClip>, i: nat)
    requires SelectMainTrack(tracks).Some?
    requires i < |ManifestClips(tracks)| && !Found(library, ManifestClips(tracks)[i])
    requires AllFound(ManifestClips(tracks)[..i], library)
    ensures ConcatManifest(tracks, library) == Err(MissingMediaError(ManifestClips(tracks)[i].mediaClipId))
  {
    var clips := ManifestClips(tracks);
    assert forall k :: 0 <= k < i ==> clips[..i][k] == clips[k];
    assert FirstMissing(clips, library) == Some(i);
  }

  /** One more clip adds its three lines at the end. */
  lemma ManifestLinesStep(clips: seq<TimelineClip>, library: seq<MediaClip>, i: nat)
    requires i < |clips| && AllFound(clips[..i], library) && Found(library, clips[i])
    ensures AllFound(clips[..i + 1], library)
    ensures ManifestLines(clips[..i + 1], library)
            == ManifestLines(clips[..i], library) + EntryLines(ResolvedPath(library, clips[i]), clips[i])
  {
    assert clips[..i + 1][..i] == clips[..i];
    assert forall k :: 0 <= k < i ==> clips[..i + 1][k] == clips[..i][k];
  }

  /** The text of one entry, line by line. */
  lemma TerminatedEntry(path: string, c: TimelineClip)
    ensures Terminated(EntryLines(path, c))
            == ("file '" + EscapeQuotes(path) + "'\n") + ("inpoint " + FormatFixed6(c.inPoint) + "\n")
               + ("outpoint " + FormatFixed6(c.outPoint) + "\n")
  {
    var e := EntryLines(path, c);
    assert e[1..][1..][1..] == [];
    assert Terminated(e[1..][1..]) == e[2] + "\n";
    assert Terminated(e[1..]) == e[1] + "\n" + e[2] + "\n";
  }

  lemma AppendThree(a: string, b: string, c: string, d: string)
    ensures a + b + c + d == a + (b + c + d)
  {
  }

  /** The manifest text grows by one entry's three lines per clip. */
  lemma ManifestTextStep(clips: seq<TimelineClip>, library: seq<MediaClip>, i: nat)
    requires i < |clips| && AllFound(clips[..i], library) && Found(library, clips[i])
    ensures AllFound(clips[..i + 1], library)
    ensures Terminated([ConcatHeader] + ManifestLines(clips[..i + 1], library))
            == Terminated([ConcatHeader] + ManifestLines(clips[..i], library))
               + ("file '" + EscapeQuotes(ResolvedPath(library, clips[i])) + "'\n")
               + ("inpoint " + FormatFixed6(clips[i].inPoint) + "\n")
               + ("outpoint " + FormatFixed6(clips[i].outPoint) + "\n")
  {
    var before := [ConcatHeader] + ManifestLines(clips[..i], library);
    var path := ResolvedPath(library, clips[i]);
    var entry := EntryLines(path, clips[i]);
    ManifestLinesStep(clips, library, i);
    TerminatedEntry(path, clips[i]);
    AppendAssoc([ConcatHeader], ManifestLines(clips[..i], library), entry);
    TerminatedGrows(before, entry, "file '" + EscapeQuotes(path) + "'\n",
                    "inpoint " + FormatFixed6(clips[i].inPoint) + "\n",
                    "outpoint " + FormatFixed6(clips[i].outPoint) + "\n");
  }

  lemma TerminatedGrows(before: seq<string>, entry: seq<string>, x: string, y: string, z: string)
    requires Terminated(entry) == x + y + z
    ensures Terminated(before + entry) == Terminated(before) + x + y + z
  {
    TerminatedAppend(before, entry);
    AppendThree(Terminated(before), x, y, z);
  }

  /** `generate_concat_file`: builds the manifest text clip by clip, then
      writes it as `concat.txt` in `outputDir`. `writeError` is the I/O error
      the write meets, if any. The file system changes only when the result
      is Ok: every lookup happens before the write. */
  method GenerateConcatFile(tracks: seq<Track>, library: seq<MediaClip>, outputDir: string,
                            fs: FileSystem, writeError: Option<string>) returns (r: Result<string>)
    modifies fs
    ensures ConcatManifest(tracks, library).Err? ==> r == Err(ConcatManifest(tracks, library).error)
    ensures ConcatManifest(tracks, library).Ok? && writeError.Some?
            ==> r == Err("Failed to write concat file: " + writeError.value)
    ensures r.Ok? <==> ConcatManifest(tracks, library).Ok? && writeError.None?
    ensures r.Ok? ==> r.value == JoinPath(outputDir, "concat.txt")
                      && fs.files == old(fs.files)[r.value := ConcatManifest(tracks, library).value]
    ensures r.Err? ==> fs.files == old(fs.files)
  {
    var t := SelectMainTrack(tracks);
    if t.None? {
      return Err(NoMainTrackError);
    }
    var clips := SortByStart(tracks[t.value].clips);
    var content := ConcatHeader + "\n";
    var i := 0;
    assert ManifestLines(clips[..0], library) == [];
    assert [ConcatHeader] + [] == [ConcatHeader];
    assert Terminated([ConcatHeader]) == content by {
      assert [ConcatHeader][1..] == [];
    }
    while i < |clips|
      invariant 0 <= i <= |clips|
      invariant AllFound(clips[..i], library)
      invariant content == Terminated([ConcatHeader] + ManifestLines(clips[..i], library))
      invariant fs.files == old(fs.files)
    {
      var clip := clips[i];
      var media := FindMedia(library, clip.mediaClipId);
      if media.None? {
        ConcatManifestMissing(tracks, library, i);
        return Err(MissingMediaError(clip.mediaClipId));
      }
      var filePath := PlayablePath(library[media.value]);
      var escaped := EscapeQuotes(filePath);
      var fileLine := "file '" + escaped + "'\n";
      content := content + fileLine;
      var inLine := "inpoint " + FormatFixed6(clip.inPoint) + "\n";
      content := content + inLine;
      var outLine := "outpoint " + FormatFixed6(clip.outPoint) + "\n";
      content := content + outLine;
      ManifestTextStep(clips, library, i);
      i := i + 1;
    }
    assert clips[..i] == clips;
    ConcatManifestOk(tracks, library);
    var concatPath := JoinPath(outputDir, "concat.txt");
    if writeError.Some? {
      return Err("Failed to write concat file: " + writeError.value);
    }
    fs.Write(concatPath, content);
    return Ok(concatPath);
  }

  // ---------------------------------------------------------------------------
  // Timeline length
  // ---------------------------------------------------------------------------

  function TrackDurations(tracks: seq<Track>): (ds: seq<real>)
    ensures |ds| == |tracks|
  {
    seq(|tracks|, k requires 0 <= k < |tracks| => tracks[k].Duration())
  }

  /** The whole timeline lasts as long as its longest track, and 0 when
      there are no tracks. */
  function CalculateTimelineDuration(tracks: seq<Track>): (d: real)
    ensures tracks == [] ==> d == 0.0
    ensures forall k :: 0 <= k < |tracks| ==> tracks[k].Duration() <= d
    ensures tracks != [] ==> exists k :: 0 <= k < |tracks| && tracks[k].Duration() == d
  {
    var ds := TrackDurations(tracks);
    assert forall k :: 0 <= k < |tracks| ==> ds[k] == tracks[k].Duration();
    MaxOr(ds, 0.0)
  }

  /** Every clip of every track ends by the end of the timeline, and some
      clip ends exactly there unless no track holds a clip. */
  lemma TimelineDurationBoundsClips(tracks: seq<Track>)
    ensures forall k, j :: 0 <= k < |tracks| && 0 <= j < |tracks[k].clips| ==>
              tracks[k].clips[j].EndTime() <= CalculateTimelineDuration(tracks)
    ensures (exists k :: 0 <= k < |tracks| && tracks[k].clips != []) && CalculateTimelineDuration(tracks) > 0.0 ==>
              exists k, j :: 0 <= k < |tracks| && 0 <= j < |tracks[k].clips| &&
                tracks[k].clips[j].EndTime() == CalculateTimelineDuration(tracks)
  {
    var d := CalculateTimelineDuration(tracks);
    if (exists k :: 0 <= k < |tracks| && tracks[k].clips != []) && d > 0.0 {
      var k :| 0 <= k < |tracks| && tracks[k].Duration() == d;
      assert tracks[k].clips != [];
      var j :| 0 <= j < |tracks[k].clips| && tracks[k].clips[j].EndTime() == d;
    }
  }

  /** A main track at order 0, visible, unlocked and at full volume. */
  function MainTrackOf(name: string, clips: seq<TimelineClip>): Track {
    Track("track", name, Main, 0, clips, true, false, 1.0)
  }

  /** A two-clip track lasts until the later of its clips ends. */
  lemma TwoClipTrack(t: Track)
    requires |t.clips| == 2
    ensures t.Duration() == if t.clips[0].EndTime() > t.clips[1].EndTime()
                            then t.clips[0].EndTime() else t.clips[1].EndTime()
  {
  }

  /** A timeline of two tracks lasts as long as the longer one. */
  lemma TwoTrackTimeline(tracks: seq<Track>)
    requires |tracks| == 2
    ensures CalculateTimelineDuration(tracks) == if tracks[0].Duration() > tracks[1].Duration()
                                                 then tracks[0].Duration() else tracks[1].Duration()
  {
  }

  /** Clips end to end: 0-5 s and 5-12 s make 12 s (any clip ids). */
  lemma TimelineDurationBackToBack(a: string, b: string)
    ensures CalculateTimelineDuration([MainTrackOf("Main Track",
              [NewTimelineClip(a, "clip1", "track1", 0.0, 0.0, 5.0),
               NewTimelineClip(b, "clip2", "track1", 5.0, 0.0, 7.0)])]) == 12.0
  {
    var t := MainTrackOf("Main Track",
               [NewTimelineClip(a, "clip1", "track1", 0.0, 0.0, 5.0),
                NewTimelineClip(b, "clip2", "track1", 5.0, 0.0, 7.0)]);
    TwoClipTrack(t);
  }

  /** The longer of two tracks decides: 10 s and 15 s make 15 s. */
  lemma TimelineDurationTwoTracks(a: string, b: string)
    ensures CalculateTimelineDuration([
              MainTrackOf("Track 1", [NewTimelineClip(a, "clip1", "track1", 0.0, 0.0, 10.0)]),
              MainTrackOf("Track 2", [NewTimelineClip(b, "clip2", "track2", 0.0, 0.0, 15.0)])]) == 15.0
  {
    var t1 := MainTrackOf("Track 1", [NewTimelineClip(a, "clip1", "track1", 0.0, 0.0, 10.0)]);
    var t2 := MainTrackOf("Track 2", [NewTimelineClip(b, "clip2", "track2", 0.0, 0.0, 15.0)]);
    assert t1.Duration() == 10.0 && t2.Duration() == 15.0;
    TwoTrackTimeline([t1, t2]);
  }

  /** A clip trimmed to 2-8 s of its source lasts 6 s, not 8 s. */
  lemma TimelineDurationTrimmed(a: string)
    ensures CalculateTimelineDuration([MainTrackOf("Main Track",
              [NewTimelineClip(a, "clip1", "track1", 0.0, 2.0, 8.0)])]) == 6.0
  {
  }

  /** A track without clips contributes nothing. */
  lemma TimelineDurationEmptyTrack()
    ensures CalculateTimelineDuration([MainTrackOf("Main Track", [])]) == 0.0
  {
  }

  /** A gap counts: clips at 0-3 s and 10-15 s make 15 s. */
  lemma TimelineDurationWithGap(a: string, b: string)
    ensures CalculateTimelineDuration([MainTrackOf("Main Track",
              [NewTimelineClip(a, "clip1", "track1", 0.0, 0.0, 3.0),
               NewTimelineClip(b, "clip2", "track1", 10.0, 0.0, 5.0)])]) == 15.0
  {
    var t := MainTrackOf("Main Track",
               [NewTimelineClip(a, "clip1", "track1", 0.0, 0.0, 3.0),
                NewTimelineClip(b, "clip2", "track1", 10.0, 0.0, 5.0)]);
    TwoClipTrack(t);
  }
}
