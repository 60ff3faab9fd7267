/** Reading FFmpeg's progress lines and the length of a timeline
    (`parse_progress` and `calculate_timeline_duration` in ffmpeg/export.rs).
    The three regular expressions are written as scanners of the same
    shape: a literal key, greedy runs of one character class, and the
    leftmost position at which the whole pattern matches. */
module Progress {
  import opened Wrappers
  import opened Text
  import opened Timeline
  import opened ExportPipeline

  // ---------------------------------------------------------------------------
  // The three patterns
  // ---------------------------------------------------------------------------

  /** `\s`, `\d` and `[\d.]`. */
  datatype CharClass = Space | Digit | DigitOrDot

  predicate InClass(c: char, k: CharClass) {
    match k
    case Space => IsWhitespace(c)
    case Digit => IsDigit(c)
    case DigitOrDot => IsDigit(c) || c == '.'
  }

  /** End of the longest run of class `k` that starts at `i`. */
  function RunEnd(s: string, i: nat, k: CharClass): (e: nat)
    requires i <= |s|
    ensures i <= e <= |s|
    ensures forall j :: i <= j < e ==> InClass(s[j], k)
    ensures e < |s| ==> !InClass(s[e], k)
    decreases |s| - i
  {
    if i < |s| && InClass(s[i], k) then RunEnd(s, i + 1, k) else i
  }

  predicate AllIn(s: string, k: CharClass) {
    forall j :: 0 <= j < |s| ==> InClass(s[j], k)
  }

  /** `frame=\s*(\d+)`, `fps=\s*([\d.]+)` and `time=(\d+):(\d+):([\d.]+)`. */
  datatype Pattern = FramePat | FpsPat | TimePat

  /** What each pattern's capture groups hold. */
  predicate GroupsFit(p: Pattern, groups: seq<string>) {
    match p
    case FramePat => |groups| == 1 && |groups[0]| > 0 && AllIn(groups[0], Digit)
    case FpsPat => |groups| == 1 && |groups[0]| > 0 && AllIn(groups[0], DigitOrDot)
    case TimePat =>
      |groups| == 3 && |groups[0]| > 0 && AllIn(groups[0], Digit)
      && |groups[1]| > 0 && AllIn(groups[1], Digit)
      && |groups[2]| > 0 && AllIn(groups[2], DigitOrDot)
  }

  /** The capture groups of `p` when it matches starting exactly at `i`.
      Each run is followed by a character outside its class (or by the end),
      so the greedy run is the only way the rest of the pattern can match. */
  function MatchAt(p: Pattern, s: string, i: nat): (r: Option<seq<string>>)
    ensures r.Some? ==> GroupsFit(p, r.value)
  {
    match p
    case FramePat =>
      if !MatchesAt(s, "frame=", i) then None
      else
        var k := RunEnd(s, i + 6, Space);
        var e := RunEnd(s, k, Digit);
        if e > k then Some([s[k..e]]) else None
    case FpsPat =>
      if !MatchesAt(s, "fps=", i) then None
      else
        var k := RunEnd(s, i + 4, Space);
        var e := RunEnd(s, k, DigitOrDot);
        if e > k then Some([s[k..e]]) else None
    case TimePat =>
      if !MatchesAt(s, "time=", i) then None
      else
        var e1 := RunEnd(s, i + 5, Digit);
        if e1 == i + 5 || e1 == |s| || s[e1] != ':' then None
        else
          var e2 := RunEnd(s, e1 + 1, Digit);
          if e2 == e1 + 1 || e2 == |s| || s[e2] != ':' then None
          else
            var e3 := RunEnd(s, e2 + 1, DigitOrDot);
            if e3 == e2 + 1 then None
            else Some([s[i + 5..e1], s[e1 + 1..e2], s[e2 + 1..e3]])
  }

  /** `i` is where the leftmost match of `p` in `s` starts. */
  predicate LeftmostAt(p: Pattern, s: string, i: nat) {
    i <= |s| && MatchAt(p, s, i).Some? && forall j :: 0 <= j < i ==> MatchAt(p, s, j).None?
  }

  /** The groups of the leftmost match at or after `from`. */
  function Search(p: Pattern, s: string, from: nat): (r: Option<seq<string>>)
    ensures r.Some? ==> GroupsFit(p, r.value)
    decreases |s| + 1 - from
  {
    if from > |s| then None
    else if MatchAt(p, s, from).Some? then MatchAt(p, s, from)
    else Search(p, s, from + 1)
  }

  /** `Regex::captures`. */
  function Captures(p: Pattern, s: string): (r: Option<seq<string>>)
    ensures r.Some? ==> GroupsFit(p, r.value)
  {
    Search(p, s, 0)
  }

  /** Searching from `from` finds the leftmost match at or after `from`. */
  lemma {:induction false} SearchFinds(p: Pattern, s: string, from: nat, i: nat)
    requires from <= i <= |s| && MatchAt(p, s, i).Some?
    requires forall j :: from <= j < i ==> MatchAt(p, s, j).None?
    ensures Search(p, s, from) == MatchAt(p, s, i)
    decreases i - from
  {
    if from < i {
      SearchFinds(p, s, from + 1, i);
    }
  }

  /** Searching from `from` finds nothing when no position matches. */
  lemma {:induction false} SearchMisses(p: Pattern, s: string, from: nat)
    requires forall j :: from <= j <= |s| ==> MatchAt(p, s, j).None?
    ensures Search(p, s, from).None?
    decreases |s| + 1 - from
  {
    if from <= |s| {
      SearchMisses(p, s, from + 1);
    }
  }

  /** `captures` is the leftmost match, and nothing exactly when no
      position matches. */
  lemma CapturesLeftmost(p: Pattern, s: string, i: nat)
    requires LeftmostAt(p, s, i)
    ensures Captures(p, s) == MatchAt(p, s, i)
  {
    SearchFinds(p, s, 0, i);
  }

  lemma CapturesNone(p: Pattern, s: string)
    requires forall j :: 0 <= j <= |s| ==> MatchAt(p, s, j).None?
    ensures Captures(p, s).None?
  {
    SearchMisses(p, s, 0);
  }

  // ---------------------------------------------------------------------------
  // parse_progress
  // ---------------------------------------------------------------------------

  /** `x as u64`: truncation toward zero, saturating at both ends. */
  function AsU64(x: real): (n: nat)
    ensures n <= U64_MAX
    ensures x <= 0.0 ==> n == 0
    ensures 0.0 <= x < U64_MAX as real ==> n as real <= x < n as real + 1.0
  {
    if x <= 0.0 then 0 else if x.Floor >= U64_MAX then U64_MAX else x.Floor
  }

  /** `u64::saturating_sub`. */
  function SaturatingSub(a: nat, b: nat): (d: nat)
    ensures a >= b ==> d + b == a
    ensures a < b ==> d == 0
  {
    if a >= b then a - b else 0
  }

  /** `f64::min`. */
  function Min(a: real, b: real): (m: real)
    ensures m <= a && m <= b && (m == a || m == b)
  {
    if a <= b then a else b
  }

  /** The encoder's speed in frames per second: the `fps=` value, or 30 when
      there is none or it does not parse. */
  function FpsOf(line: string): real {
    match Captures(FpsPat, line)
    case None => 30.0
    case Some(g) => ParseDecimal(g[0]).GetOr(30.0)
  }

  /** Seconds encoded so far: `time=H:M:S`, each field 0 when it does not
      parse, and 0 without a `time=` field. */
  function TimeOf(line: string): real {
    match Captures(TimePat, line)
    case None => 0.0
    case Some(g) =>
      ParseDecimal(g[0]).GetOr(0.0) * 3600.0 + ParseDecimal(g[1]).GetOr(0.0) * 60.0
      + ParseDecimal(g[2]).GetOr(0.0)
  }

  /** Frames in the whole timeline at the given speed. */
  function FrameTotal(totalDuration: real, fps: real): (n: nat)
    ensures n <= U64_MAX
  {
    AsU64(totalDuration * fps)
  }

  /** `parse_progress`: a sample when the line carries a frame count that
      fits in 64 bits. */
  function ParseProgress(line: string, totalDuration: real): (r: Option<ExportProgress>)
    ensures r.Some? ==> Captures(FramePat, line).Some?
    ensures r.Some? ==> 0.0 <= r.value.progress <= 1.0 && r.value.fps >= 0.0
    ensures r.Some? ==> r.value.currentFrame <= U64_MAX && r.value.totalFrames <= U64_MAX
  {
    ReadingsNonNegative(line);
    match Captures(FramePat, line)
    case None => None
    case Some(g) =>
      match ParseU64(g[0])
      case None => None
      case Some(frame) =>
        var fps := FpsOf(line);
        var time := TimeOf(line);
        var progress := if totalDuration > 0.0 then Min(time / totalDuration, 1.0) else 0.0;
        var totalFrames := FrameTotal(totalDuration, fps);
        var eta := if fps > 0.0 && frame > 0 then AsU64(SaturatingSub(totalFrames, frame) as real / fps) else 0;
        Some(ExportProgress(frame, totalFrames, fps, progress, eta))
  }

  /** A digit or dot run never starts with a minus sign. */
  lemma UnsignedGroup(g: string)
    requires |g| > 0 && AllIn(g, DigitOrDot)
    ensures ParseDecimal(g).Some? ==> ParseDecimal(g).value >= 0.0
  {
    assert InClass(g[0], DigitOrDot);
  }

  /** Speeds and times read from a line are never negative. */
  lemma ReadingsNonNegative(line: string)
    ensures FpsOf(line) >= 0.0
    ensures TimeOf(line) >= 0.0
  {
    match Captures(FpsPat, line)
    case None =>
    case Some(g) => UnsignedGroup(g[0]);
    match Captures(TimePat, line)
    case None =>
    case Some(g) =>
      assert AllIn(g[0], DigitOrDot) && AllIn(g[1], DigitOrDot);
      UnsignedGroup(g[0]);
      UnsignedGroup(g[1]);
      UnsignedGroup(g[2]);
  }

  /** Without a `frame=` key followed by digits there is no sample. */
  lemma NoFrameNoSample(line: string, totalDuration: real)
    requires forall i :: 0 <= i <= |line| ==> MatchAt(FramePat, line, i).None?
    ensures ParseProgress(line, totalDuration).None?
  {
    CapturesNone(FramePat, line);
  }

  /** With one, the sample exists exactly when the leftmost count fits in
      64 bits, and it carries that count. */
  lemma FrameSample(line: string, totalDuration: real, i: nat)
    requires LeftmostAt(FramePat, line, i)
    ensures var digits := MatchAt(FramePat, line, i).value[0];
            && AllDigits(digits)
            && (ParseProgress(line, totalDuration).Some? <==> DigitsValue(digits) <= U64_MAX)
            && (ParseProgress(line, totalDuration).Some? ==>
                  ParseProgress(line, totalDuration).value.currentFrame == DigitsValue(digits))
  {
    CapturesLeftmost(FramePat, line, i);
    var digits := MatchAt(FramePat, line, i).value[0];
    assert AllIn(digits, Digit);
    assert digits[0] != '+';
  }

  /** Every sample's fields keep their ranges: progress is a fraction in
      [0, 1] and 0 for a timeline without length, the speed defaults to 30
      without an `fps=` field, the frame counts fit in 64 bits, and there is
      no time estimate before the first frame or at zero speed. */
  lemma SampleRanges(line: string, totalDuration: real)
    requires ParseProgress(line, totalDuration).Some?
    ensures var p := ParseProgress(line, totalDuration).value;
            && 0.0 <= p.progress <= 1.0
            && (totalDuration <= 0.0 ==> p.progress == 0.0)
            && (Captures(FpsPat, line).None? ==> p.fps == 30.0)
            && p.fps >= 0.0
            && p.currentFrame <= U64_MAX && p.totalFrames <= U64_MAX
            && (p.fps == 0.0 || p.currentFrame == 0 ==> p.etaSeconds == 0)
  {
    ReadingsNonNegative(line);
    var time := TimeOf(line);
    if totalDuration > 0.0 {
      assert time / totalDuration >= 0.0;
    }
  }

  /** The time estimate is the frames still to encode at the current speed,
      rounded down. */
  lemma EtaIsRemainingOverSpeed(line: string, totalDuration: real)
    requires ParseProgress(line, totalDuration).Some?
    requires ParseProgress(line, totalDuration).value.fps > 0.0
    requires ParseProgress(line, totalDuration).value.currentFrame > 0
    ensures var p := ParseProgress(line, totalDuration).value;
            var remaining := SaturatingSub(p.totalFrames, p.currentFrame) as real / p.fps;
            remaining < U64_MAX as real ==> p.etaSeconds as real <= remaining < p.etaSeconds as real + 1.0
  {
  }

  /** With a `time=` field, progress is the time reached over the total,
      capped at 1; hours, minutes and seconds that do not parse count 0. */
  lemma ProgressOfTime(line: string, totalDuration: real, i: nat)
    requires ParseProgress(line, totalDuration).Some?
    requires LeftmostAt(TimePat, line, i)
    requires totalDuration > 0.0
    ensures var g := MatchAt(TimePat, line, i).value;
            var time := ParseDecimal(g[0]).GetOr(0.0) * 3600.0 + ParseDecimal(g[1]).GetOr(0.0) * 60.0
                        + ParseDecimal(g[2]).GetOr(0.0);
            ParseProgress(line, totalDuration).value.progress == Min(time / totalDuration, 1.0)
  {
    ProgressOfLine(line, totalDuration);
    TimeOfLeftmost(line, i);
  }

  /** Without a `time=` field the time reached is 0, and so is progress. */
  lemma ProgressWithoutTime(line: string, totalDuration: real)
    requires ParseProgress(line, totalDuration).Some?
    requires forall j :: 0 <= j <= |line| ==> MatchAt(TimePat, line, j).None?
    ensures ParseProgress(line, totalDuration).value.progress == 0.0
  {
    ProgressOfLine(line, totalDuration);
    CapturesNone(TimePat, line);
  }

  lemma ProgressOfLine(line: string, totalDuration: real)
    requires ParseProgress(line, totalDuration).Some?
    ensures ParseProgress(line, totalDuration).value.progress
            == if totalDuration > 0.0 then Min(TimeOf(line) / totalDuration, 1.0) else 0.0
  {
  }

  lemma TimeOfLeftmost(line: string, i: nat)
    requires LeftmostAt(TimePat, line, i)
    ensures var g := MatchAt(TimePat, line, i).value;
            TimeOf(line) == ParseDecimal(g[0]).GetOr(0.0) * 3600.0 + ParseDecimal(g[1]).GetOr(0.0) * 60.0
                            + ParseDecimal(g[2]).GetOr(0.0)
  {
    CapturesLeftmost(TimePat, line, i);
  }

  /** With an `fps=` field, the speed is its value, or 30 when it does not
      parse. */
  lemma FpsOfMatch(line: string, totalDuration: real, i: nat)
    requires ParseProgress(line, totalDuration).Some?
    requires LeftmostAt(FpsPat, line, i)
    ensures ParseProgress(line, totalDuration).value.fps
            == ParseDecimal(MatchAt(FpsPat, line, i).value[0]).GetOr(30.0)
  {
    CapturesLeftmost(FpsPat, line, i);
  }

  // ---------------------------------------------------------------------------
  // The unit-test lines of parse_progress
  // ---------------------------------------------------------------------------

  /** The literal text each pattern starts with. */
  function Key(p: Pattern): (k: string)
    ensures |k| >= 4
  {
    match p
    case FramePat => "frame="
    case FpsPat => "fps="
    case TimePat => "time="
  }

  /** The run of class `k` from `i` ends after `n` characters of the class. */
  lemma {:induction false} RunEndAfter(s: string, i: nat, n: nat, k: CharClass)
    requires i + n <= |s|
    requires forall j :: i <= j < i + n ==> InClass(s[j], k)
    requires i + n == |s| || !InClass(s[i + n], k)
    ensures RunEnd(s, i, k) == i + n
    decreases n
  {
    if n > 0 {
      RunEndAfter(s, i + 1, n - 1, k);
    }
  }

  /** No match starts inside a stretch that lacks the key's first
      character. */
  lemma NoKeyIn(p: Pattern, pre: string, a: string, b: string)
    requires Key(p)[0] !in a
    ensures forall j :: |pre| <= j < |pre| + |a| ==> MatchAt(p, pre + a + b, j).None?
  {
    var s := pre + a + b;
    forall j | |pre| <= j < |pre| + |a| ensures MatchAt(p, s, j).None? {
      assert s[j] == a[j - |pre|];
    }
  }

  /** `frame=`, optional spaces and a digit run not followed by a digit. */
  lemma FrameMatch(a: string, ws: string, digits: string, rest: string)
    requires AllIn(ws, Space) && |digits| > 0 && AllIn(digits, Digit)
    requires rest == [] || !IsDigit(rest[0])
    ensures MatchAt(FramePat, a + "frame=" + ws + digits + rest, |a|) == Some([digits])
  {
    var s := a + "frame=" + ws + digits + rest;
    var k := |a| + 6 + |ws|;
    assert s[|a|..|a| + 6] == "frame=";
    assert InClass(digits[0], Digit);
    RunEndAfter(s, |a| + 6, |ws|, Space);
    RunEndAfter(s, k, |digits|, Digit);
    assert s[k..k + |digits|] == digits;
  }

  /** `fps=`, optional spaces and a run of digits and dots not followed by
      either. */
  lemma FpsMatch(a: string, ws: string, num: string, rest: string)
    requires AllIn(ws, Space) && |num| > 0 && AllIn(num, DigitOrDot)
    requires rest == [] || !InClass(rest[0], DigitOrDot)
    ensures MatchAt(FpsPat, a + "fps=" + ws + num + rest, |a|) == Some([num])
  {
    var s := a + "fps=" + ws + num + rest;
    var k := |a| + 4 + |ws|;
    assert s[|a|..|a| + 4] == "fps=";
    assert InClass(num[0], DigitOrDot);
    RunEndAfter(s, |a| + 4, |ws|, Space);
    RunEndAfter(s, k, |num|, DigitOrDot);
    assert s[k..k + |num|] == num;
  }

  /** `time=H:M:S` with digit runs H and M and a digit-or-dot run S not
      followed by a digit or a dot. */
  lemma TimeMatch(a: string, h: string, m: string, sec: string, rest: string)
    requires |h| > 0 && AllIn(h, Digit) && |m| > 0 && AllIn(m, Digit)
    requires |sec| > 0 && AllIn(sec, DigitOrDot)
    requires rest == [] || !InClass(rest[0], DigitOrDot)
    ensures MatchAt(TimePat, a + "time=" + h + ":" + m + ":" + sec + rest, |a|) == Some([h, m, sec])
  {
    var fields := h + (":" + (m + (":" + (sec + rest))));
    var s := a + ("time=" + fields);
    assert s == a + "time=" + h + ":" + m + ":" + sec + rest;
    assert s[|a|..] == "time=" + fields;
    SkipPrefix(s, |a|, "time=", fields);
    assert s[|a|..|a| + 5] == "time=";
    TimeFields(s, |a|, h, m, sec, rest);
  }

  /** The same, read off a text known only through its slices. */
  lemma TimeFields(s: string, i: nat, h: string, m: string, sec: string, rest: string)
    requires |h| > 0 && AllIn(h, Digit) && |m| > 0 && AllIn(m, Digit)
    requires |sec| > 0 && AllIn(sec, DigitOrDot)
    requires rest == [] || !InClass(rest[0], DigitOrDot)
    requires i + 5 <= |s| && s[i..i + 5] == "time="
    requires s[i + 5..] == h + (":" + (m + (":" + (sec + rest))))
    ensures MatchAt(TimePat, s, i) == Some([h, m, sec])
  {
    var e1 := i + 5 + |h|;
    var e2 := e1 + 1 + |m|;
    var e3 := e2 + 1 + |sec|;
    TimeRuns(s, i, h, m, sec, rest);
    TimeMatchAt(s, i, e1, e2, e3, h, m, sec);
  }

  /** Where the three runs of a time field end, and what they hold. */
  lemma TimeRuns(s: string, i: nat, h: string, m: string, sec: string, rest: string)
    requires |h| > 0 && AllIn(h, Digit) && |m| > 0 && AllIn(m, Digit)
    requires |sec| > 0 && AllIn(sec, DigitOrDot)
    requires rest == [] || !InClass(rest[0], DigitOrDot)
    requires i + 5 <= |s|
    requires s[i + 5..] == h + (":" + (m + (":" + (sec + rest))))
    ensures var e1 := i + 5 + |h|;
            var e2 := e1 + 1 + |m|;
            var e3 := e2 + 1 + |sec|;
            && RunEnd(s, i + 5, Digit) == e1 && e1 < |s| && s[e1] == ':'
            && RunEnd(s, e1 + 1, Digit) == e2 && e2 < |s| && s[e2] == ':'
            && RunEnd(s, e2 + 1, DigitOrDot) == e3
            && s[i + 5..e1] == h && s[e1 + 1..e2] == m && s[e2 + 1..e3] == sec
  {
    TwoColonRuns(s, i + 5, h, m, sec + rest);
    ClassRun(s, i + 5 + |h| + 1 + |m| + 1, DigitOrDot, sec, rest);
  }

  /** `H:M:` written at `j`, with digit runs H and M. */
  lemma TwoColonRuns(s: string, j: nat, h: string, m: string, tail: string)
    requires j <= |s| && s[j..] == h + (":" + (m + (":" + tail)))
    requires AllIn(h, Digit) && AllIn(m, Digit)
    ensures var e1 := j + |h|;
            var e2 := e1 + 1 + |m|;
            && RunEnd(s, j, Digit) == e1 && e1 < |s| && s[e1] == ':' && s[j..e1] == h
            && RunEnd(s, e1 + 1, Digit) == e2 && e2 < |s| && s[e2] == ':' && s[e1 + 1..e2] == m
            && s[e2 + 1..] == tail
  {
    RunThenColon(s, j, h, m + (":" + tail));
    RunThenColon(s, j + |h| + 1, m, tail);
  }

  /** A digit run followed by a colon. */
  lemma RunThenColon(s: string, j: nat, run: string, tail: string)
    requires j <= |s| && s[j..] == run + (":" + tail)
    requires AllIn(run, Digit)
    ensures RunEnd(s, j, Digit) == j + |run| && s[j..j + |run|] == run
    ensures j + |run| < |s| && s[j + |run|] == ':' && s[j + |run| + 1..] == tail
  {
    ClassRun(s, j, Digit, run, ":" + tail);
    SkipPrefix(s, j, run, ":" + tail);
    SkipPrefix(s, j + |run|, ":", tail);
  }

  /** Past a prefix written at `k`, the text goes on with what follows it. */
  lemma SkipPrefix(s: string, k: nat, x: string, y: string)
    requires k <= |s| && s[k..] == x + y
    ensures k + |x| <= |s| && s[k + |x|..] == y
    ensures |x| > 0 ==> s[k] == x[0]
  {
    assert s[k + |x|..] == s[k..][|x|..];
    if |x| > 0 {
      assert s[k] == s[k..][0];
    }
  }

  /** The three runs of a time field, once their ends are known. */
  lemma TimeMatchAt(s: string, i: nat, e1: nat, e2: nat, e3: nat, h: string, m: string, sec: string)
    requires MatchesAt(s, "time=", i)
    requires RunEnd(s, i + 5, Digit) == e1 && i + 5 < e1 < |s| && s[e1] == ':'
    requires RunEnd(s, e1 + 1, Digit) == e2 && e1 + 1 < e2 < |s| && s[e2] == ':'
    requires RunEnd(s, e2 + 1, DigitOrDot) == e3 && e2 + 1 < e3
    requires s[i + 5..e1] == h && s[e1 + 1..e2] == m && s[e2 + 1..e3] == sec
    ensures MatchAt(TimePat, s, i) == Some([h, m, sec])
  {
  }

  /** A run of class `k` written at `j`, followed by a character outside
      the class or by the end, is the greedy run from `j`. */
  lemma ClassRun(s: string, j: nat, k: CharClass, run: string, rest: string)
    requires j <= |s| && s[j..] == run + rest
    requires AllIn(run, k)
    requires rest == [] || !InClass(rest[0], k)
    ensures RunEnd(s, j, k) == j + |run| && s[j..j + |run|] == run
  {
    assert forall x :: j <= x < j + |run| ==> s[x] == s[j..][x - j];
    RunEndAfter(s, j, |run|, k);
    assert s[j..j + |run|] == s[j..][..|run|];
  }



  /** The line of `test_parse_progress`: frame 1234 at 30 fps, 41.4 s in. */
  predicate IsTestLine(line: string) {
    line == "frame= 1234 " + "fps= 30 " + "q=28.0 size= 1024kB " + "time=00:00:41.40"
            + " bitrate= 202.3kbits/s speed=1.2x"
  }

  /** The test line cut around its `frame=` field. */
  lemma TestLineAtFrame(line: string)
    requires IsTestLine(line)
    ensures line == "" + "frame=" + " " + "1234"
                    + (" " + "fps= 30 " + "q=28.0 size= 1024kB " + "time=00:00:41.40" + " bitrate= 202.3kbits/s speed=1.2x")
  {
  }

  lemma TestLineFrame(line: string)
    requires IsTestLine(line)
    ensures LeftmostAt(FramePat, line, 0) && MatchAt(FramePat, line, 0) == Some(["1234"])
  {
    TestLineAtFrame(line);
    FrameMatch("", " ", "1234",
               " " + "fps= 30 " + "q=28.0 size= 1024kB " + "time=00:00:41.40" + " bitrate= 202.3kbits/s speed=1.2x");
  }

  /** The test line cut around its `fps=` field. */
  lemma TestLineAtFps(line: string)
    requires IsTestLine(line)
    ensures line == "frame= 1234 " + "fps=" + " " + "30"
                    + (" " + "q=28.0 size= 1024kB " + "time=00:00:41.40" + " bitrate= 202.3kbits/s speed=1.2x")
  {
  }

  /** The same line cut after its first character. */
  lemma TestLineAfterF(line: string)
    requires IsTestLine(line)
    ensures line == "f" + "rame= 1234 "
                    + ("fps= 30 " + "q=28.0 size= 1024kB " + "time=00:00:41.40" + " bitrate= 202.3kbits/s speed=1.2x")
  {
  }

  lemma TestLineFps(line: string)
    requires IsTestLine(line)
    ensures LeftmostAt(FpsPat, line, 12) && MatchAt(FpsPat, line, 12) == Some(["30"])
  {
    TestLineFpsMatch(line);
    TestLineNoFpsBefore(line);
  }

  lemma TestLineFpsMatch(line: string)
    requires IsTestLine(line)
    ensures MatchAt(FpsPat, line, 12) == Some(["30"])
  {
    TestLineAtFps(line);
    FpsMatch("frame= 1234 ", " ", "30",
             " " + "q=28.0 size= 1024kB " + "time=00:00:41.40" + " bitrate= 202.3kbits/s speed=1.2x");
  }

  lemma TestLineNoFpsBefore(line: string)
    requires IsTestLine(line)
    ensures forall j :: 0 <= j < 12 ==> MatchAt(FpsPat, line, j).None?
  {
    TestLineAfterF(line);
    NoKeyIn(FpsPat, "f", "rame= 1234 ",
            "fps= 30 " + "q=28.0 size= 1024kB " + "time=00:00:41.40" + " bitrate= 202.3kbits/s speed=1.2x");
    TestLineNoFpsAtStart(line);
  }

  lemma TestLineNoFpsAtStart(line: string)
    requires IsTestLine(line)
    ensures MatchAt(FpsPat, line, 0).None?
  {
    TestLineAfterF(line);
    assert line[1] == 'r';
  }

  /** The test line cut around its `time=` field. */
  lemma TestLineAtTime(line: string)
    requires IsTestLine(line)
    ensures line == ("frame= 1234 " + "fps= 30 " + "q=28.0 size= 1024kB ") + "time=" + "00" + ":" + "00" + ":" + "41.40"
                    + " bitrate= 202.3kbits/s speed=1.2x"
    ensures line == "" + ("frame= 1234 " + "fps= 30 " + "q=28.0 size= 1024kB ")
                    + ("time=00:00:41.40" + " bitrate= 202.3kbits/s speed=1.2x")
  {
  }

  lemma TestLineTime(line: string)
    requires IsTestLine(line)
    ensures LeftmostAt(TimePat, line, 40) && MatchAt(TimePat, line, 40) == Some(["00", "00", "41.40"])
  {
    TestLineTimeMatch(line);
    TestLineNoTimeBefore(line);
  }

  lemma TestLineTimeMatch(line: string)
    requires IsTestLine(line)
    ensures MatchAt(TimePat, line, 40) == Some(["00", "00", "41.40"])
  {
    TestLineAtTime(line);
    TimeMatch("frame= 1234 " + "fps= 30 " + "q=28.0 size= 1024kB ", "00", "00", "41.40",
              " bitrate= 202.3kbits/s speed=1.2x");
  }

  lemma TestLineNoTimeBefore(line: string)
    requires IsTestLine(line)
    ensures forall j :: 0 <= j < 40 ==> MatchAt(TimePat, line, j).None?
  {
    TestLineAtTime(line);
    NoKeyIn(TimePat, "", "frame= 1234 " + "fps= 30 " + "q=28.0 size= 1024kB ",
            "time=00:00:41.40" + " bitrate= 202.3kbits/s speed=1.2x");
  }

  /** `test_parse_progress`: 41.4 s into a 120 s timeline the sample has
      frame 1234, speed 30 and a progress strictly between 0 and 1. */
  lemma TestParseProgress(line: string)
    requires IsTestLine(line)
    ensures ParseProgress(line, 120.0).Some?
    ensures ParseProgress(line, 120.0).value.currentFrame == 1234
    ensures ParseProgress(line, 120.0).value.fps == 30.0
    ensures 0.0 < ParseProgress(line, 120.0).value.progress < 1.0
  {
    TestSampleFrame(line);
    TestSampleFps(line);
    TestSampleProgress(line);
  }

  lemma TestSampleFrame(line: string)
    requires IsTestLine(line)
    ensures ParseProgress(line, 120.0).Some? && ParseProgress(line, 120.0).value.currentFrame == 1234
  {
    TestLineFrame(line);
    FrameSample(line, 120.0, 0);
    ThreeDigits('1', '2', '3');
    DigitsSnoc(['1', '2', '3'], '4');
    assert "1234" == ['1', '2', '3'] + ['4'];
  }

  lemma TestSampleFps(line: string)
    requires IsTestLine(line) && ParseProgress(line, 120.0).Some?
    ensures ParseProgress(line, 120.0).value.fps == 30.0
  {
    TestLineFps(line);
    FpsOfMatch(line, 120.0, 12);
    ParseDecimalOfDigits("30");
  }

  lemma TestSampleProgress(line: string)
    requires IsTestLine(line) && ParseProgress(line, 120.0).Some?
    ensures 0.0 < ParseProgress(line, 120.0).value.progress < 1.0
  {
    TestLineTime(line);
    ProgressOfTime(line, 120.0, 40);
    TestTimeFields();
  }

  /** The fields of the test line's time read 0, 0 and 41.4. */
  lemma TestTimeFields()
    ensures ParseDecimal("00") == Some(0.0) && ParseDecimal("41.40") == Some(41.4)
  {
    TwoDigits('0', '0');
    assert "00" == ['0', '0'];
    ParseDecimalOfDigits("00");
    TwoDigits('4', '1');
    TwoDigits('4', '0');
    assert "41" == ['4', '1'] && "40" == ['4', '0'];
    assert "41.40" == "" + "41" + "." + "40";
    ParseDecimalOfParts(false, "41", "40");
  }

  /** The line of `test_parse_progress_calculates_eta`: frame 100 at 25
      fps. */
  predicate IsEtaTestLine(line: string) {
    line == "frame= 100 " + "fps= 25 " + "q=28.0 size= 1024kB " + "time=00:00:04.00"
            + " bitrate= 202.3kbits/s speed=1.0x"
  }

  /** The eta test line cut around its `frame=` field. */
  lemma EtaTestLineAtFrame(line: string)
    requires IsEtaTestLine(line)
    ensures line == "" + "frame=" + " " + "100"
                    + (" " + "fps= 25 " + "q=28.0 size= 1024kB " + "time=00:00:04.00" + " bitrate= 202.3kbits/s speed=1.0x")
  {
  }

  /** The eta test line cut around its `fps=` field. */
  lemma EtaTestLineAtFps(line: string)
    requires IsEtaTestLine(line)
    ensures line == "frame= 100 " + "fps=" + " " + "25"
                    + (" " + "q=28.0 size= 1024kB " + "time=00:00:04.00" + " bitrate= 202.3kbits/s speed=1.0x")
  {
  }

  /** The same line cut after its first character. */
  lemma EtaTestLineAfterF(line: string)
    requires IsEtaTestLine(line)
    ensures line == "f" + "rame= 100 "
                    + ("fps= 25 " + "q=28.0 size= 1024kB " + "time=00:00:04.00" + " bitrate= 202.3kbits/s speed=1.0x")
  {
  }

  lemma EtaTestLineFrame(line: string)
    requires IsEtaTestLine(line)
    ensures LeftmostAt(FramePat, line, 0) && MatchAt(FramePat, line, 0) == Some(["100"])
  {
    EtaTestLineAtFrame(line);
    FrameMatch("", " ", "100",
               " " + "fps= 25 " + "q=28.0 size= 1024kB " + "time=00:00:04.00" + " bitrate= 202.3kbits/s speed=1.0x");
  }

  lemma EtaTestLineFps(line: string)
    requires IsEtaTestLine(line)
    ensures LeftmostAt(FpsPat, line, 11) && MatchAt(FpsPat, line, 11) == Some(["25"])
  {
    EtaTestLineFpsMatch(line);
    EtaTestLineNoFpsBefore(line);
  }

  lemma EtaTestLineFpsMatch(line: string)
    requires IsEtaTestLine(line)
    ensures MatchAt(FpsPat, line, 11) == Some(["25"])
  {
    EtaTestLineAtFps(line);
    FpsMatch("frame= 100 ", " ", "25",
             " " + "q=28.0 size= 1024kB " + "time=00:00:04.00" + " bitrate= 202.3kbits/s speed=1.0x");
  }

  lemma EtaTestLineNoFpsBefore(line: string)
    requires IsEtaTestLine(line)
    ensures forall j :: 0 <= j < 11 ==> MatchAt(FpsPat, line, j).None?
  {
    EtaTestLineAfterF(line);
    NoKeyIn(FpsPat, "f", "rame= 100 ",
            "fps= 25 " + "q=28.0 size= 1024kB " + "time=00:00:04.00" + " bitrate= 202.3kbits/s speed=1.0x");
    EtaTestLineNoFpsAtStart(line);
  }

  lemma EtaTestLineNoFpsAtStart(line: string)
    requires IsEtaTestLine(line)
    ensures MatchAt(FpsPat, line, 0).None?
  {
    EtaTestLineAfterF(line);
    assert line[1] == 'r';
  }

  /** The eta test line's sample: frame 100 at 25 fps. */
  lemma EtaTestSample(line: string)
    requires IsEtaTestLine(line)
    ensures ParseProgress(line, 100.0).Some?
    ensures ParseProgress(line, 100.0).value.currentFrame == 100
    ensures ParseProgress(line, 100.0).value.fps == 25.0
  {
    EtaTestLineFrame(line);
    FrameSample(line, 100.0, 0);
    ThreeDigits('1', '0', '0');
    assert "100" == ['1', '0', '0'];
    EtaTestLineFps(line);
    FpsOfMatch(line, 100.0, 11);
    TwoDigits('2', '5');
    assert "25" == ['2', '5'];
    ParseDecimalOfDigits("25");
  }

  /** The frame total at the line's speed. */
  lemma TotalFramesAtSpeed(line: string, totalDuration: real)
    requires ParseProgress(line, totalDuration).Some?
    ensures var p := ParseProgress(line, totalDuration).value;
            p.totalFrames == FrameTotal(totalDuration, p.fps)
  {
  }

  /** `test_parse_progress_calculates_eta`: 100 frames into a 100 s
      timeline at 25 fps, 2400 of 2500 frames remain, so the estimate is
      96 s, which is positive. */
  lemma TestParseProgressEta(line: string)
    requires IsEtaTestLine(line)
    ensures ParseProgress(line, 100.0).Some?
    ensures ParseProgress(line, 100.0).value.etaSeconds == 96
    ensures ParseProgress(line, 100.0).value.etaSeconds > 0
  {
    EtaTestSample(line);
    EtaIsRemainingOverSpeed(line, 100.0);
    TotalFramesAtSpeed(line, 100.0);
    var p := ParseProgress(line, 100.0).value;
    EtaArithmetic(p.fps, p.currentFrame, p.totalFrames, p.etaSeconds);
  }

  /** 2500 frames at 25 fps, 100 done: 96 s remain. */
  lemma EtaArithmetic(fps: real, frame: nat, total: nat, eta: nat)
    requires fps == 25.0 && frame == 100 && total == FrameTotal(100.0, fps)
    requires var r := SaturatingSub(total, frame) as real / fps;
             r < U64_MAX as real ==> eta as real <= r < eta as real + 1.0
    ensures total == 2500 && eta == 96
  {
    assert 100.0 * fps == 2500.0;
    assert SaturatingSub(total, frame) == 2400;
    assert 2400 as real / 25.0 == 96.0;
  }

  /** `test_parse_progress_returns_none_on_invalid`: a line without a
      `frame=` field gives no sample. */
  lemma TestParseProgressNone(line: string)
    requires line == "Some random FFmpeg " + "output without progress"
    ensures ParseProgress(line, 120.0).None?
  {
    NoKeyIn(FramePat, "", line, "");
    assert line == "" + line + "";
    NoFrameNoSample(line, 120.0);
  }
}
