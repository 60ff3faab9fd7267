/** Reading the SubRip (.srt) captions the speech recogniser writes
    (ai/whisper.rs): blocks separated by a blank line, each holding a
    sequence number, a `start --> end` timestamp line and the caption text. */
module Whisper {
  import opened Wrappers
  import opened Text
  import opened CaptionModel

  // ---------------------------------------------------------------------------
  // Times
  // ---------------------------------------------------------------------------

  /** `parse_srt_time`: `HH:MM:SS,mmm` in seconds. The text must split on
      ',' into exactly two parts and its first part on ':' into exactly
      three, and all four must parse as numbers. */
  function ParseSrtTime(t: string): (r: Option<real>)
    ensures r.Some? ==> |Split(t, ",")| == 2 && |Split(Split(t, ",")[0], ":")| == 3
  {
    var parts := Split(t, ",");
    if |parts| != 2 then None
    else
      var fields := Split(parts[0], ":");
      if |fields| != 3 then None
      else
        var h := ParseDecimal(fields[0]);
        var m := ParseDecimal(fields[1]);
        var s := ParseDecimal(fields[2]);
        var ms := ParseDecimal(parts[1]);
        if h.None? || m.None? || s.None? || ms.None? then None
        else Some(Seconds(h.value, m.value, s.value, ms.value))
  }

  /** Hours, minutes, seconds and milliseconds as seconds. */
  function Seconds(h: real, m: real, s: real, ms: real): real {
    h * 3600.0 + m * 60.0 + s + ms / 1000.0
  }

  /** A time that reads has exactly one comma, and exactly two colons before it. */
  lemma SrtTimeShape(t: string)
    requires ParseSrtTime(t).Some?
    ensures multiset(t)[','] == 1
    ensures multiset(Split(t, ",")[0])[':'] == 2
  {
    SplitCharCount(t, ',');
    SplitCharCount(Split(t, ",")[0], ':');
  }

  /** A run of digits holds no separator. */
  lemma DigitsAvoid(d: string, c: char)
    requires AllDigits(d) && !IsDigit(c)
    ensures c !in d
  {
    assert forall i :: 0 <= i < |d| ==> d[i] != c;
  }

  /** How `h:m:s,ms` splits into its four fields. */
  lemma SrtTimeSplits(h: string, m: string, s: string, ms: string)
    requires AllDigits(h) && AllDigits(m) && AllDigits(s) && AllDigits(ms)
    ensures Split(h + ":" + m + ":" + s + "," + ms, ",") == [h + ":" + m + ":" + s, ms]
    ensures Split(h + ":" + m + ":" + s, ":") == [h, m, s]
  {
    var clock := h + ":" + m + ":" + s;
    DigitsAvoid(h, ','); DigitsAvoid(m, ','); DigitsAvoid(s, ','); DigitsAvoid(ms, ',');
    assert ',' !in clock by {
      assert clock == h + [':'] + m + [':'] + s;
    }
    SplitTwo(clock, ",", ms);
    DigitsAvoid(h, ':'); DigitsAvoid(m, ':'); DigitsAvoid(s, ':');
    SplitThree(h, m, s, ':');
  }

  /** `h:m:s,ms` built from four numbers reads as the seconds they denote. */
  lemma SrtTimeOfNumbers(h: string, m: string, s: string, ms: string)
    requires |h| > 0 && AllDigits(h) && |m| > 0 && AllDigits(m)
    requires |s| > 0 && AllDigits(s) && |ms| > 0 && AllDigits(ms)
    ensures ParseSrtTime(h + ":" + m + ":" + s + "," + ms)
            == Some(Seconds(ParseDecimal(h).value, ParseDecimal(m).value,
                            ParseDecimal(s).value, ParseDecimal(ms).value))
  {
    SrtTimeSplits(h, m, s, ms);
    ParseDecimalOfDigits(h);
    ParseDecimalOfDigits(m);
    ParseDecimalOfDigits(s);
    ParseDecimalOfDigits(ms);
  }

  /** Four runs of digits written as `h:m:s,ms` read as the seconds they
      denote. */
  lemma SrtTimeOfFields(h: string, m: string, s: string, ms: string)
    requires |h| > 0 && AllDigits(h) && |m| > 0 && AllDigits(m)
    requires |s| > 0 && AllDigits(s) && |ms| > 0 && AllDigits(ms)
    ensures ParseSrtTime(h + ":" + m + ":" + s + "," + ms)
            == Some(Seconds(DigitsValue(h) as real, DigitsValue(m) as real,
                            DigitsValue(s) as real, DigitsValue(ms) as real))
  {
    SrtTimeOfNumbers(h, m, s, ms);
    ParseDecimalOfDigits(h);
    ParseDecimalOfDigits(m);
    ParseDecimalOfDigits(s);
    ParseDecimalOfDigits(ms);
  }

  /** `SrtTimeOfFields` with the four values named. */
  lemma SrtTimeOfValues(h: string, m: string, s: string, ms: string, hv: nat, mv: nat, sv: nat, msv: nat)
    requires |h| > 0 && AllDigits(h) && |m| > 0 && AllDigits(m)
    requires |s| > 0 && AllDigits(s) && |ms| > 0 && AllDigits(ms)
    requires DigitsValue(h) == hv && DigitsValue(m) == mv && DigitsValue(s) == sv && DigitsValue(ms) == msv
    ensures ParseSrtTime(h + ":" + m + ":" + s + "," + ms)
            == Some(Seconds(hv as real, mv as real, sv as real, msv as real))
  {
    SrtTimeOfFields(h, m, s, ms);
  }

  /** "00:00:01,500" is 1.5 seconds. */
  lemma SrtTimeExample1()
    ensures ParseSrtTime("00" + ":" + "00" + ":" + "01" + "," + "500") == Some(1.5)
  {
    TwoDigits('0', '0'); TwoDigits('0', '1'); ThreeDigits('5', '0', '0');
    SrtTimeOfValues("00", "00", "01", "500", 0, 0, 1, 500);
  }

  /** "00:01:30,250" is 90.25 seconds. */
  lemma SrtTimeExample2()
    ensures ParseSrtTime("00" + ":" + "01" + ":" + "30" + "," + "250") == Some(90.25)
  {
    TwoDigits('0', '0'); TwoDigits('0', '1'); TwoDigits('3', '0'); ThreeDigits('2', '5', '0');
    SrtTimeOfValues("00", "01", "30", "250", 0, 1, 30, 250);
  }

  /** "01:00:00,000" is one hour. */
  lemma SrtTimeExample3()
    ensures ParseSrtTime("01" + ":" + "00" + ":" + "00" + "," + "000") == Some(3600.0)
  {
    TwoDigits('0', '1'); TwoDigits('0', '0'); ThreeDigits('0', '0', '0');
    SrtTimeOfValues("01", "00", "00", "000", 1, 0, 0, 0);
  }

  /** "00:00:04,200" is 4.2 seconds. */
  lemma SrtTimeExample4()
    ensures ParseSrtTime("00" + ":" + "00" + ":" + "04" + "," + "200") == Some(4.2)
  {
    TwoDigits('0', '0'); TwoDigits('0', '4'); ThreeDigits('2', '0', '0');
    SrtTimeOfValues("00", "00", "04", "200", 0, 0, 4, 200);
  }

  const Arrow := " --> "

  /** `parse_srt_timestamp`: the line must split on " --> " into exactly two
      times. */
  function ParseSrtTimestamp(line: string): (r: Option<(real, real)>)
    ensures r.Some? <==> |Split(line, Arrow)| == 2 && ParseSrtTime(Split(line, Arrow)[0]).Some?
                          && ParseSrtTime(Split(line, Arrow)[1]).Some?
    ensures r.Some? ==> r.value == (ParseSrtTime(Split(line, Arrow)[0]).value,
                                    ParseSrtTime(Split(line, Arrow)[1]).value)
  {
    var parts := Split(line, Arrow);
    if |parts| != 2 then None
    else
      match (ParseSrtTime(parts[0]), ParseSrtTime(parts[1]))
      case (Some(start), Some(end)) => Some((start, end))
      case _ => None
  }

  /** Two space-free times joined by the arrow read as the pair of them. */
  lemma SrtTimestampOfTimes(a: string, b: string)
    requires ' ' !in a && ' ' !in b
    requires ParseSrtTime(a).Some? && ParseSrtTime(b).Some?
    ensures ParseSrtTimestamp(a + Arrow + b) == Some((ParseSrtTime(a).value, ParseSrtTime(b).value))
  {
    SplitTwo(a, Arrow, b);
  }

  /** A time written from digits holds no space. */
  lemma SrtTimeNoSpace(h: string, m: string, s: string, ms: string)
    requires AllDigits(h) && AllDigits(m) && AllDigits(s) && AllDigits(ms)
    ensures ' ' !in h + ":" + m + ":" + s + "," + ms
  {
    DigitsAvoid(h, ' '); DigitsAvoid(m, ' '); DigitsAvoid(s, ' '); DigitsAvoid(ms, ' ');
    assert h + ":" + m + ":" + s + "," + ms == h + [':'] + m + [':'] + s + [','] + ms;
  }

  /** "00:00:01,500 --> 00:00:04,200" is the pair (1.5, 4.2). */
  lemma SrtTimestampExample()
    ensures ParseSrtTimestamp(("00" + ":" + "00" + ":" + "01" + "," + "500") + Arrow
                              + ("00" + ":" + "00" + ":" + "04" + "," + "200")) == Some((1.5, 4.2))
  {
    SrtTimeExample1();
    SrtTimeExample4();
    TwoDigits('0', '0'); TwoDigits('0', '1'); TwoDigits('0', '4');
    ThreeDigits('5', '0', '0'); ThreeDigits('2', '0', '0');
    SrtTimeNoSpace("00", "00", "01", "500");
    SrtTimeNoSpace("00", "00", "04", "200");
    SrtTimestampOfTimes("00" + ":" + "00" + ":" + "01" + "," + "500",
                        "00" + ":" + "00" + ":" + "04" + "," + "200");
  }

  // ---------------------------------------------------------------------------
  // Blocks
  // ---------------------------------------------------------------------------

  const BlockSeparator := "\n\n"
  const NoCaptionsError := "No captions found in SRT file"

  /** The text, start and end one block gives, if any: the block is
      trimmed, and it is skipped when empty, when it has fewer than three
      lines, or when its second line is not a timestamp line. The text is the
      third line onwards joined with spaces, then trimmed. */
  function BlockFields(block: string): (r: Option<(string, real, real)>)
    ensures var b := Trim(block);
            r.Some? <==> b != [] && |Lines(b)| >= 3 && ParseSrtTimestamp(Lines(b)[1]).Some?
    ensures r.Some? ==>
              var ls := Lines(Trim(block));
              var (start, end) := ParseSrtTimestamp(ls[1]).value;
              r.value == (Trim(Join(ls[2..], " ")), start, end)
  {
    var b := Trim(block);
    if b == [] then None
    else
      var ls := Lines(b);
      if |ls| < 3 then None
      else
        match ParseSrtTimestamp(ls[1])
        case None => None
        case Some((start, end)) => Some((Trim(Join(ls[2..], " ")), start, end))
  }

  /** The caption made from a block's fields; `id` is its fresh id. */
  function FieldsCaption(f: (string, real, real), clipId: string, language: string, id: string): Caption {
    NewCaption(id, clipId, f.0, f.1, f.2, language)
  }

  /** What each block gives, block by block. */
  function BlocksFields(blocks: seq<string>): (fs: seq<Option<(string, real, real)>>)
    ensures |fs| == |blocks|
    ensures forall k :: 0 <= k < |blocks| ==> fs[k] == BlockFields(blocks[k])
  {
    if blocks == [] then [] else BlocksFields(blocks[..|blocks| - 1]) + [BlockFields(blocks[|blocks| - 1])]
  }

  /** The captions made from the blocks' fields, in order, skipping the
      blocks that give none; the `k`-th caption made gets the id `idOf(k)`. */
  function Gather(fs: seq<Option<(string, real, real)>>, clipId: string, language: string,
                  idOf: nat -> string): (cs: seq<Caption>)
    ensures |cs| <= |fs|
  {
    if fs == [] then []
    else
      var before := Gather(fs[..|fs| - 1], clipId, language, idOf);
      match fs[|fs| - 1]
      case Some(f) => before + [FieldsCaption(f, clipId, language, idOf(|before|))]
      case None => before
  }

  /** Every caption belongs to the given clip and language, carries the
      id `idOf(k)` of its place `k`, has no confidence and the default style. */
  predicate Stamped(cs: seq<Caption>, clipId: string, language: string, idOf: nat -> string) {
    forall k :: 0 <= k < |cs| ==>
      (cs[k].mediaClipId == clipId && cs[k].language == language && cs[k].id == idOf(k)
       && cs[k].confidence.None? && cs[k].styling == Some(DefaultStyle()))
  }

  /** The captions the blocks of an SRT file give. */
  function SrtCaptions(blocks: seq<string>, clipId: string, language: string, idOf: nat -> string): (cs: seq<Caption>)
    ensures |cs| <= |blocks|
    ensures forall k :: 0 <= k < |cs| ==> cs[k].mediaClipId == clipId && cs[k].language == language
  {
    var fs := BlocksFields(blocks);
    GatherFields(fs, clipId, language, idOf);
    Gather(fs, clipId, language, idOf)
  }

  lemma {:induction false} GatherFields(fs: seq<Option<(string, real, real)>>, clipId: string, language: string,
                                        idOf: nat -> string)
    ensures Stamped(Gather(fs, clipId, language, idOf), clipId, language, idOf)
  {
    if fs != [] {
      GatherFields(fs[..|fs| - 1], clipId, language, idOf);
    }
  }

  /** Every caption belongs to the given clip and language, carries its
      fresh id, has no confidence and the default style. */
  lemma SrtCaptionsFields(blocks: seq<string>, clipId: string, language: string, idOf: nat -> string)
    ensures Stamped(SrtCaptions(blocks, clipId, language, idOf), clipId, language, idOf)
  {
    GatherFields(BlocksFields(blocks), clipId, language, idOf);
  }

  lemma {:induction false} GatherEmpty(fs: seq<Option<(string, real, real)>>, clipId: string, language: string,
                                       idOf: nat -> string)
    ensures Gather(fs, clipId, language, idOf) == [] <==> forall k :: 0 <= k < |fs| ==> fs[k].None?
  {
    if fs != [] {
      var init := fs[..|fs| - 1];
      GatherEmpty(init, clipId, language, idOf);
      assert forall k :: 0 <= k < |init| ==> init[k] == fs[k];
    }
  }

  /** No caption comes out exactly when every block is skipped. */
  lemma SrtCaptionsEmpty(blocks: seq<string>, clipId: string, language: string, idOf: nat -> string)
    ensures SrtCaptions(blocks, clipId, language, idOf) == []
            <==> forall k :: 0 <= k < |blocks| ==> BlockFields(blocks[k]).None?
  {
    GatherEmpty(BlocksFields(blocks), clipId, language, idOf);
  }

  /** Where each caption of `Gather(fs, ...)` comes from: `src[k]` is the
      index of its fields, and the indices increase. */
  predicate Sources(fs: seq<Option<(string, real, real)>>, cs: seq<Caption>, src: seq<nat>) {
    |src| == |cs|
    && (forall k :: 0 <= k < |cs| ==>
          (src[k] < |fs| && fs[src[k]] == Some((cs[k].text, cs[k].startTime, cs[k].endTime))))
    && (forall k, l :: 0 <= k < l < |cs| ==> src[k] < src[l])
  }

  lemma {:induction false} GatherSources(fs: seq<Option<(string, real, real)>>, clipId: string, language: string,
                                         idOf: nat -> string)
    returns (src: seq<nat>)
    ensures Sources(fs, Gather(fs, clipId, language, idOf), src)
  {
    if fs == [] {
      src := [];
    } else {
      var init := fs[..|fs| - 1];
      var before := Gather(init, clipId, language, idOf);
      src := GatherSources(init, clipId, language, idOf);
      assert forall k :: 0 <= k < |before| ==> init[src[k]] == fs[src[k]];
      match fs[|fs| - 1]
      case Some(f) =>
        var cs := before + [FieldsCaption(f, clipId, language, idOf(|before|))];
        assert forall k :: 0 <= k < |before| ==> cs[k] == before[k];
        src := src + [|fs| - 1];
      case None =>
    }
  }

  /** `src[k]` is the block the `k`-th caption comes from: it carries that
      block's text and times, and the blocks come in increasing order. */
  predicate BlockSources(blocks: seq<string>, cs: seq<Caption>, src: seq<nat>) {
    |src| == |cs|
    && (forall k :: 0 <= k < |cs| ==>
          (src[k] < |blocks| && BlockFields(blocks[src[k]]) == Some((cs[k].text, cs[k].startTime, cs[k].endTime))))
    && (forall k, l :: 0 <= k < l < |cs| ==> src[k] < src[l])
  }

  /** Each caption comes from one block, and later captions from later
      blocks. */
  lemma SrtCaptionsFromBlocks(blocks: seq<string>, clipId: string, language: string, idOf: nat -> string)
    ensures exists src :: BlockSources(blocks, SrtCaptions(blocks, clipId, language, idOf), src)
  {
    var src := GatherSources(BlocksFields(blocks), clipId, language, idOf);
    assert BlockSources(blocks, SrtCaptions(blocks, clipId, language, idOf), src);
  }

  /** One more block adds the caption it gives, if any. */
  lemma SrtCaptionsStep(blocks: seq<string>, i: nat, fields: Option<(string, real, real)>,
                        clipId: string, language: string, idOf: nat -> string)
    requires i < |blocks| && fields == BlockFields(blocks[i])
    ensures var before := SrtCaptions(blocks[..i], clipId, language, idOf);
            SrtCaptions(blocks[..i + 1], clipId, language, idOf)
            == if fields.Some? then before + [FieldsCaption(fields.value, clipId, language, idOf(|before|))]
               else before
  {
    assert blocks[..i + 1][..i] == blocks[..i];
    var fs := BlocksFields(blocks[..i + 1]);
    assert fs[..i] == BlocksFields(blocks[..i]);
  }

  /** `parse_srt_content`: split the text on blank lines, turn every block
      that holds a caption into one, in order, and fail when none does. */
  method ParseSrtContent(content: string, clipId: string, language: string, idOf: nat -> string)
    returns (r: Result<seq<Caption>>)
    ensures var cs := SrtCaptions(Split(content, BlockSeparator), clipId, language, idOf);
            r == if cs == [] then Err(NoCaptionsError) else Ok(cs)
  {
    var captions: seq<Caption> := [];
    var blocks := Split(content, BlockSeparator);
    var i := 0;
    while i < |blocks|
      invariant 0 <= i <= |blocks|
      invariant captions == SrtCaptions(blocks[..i], clipId, language, idOf)
    {
      var fields := BlockFields(blocks[i]);
      SrtCaptionsStep(blocks, i, fields, clipId, language, idOf);
      if fields.Some? {
        captions := captions + [FieldsCaption(fields.value, clipId, language, idOf(|captions|))];
      }
      i := i + 1;
    }
    assert blocks[..i] == blocks;
    if captions == [] {
      return Err(NoCaptionsError);
    }
    return Ok(captions);
  }
}
