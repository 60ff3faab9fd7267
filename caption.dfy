/** Timestamped captions attached to a media item, their styling, and the
    rules a caption and a style must satisfy (models/caption.rs). */
module CaptionModel {
  import opened Wrappers
  import opened Text

  datatype CaptionPosition = Top | Center | Bottom

  datatype CaptionAlignment = Left | Center | Right

  /** `size` is in points; `color` is meant to be `#RRGGBB`. */
  datatype CaptionStyle = CaptionStyle(
    font: string,
    size: nat,
    color: string,
    backgroundColor: Option<string>,
    position: CaptionPosition,
    alignment: CaptionAlignment)

  /** Times are seconds relative to the media item; `confidence` is the speech
      recogniser's score when there is one. */
  datatype Caption = Caption(
    id: string,
    mediaClipId: string,
    text: string,
    startTime: real,
    endTime: real,
    confidence: Option<real>,
    language: string,
    styling: Option<CaptionStyle>)

  const EmptyTextError := "Caption text cannot be empty"
  const TextTooLongError := "Caption text exceeds maximum length (500 chars)"
  const NegativeStartError := "Start time cannot be negative"
  const EndBeforeStartError := "End time must be greater than start time"
  const ConfidenceError := "Confidence must be between 0.0 and 1.0"

  /** The limit on caption text, in UTF-8 bytes. */
  const MaxTextBytes: nat := 500

  /** `CaptionStyle::default`: white 24-point Arial at the bottom, centred,
      on a transparent background. */
  function DefaultStyle(): (s: CaptionStyle)
    ensures s.font == "Arial" && s.size == 24 && s.color == "#FFFFFF"
    ensures s.backgroundColor == Some("transparent")
    ensures s.position == Bottom && s.alignment == CaptionAlignment.Center
  {
    CaptionStyle("Arial", 24, "#FFFFFF", Some("transparent"), Bottom, CaptionAlignment.Center)
  }

  /** `Caption::new`: no confidence score and the default style; `id` is the
      fresh UUID the source draws. */
  function NewCaption(id: string, mediaClipId: string, text: string,
                      startTime: real, endTime: real, language: string): (c: Caption)
    ensures c.id == id && c.mediaClipId == mediaClipId && c.text == text && c.language == language
    ensures c.startTime == startTime && c.endTime == endTime
    ensures c.confidence.None? && c.styling == Some(DefaultStyle())
  {
    Caption(id, mediaClipId, text, startTime, endTime, None, language, Some(DefaultStyle()))
  }

  /** Seconds on screen: positive exactly when the caption ends after it
      starts. */
  function Duration(c: Caption): (d: real)
    ensures c.startTime + d == c.endTime
    ensures d > 0.0 <==> c.startTime < c.endTime
  {
    c.endTime - c.startTime
  }

  /** Number of whitespace-separated words of the text: none exactly when
      the text is all whitespace. */
  function WordCount(c: Caption): (n: nat)
    ensures n == 0 <==> forall i :: 0 <= i < |c.text| ==> IsWhitespace(c.text[i])
  {
    |Words(c.text)|
  }

  /** Words written with single spaces between them are counted one by one. */
  lemma WordCountOfJoin(c: Caption, ws: seq<string>)
    requires forall k :: 0 <= k < |ws| ==> IsWord(ws[k])
    requires c.text == Join(ws, " ")
    ensures WordCount(c) == |ws|
  {
    WordsOfJoin(ws);
  }

  /** `"Hello world"` has two words. */
  lemma WordCountExample(c: Caption)
    requires c.text == "Hello world"
    ensures WordCount(c) == 2
  {
    assert Join(["Hello", "world"], " ") == "Hello world";
    WordCountOfJoin(c, ["Hello", "world"]);
  }

  /** `Caption::validate`: the first rule broken, checked in the order text
      present, text at most 500 bytes, start not negative, end after start,
      confidence (if any) within [0, 1]. */
  function Validate(c: Caption): (r: Result<Unit>)
    ensures r.Ok? <==> (c.text != [] && Utf8Len(c.text) <= MaxTextBytes
                        && 0.0 <= c.startTime < c.endTime
                        && (c.confidence.Some? ==> 0.0 <= c.confidence.value <= 1.0))
    ensures r.Ok? ==> Duration(c) > 0.0
    ensures c.text == [] ==> r == Err(EmptyTextError)
    ensures c.text != [] && Utf8Len(c.text) > MaxTextBytes ==> r == Err(TextTooLongError)
    ensures c.text != [] && Utf8Len(c.text) <= MaxTextBytes && c.startTime < 0.0
            ==> r == Err(NegativeStartError)
    ensures c.text != [] && Utf8Len(c.text) <= MaxTextBytes && 0.0 <= c.startTime && c.endTime <= c.startTime
            ==> r == Err(EndBeforeStartError)
    ensures c.text != [] && Utf8Len(c.text) <= MaxTextBytes && 0.0 <= c.startTime < c.endTime
            && c.confidence.Some? && !(0.0 <= c.confidence.value <= 1.0)
            ==> r == Err(ConfidenceError)
    ensures r.Err? ==> r.error in {EmptyTextError, TextTooLongError, NegativeStartError,
                                   EndBeforeStartError, ConfidenceError}
  {
    if c.text == [] then Err(EmptyTextError)
    else if Utf8Len(c.text) > MaxTextBytes then Err(TextTooLongError)
    else if c.startTime < 0.0 then Err(NegativeStartError)
    else if c.endTime <= c.startTime then Err(EndBeforeStartError)
    else if c.confidence.Some? && !(0.0 <= c.confidence.value <= 1.0) then Err(ConfidenceError)
    else Ok(Unit)
  }

  /** The limit counts bytes: more than 500 characters never validates, while
      500 characters or fewer may still be refused when some of them take
      several bytes. */
  lemma LongTextRejected(c: Caption)
    requires |c.text| > MaxTextBytes
    ensures Validate(c) == Err(TextTooLongError)
  {
    Utf8LenBounds(c.text);
  }

  /** A caption made by `Caption::new` with some text of at most 500 bytes and
      a non-empty interval starting at or after 0 validates, and so does its
      style. */
  lemma NewCaptionValid(id: string, mediaClipId: string, text: string,
                        startTime: real, endTime: real, language: string)
    requires text != [] && Utf8Len(text) <= MaxTextBytes
    requires 0.0 <= startTime < endTime
    ensures Validate(NewCaption(id, mediaClipId, text, startTime, endTime, language)).Ok?
    ensures ValidateStyle(NewCaption(id, mediaClipId, text, startTime, endTime, language).styling.value).Ok?
  {
    DefaultStyleValid();
  }

  predicate IsHexDigit(ch: char) {
    ('0' <= ch <= '9') || ('a' <= ch <= 'f') || ('A' <= ch <= 'F')
  }

  /** The whole string matches `^#[0-9A-Fa-f]{6}$`. */
  predicate IsHexColor(s: string) {
    |s| == 7 && s[0] == '#' && forall i :: 1 <= i < 7 ==> IsHexDigit(s[i])
  }

  const EmptyFontError := "Font cannot be empty"
  const FontSizeError := "Font size must be between 12 and 72"
  const ColorError := "Color must be in hex format (#RRGGBB)"

  /** `CaptionStyle::validate`: font named, size within 12..=72 points, colour
      in `#RRGGBB` form; the background colour is not checked. */
  function ValidateStyle(s: CaptionStyle): (r: Result<Unit>)
    ensures r.Ok? <==> (s.font != [] && 12 <= s.size <= 72 && IsHexColor(s.color))
    ensures s.font == [] ==> r == Err(EmptyFontError)
    ensures r.Err? ==> r.error in {EmptyFontError, FontSizeError, ColorError}
  {
    if s.font == [] then Err(EmptyFontError)
    else if !(12 <= s.size <= 72) then Err(FontSizeError)
    else if !IsHexColor(s.color) then Err(ColorError)
    else Ok(Unit)
  }

  /** The default style passes its own validation. */
  lemma DefaultStyleValid()
    ensures ValidateStyle(DefaultStyle()).Ok?
  {
    var c := DefaultStyle().color;
    assert forall i :: 1 <= i < 7 ==> c[i] == 'F';
  }
}
