/** The pieces of Rust's `str` API that the modelled code relies on, over
    `string` = `seq<char>` (each `char` a Unicode scalar value, as in Rust):
    searching (`find`, `contains`), `split`, `join`, `lines`, `trim`,
    `split_whitespace`, `to_string` of integers and the `parse` of integers
    and decimals. */
module Text {
  import opened Wrappers

  // ---------------------------------------------------------------------------
  // Characters
  // ---------------------------------------------------------------------------

  predicate IsDigit(c: char) { '0' <= c <= '9' }

  predicate AllDigits(s: string) { forall i :: 0 <= i < |s| ==> IsDigit(s[i]) }

  /** `char::is_whitespace`: the Unicode White_Space property. It is also what
      `\s` matches in the `regex` crate. */
  predicate IsWhitespace(c: char) {
    c == ' ' || ('\t' <= c <= '\r') || c == '\U{0085}' || c == '\U{00A0}' || c == '\U{1680}'
    || ('\U{2000}' <= c <= '\U{200A}') || c == '\U{2028}' || c == '\U{2029}'
    || c == '\U{202F}' || c == '\U{205F}' || c == '\U{3000}'
  }

  function DigitValue(c: char): nat
    requires IsDigit(c)
  {
    c as int - '0' as int
  }

  function DigitChar(d: nat): (c: char)
    requires d < 10
    ensures IsDigit(c) && DigitValue(c) == d
  {
    ('0' as int + d) as char
  }

  /** Number of bytes of the UTF-8 encoding of `s`, which is what Rust's
      `String::len` counts. */
  function Utf8Len(s: string): nat {
    if s == [] then 0
    else
      var c := s[0] as int;
      (if c < 0x80 then 1 else if c < 0x800 then 2 else if c < 0x10000 then 3 else 4) + Utf8Len(s[1..])
  }

  // ---------------------------------------------------------------------------
  // Integers: to_string and parse
  // ---------------------------------------------------------------------------

  function Pow10(k: nat): (p: nat)
    ensures p >= 1
  {
    if k == 0 then 1 else 10 * Pow10(k - 1)
  }

  /** The value of a run of decimal digits, most significant digit first. */
  function DigitsValue(s: string): nat
    requires AllDigits(s)
  {
    if s == [] then 0 else DigitsValue(s[..|s| - 1]) * 10 + DigitValue(s[|s| - 1])
  }

  /** `n.to_string()` for an unsigned integer: the shortest decimal numeral,
      which reads back as `n`. */
  function NatToString(n: nat): (s: string)
    ensures |s| > 0 && AllDigits(s) && DigitsValue(s) == n
    ensures |s| == 1 || s[0] != '0'
  {
    if n < 10 then [DigitChar(n)]
    else
      var s := NatToString(n / 10) + [DigitChar(n % 10)];
      assert s[..|s| - 1] == NatToString(n / 10);
      s
  }

  /** `i.to_string()` for a signed integer. */
  function IntToString(i: int): string {
    if i < 0 then "-" + NatToString(-i) else NatToString(i)
  }

  const U64_MAX: nat := 18446744073709551615

  /** `str::parse::<u64>`: an optional `+`, then one or more ASCII digits,
      and a value that fits in 64 bits. */
  function ParseU64(s: string): (r: Option<nat>)
    ensures r.Some? ==> r.value <= U64_MAX
  {
    var digits := if |s| > 0 && s[0] == '+' then s[1..] else s;
    if |digits| > 0 && AllDigits(digits) && DigitsValue(digits) <= U64_MAX then Some(DigitsValue(digits))
    else None
  }

  /** Every `u64` printed by `to_string` parses back to itself. */
  lemma ParseU64OfNatToString(n: nat)
    requires n <= U64_MAX
    ensures ParseU64(NatToString(n)) == Some(n)
  {
    var s := NatToString(n);
    assert IsDigit(s[0]);
  }

  /** `str::parse::<f64>` restricted to plain decimals: an optional sign, digits
      with at most one `.`, and at least one digit (`"1."` and `".5"` parse,
      `"."` does not). */
  function ParseDecimal(s: string): (r: Option<real>)
    ensures r.Some? && (|s| == 0 || s[0] != '-') ==> r.value >= 0.0
  {
    var neg := |s| > 0 && s[0] == '-';
    var body := if |s| > 0 && (s[0] == '+' || s[0] == '-') then s[1..] else s;
    match ParseUnsignedDecimal(body)
    case None => None
    case Some(v) => Some(Signed(neg, v))
  }

  /** The unsigned part of `ParseDecimal`. */
  function ParseUnsignedDecimal(body: string): (r: Option<real>)
    ensures r.Some? ==> r.value >= 0.0
  {
    match IndexOf(body, ".")
    case None =>
      if |body| > 0 && AllDigits(body) then Some(DigitsValue(body) as real) else None
    case Some(p) =>
      var whole := body[..p];
      var frac := body[p + 1..];
      if |whole| + |frac| > 0 && AllDigits(whole) && AllDigits(frac)
      then Some(DecimalValue(whole, frac))
      else None
  }

  /** The value of the digits `w`, a point and the digits `f`. */
  function DecimalValue(w: string, f: string): real
    requires AllDigits(w) && AllDigits(f)
  {
    DigitsValue(w) as real + DigitsValue(f) as real / Pow10(|f|) as real
  }

  function Signed(neg: bool, x: real): real { if neg then -x else x }

  /** An integer printed by `to_string` reads back as the same number. */
  lemma ParseDecimalOfNatToString(n: nat)
    ensures ParseDecimal(NatToString(n)) == Some(n as real)
  {
    var s := NatToString(n);
    assert IsDigit(s[0]);
  }

  /** Digits, a point and digits, with an optional minus sign, read as the
      value they spell. */
  lemma ParseDecimalOfParts(neg: bool, w: string, f: string)
    requires |w| > 0 && AllDigits(w) && AllDigits(f)
    ensures ParseDecimal((if neg then "-" else "") + w + "." + f)
            == Some(Signed(neg, DecimalValue(w, f)))
  {
    var body := w + "." + f;
    var s := (if neg then "-" else "") + w + "." + f;
    UnsignedOfParts(w, f);
    assert IsDigit(w[0]);
    if neg {
      assert s == "-" + body && s[1..] == body;
    } else {
      assert s == body && s[0] == w[0];
    }
  }

  lemma UnsignedOfParts(w: string, f: string)
    requires |w| > 0 && AllDigits(w) && AllDigits(f)
    ensures ParseUnsignedDecimal(w + "." + f) == Some(DecimalValue(w, f))
  {
    var body := w + "." + f;
    SlicesAroundPoint(w, f);
    assert IndexOf(body, ".") == Some(|w|) by {
      PointAfterDigits(w, f);
    }
    UnsignedAt(body, |w|);
  }

  lemma SlicesAroundPoint(w: string, f: string)
    ensures (w + "." + f)[..|w|] == w && (w + "." + f)[|w| + 1..] == f
  {
  }

  lemma UnsignedAt(body: string, p: nat)
    requires IndexOf(body, ".") == Some(p) && p > 0
    requires AllDigits(body[..p]) && AllDigits(body[p + 1..])
    ensures ParseUnsignedDecimal(body)
            == Some(DecimalValue(body[..p], body[p + 1..]))
  {
  }

  /** The point after a run of digits is the first point. */
  lemma PointAfterDigits(w: string, f: string)
    requires AllDigits(w)
    ensures IndexOf(w + "." + f, ".") == Some(|w|)
  {
    var body := w + "." + f;
    assert MatchesAt(body, ".", |w|);
    forall j | 0 <= j < |w| ensures !MatchesAt(body, ".", j) {
      assert body[j..j + 1] == [w[j]];
      assert IsDigit(w[j]);
    }
    IndexFromFirst(body, ".", 0, |w|);
  }

  /** Two digits spell ten times the first plus the second. */
  lemma TwoDigits(a: char, b: char)
    requires IsDigit(a) && IsDigit(b)
    ensures AllDigits([a, b]) && DigitsValue([a, b]) == 10 * DigitValue(a) + DigitValue(b)
  {
    assert [a][..0] == [];
    assert DigitsValue([a]) == DigitValue(a);
    assert [a, b][..1] == [a];
  }

  /** Three digits spell a hundred times the first plus the other two. */
  lemma ThreeDigits(a: char, b: char, c: char)
    requires IsDigit(a) && IsDigit(b) && IsDigit(c)
    ensures AllDigits([a, b, c])
    ensures DigitsValue([a, b, c]) == 100 * DigitValue(a) + 10 * DigitValue(b) + DigitValue(c)
  {
    TwoDigits(a, b);
    assert [a, b, c][..2] == [a, b];
  }

  /** One more digit on the right: ten times the value, plus the digit. */
  lemma DigitsSnoc(s: string, c: char)
    requires AllDigits(s) && IsDigit(c)
    ensures AllDigits(s + [c]) && DigitsValue(s + [c]) == 10 * DigitsValue(s) + DigitValue(c)
  {
    assert (s + [c])[..|s|] == s;
  }

  /** A run of digits reads as the number it spells. */
  lemma ParseDecimalOfDigits(s: string)
    requires |s| > 0 && AllDigits(s)
    ensures ParseDecimal(s) == Some(DigitsValue(s) as real)
  {
    ContainsChar(s, '.');
    assert '.' !in s by {
      forall i | 0 <= i < |s| ensures s[i] != '.' {
        assert IsDigit(s[i]);
      }
    }
    assert IsDigit(s[0]);
  }

  /** A number below 10^k has at most k digits. */
  lemma {:induction false} NatToStringLength(n: nat, k: nat)
    requires k >= 1 && n < Pow10(k)
    ensures |NatToString(n)| <= k
  {
    if n >= 10 {
      assert Pow10(k) == 10 * Pow10(k - 1);
      assert n / 10 < Pow10(k - 1);
      NatToStringLength(n / 10, k - 1);
    }
  }

  // ---------------------------------------------------------------------------
  // Searching
  // ---------------------------------------------------------------------------

  predicate MatchesAt(s: string, sub: string, i: nat) {
    i + |sub| <= |s| && s[i..i + |sub|] == sub
  }

  /** The first occurrence of `sub` at or after position `from`. */
  function IndexFrom(s: string, sub: string, from: nat): (r: Option<nat>)
    ensures r.Some? ==> from <= r.value && MatchesAt(s, sub, r.value)
    ensures r.Some? ==> forall j :: from <= j < r.value ==> !MatchesAt(s, sub, j)
    ensures r.None? ==> forall j :: from <= j ==> !MatchesAt(s, sub, j)
    decreases |s| - from
  {
    if from + |sub| > |s| then None
    else if s[from..from + |sub|] == sub then Some(from)
    else IndexFrom(s, sub, from + 1)
  }

  /** `str::find`: the first occurrence of `sub` in `s`. */
  function IndexOf(s: string, sub: string): (r: Option<nat>)
    ensures r.Some? ==> MatchesAt(s, sub, r.value)
    ensures r.Some? ==> forall j :: 0 <= j < r.value ==> !MatchesAt(s, sub, j)
    ensures r.None? ==> forall j :: 0 <= j ==> !MatchesAt(s, sub, j)
  {
    IndexFrom(s, sub, 0)
  }

  /** `str::contains` with a string pattern. */
  predicate Contains(s: string, sub: string) {
    IndexOf(s, sub).Some?
  }

  /** A one-character pattern occurs exactly where the character does. */
  lemma ContainsChar(s: string, c: char)
    ensures Contains(s, [c]) <==> c in s
  {
    if c in s {
      var i :| 0 <= i < |s| && s[i] == c;
      assert MatchesAt(s, [c], i);
    }
    if Contains(s, [c]) {
      var i := IndexOf(s, [c]).value;
      assert s[i..i + 1] == [c];
      assert s[i] == c;
    }
  }

  /** Regrouping a concatenation of three sequences. */
  lemma AppendAssoc<T>(a: seq<T>, b: seq<T>, c: seq<T>)
    ensures a + b + c == a + (b + c)
  {
  }

  // ---------------------------------------------------------------------------
  // split and join
  // ---------------------------------------------------------------------------

  /** `str::split` with a non-empty pattern: the pieces between the
      non-overlapping occurrences of `sep`, found left to right. */
  function Split(s: string, sep: string): (parts: seq<string>)
    requires |sep| > 0
    ensures |parts| >= 1
    decreases |s|
  {
    match IndexOf(s, sep)
    case None => [s]
    case Some(i) => [s[..i]] + Split(s[i + |sep|..], sep)
  }

  /** `[&str]::join`. */
  function Join(parts: seq<string>, sep: string): string {
    if |parts| == 0 then ""
    else if |parts| == 1 then parts[0]
    else parts[0] + sep + Join(parts[1..], sep)
  }

  /** Splitting loses nothing: joining the pieces with the separator gives
      back the original text. */
  lemma {:induction false} JoinSplit(s: string, sep: string)
    requires |sep| > 0
    ensures Join(Split(s, sep), sep) == s
    decreases |s|
  {
    match IndexOf(s, sep)
    case None =>
    case Some(i) =>
      var pre, rest := s[..i], s[i + |sep|..];
      var parts := Split(s, sep);
      assert parts == [pre] + Split(rest, sep);
      assert |parts| >= 2 && parts[0] == pre && parts[1..] == Split(rest, sep);
      JoinSplit(rest, sep);
      assert s[i..i + |sep|] == sep;
      assert s == pre + sep + rest;
  }

  /** Splitting on one character gives one piece more than there are
      occurrences of that character. */
  lemma {:induction false} SplitCharCount(s: string, c: char)
    ensures |Split(s, [c])| == multiset(s)[c] + 1
    decreases |s|
  {
    match IndexOf(s, [c])
    case None =>
      ContainsChar(s, c);
      assert c !in multiset(s);
    case Some(i) =>
      var rest := s[i + 1..];
      SplitCharCount(rest, c);
      assert s[i..i + 1] == [c];
      assert s == s[..i] + [c] + rest;
      assert c !in s[..i] by {
        forall j | 0 <= j < i ensures s[..i][j] != c {
          assert !MatchesAt(s, [c], j);
          assert s[j..j + 1] == [s[j]];
        }
      }
      assert multiset(s) == multiset(s[..i]) + multiset{c} + multiset(rest);
  }

  /** No piece of a split contains the separator. */
  lemma {:induction false} SplitPiecesAvoidSep(s: string, sep: string)
    requires |sep| > 0
    ensures forall k :: 0 <= k < |Split(s, sep)| ==> !Contains(Split(s, sep)[k], sep)
    decreases |s|
  {
    match IndexOf(s, sep)
    case None =>
    case Some(i) =>
      var rest := s[i + |sep|..];
      SplitPiecesAvoidSep(rest, sep);
      var head := s[..i];
      if Contains(head, sep) {
        var j := IndexOf(head, sep).value;
        assert head[j..j + |sep|] == s[j..j + |sep|];
        assert MatchesAt(s, sep, j);
      }
      assert Split(s, sep) == [head] + Split(rest, sep);
  }

  /** Splitting on a character that `a` does not hold: `a` alone is one piece,
      and `a` followed by the separator is the first piece of the rest. */
  lemma SplitCharFirst(a: string, c: char, b: string)
    requires c !in a
    ensures Split(a, [c]) == [a]
    ensures Split(a + [c] + b, [c]) == [a] + Split(b, [c])
  {
    ContainsChar(a, c);
    var s := a + [c] + b;
    assert MatchesAt(s, [c], |a|);
    forall j | 0 <= j < |a| ensures !MatchesAt(s, [c], j) {
      assert s[j..j + 1] == [a[j]];
      assert a[j] in a;
    }
    IndexFromFirst(s, [c], 0, |a|);
    assert s[..|a|] == a;
    assert s[|a| + 1..] == b;
  }

  /** Splitting on a separator whose first character `a` does not hold:
      `a` alone is one piece, and `a` followed by the separator is the
      first piece of the rest. */
  lemma SplitAtFirst(a: string, sep: string, b: string)
    requires |sep| > 0 && sep[0] !in a
    ensures Split(a, sep) == [a]
    ensures Split(a + sep + b, sep) == [a] + Split(b, sep)
  {
    forall j | 0 <= j ensures !MatchesAt(a, sep, j) {
      assert j + |sep| <= |a| ==> a[j..j + |sep|][0] == a[j] && a[j] in a;
    }
    var s := a + sep + b;
    assert s[|a|..|a| + |sep|] == sep;
    forall j | 0 <= j < |a| ensures !MatchesAt(s, sep, j) {
      assert s[j..j + |sep|][0] == s[j] == a[j] && a[j] in a;
    }
    IndexFromFirst(s, sep, 0, |a|);
    assert s[..|a|] == a;
    assert s[|a| + |sep|..] == b;
  }

  /** Two pieces around one separator. */
  lemma SplitTwo(a: string, sep: string, b: string)
    requires |sep| > 0 && sep[0] !in a && sep[0] !in b
    ensures Split(a + sep + b, sep) == [a, b]
  {
    SplitAtFirst(a, sep, b);
    SplitAtFirst(b, sep, "");
  }

  /** Three pieces around two one-character separators. */
  lemma SplitThree(a: string, b: string, c: string, sep: char)
    requires sep !in a && sep !in b && sep !in c
    ensures Split(a + [sep] + b + [sep] + c, [sep]) == [a, b, c]
  {
    SplitTwo(b, [sep], c);
    SplitAtFirst(a, [sep], b + [sep] + c);
    AppendAssoc(a + [sep], b + [sep], c);
    AppendAssoc(a + [sep], b, [sep]);
  }

  /** UTF-8 takes one to four bytes per character. */
  lemma {:induction false} Utf8LenBounds(s: string)
    ensures |s| <= Utf8Len(s) <= 4 * |s|
  {
    if s != [] {
      Utf8LenBounds(s[1..]);
    }
  }

  // ---------------------------------------------------------------------------
  // lines
  // ---------------------------------------------------------------------------

  /** Drops one `\r` at the end, the rest of a `\r\n` line ending. */
  function StripCr(l: string): string {
    if |l| > 0 && l[|l| - 1] == '\r' then l[..|l| - 1] else l
  }

  /** `str::lines`: pieces ended by `\n` or `\r\n`; the last line ending is
      optional, so a text that ends in `\n` has no empty last line, and a bare
      `\r` not followed by `\n` stays in the line. */
  function Lines(s: string): seq<string>
    decreases |s|
  {
    if s == [] then []
    else
      match IndexOf(s, "\n")
      case None => [s]
      case Some(i) => [StripCr(s[..i])] + Lines(s[i + 1..])
  }

  /** The text of `ls` with a `\n` after every line. */
  function Terminated(ls: seq<string>): string {
    if ls == [] then "" else ls[0] + "\n" + Terminated(ls[1..])
  }

  /** Writing two runs of lines one after the other. */
  lemma {:induction false} TerminatedAppend(a: seq<string>, b: seq<string>)
    ensures Terminated(a + b) == Terminated(a) + Terminated(b)
  {
    if a == [] {
      assert a + b == b;
    } else {
      assert (a + b)[1..] == a[1..] + b;
      TerminatedAppend(a[1..], b);
    }
  }

  /** A line that `Lines` gives back unchanged: it holds no `\n` and does not
      end in `\r`. */
  predicate PlainLine(l: string) {
    '\n' !in l && (|l| == 0 || l[|l| - 1] != '\r')
  }

  /** Writing each line followed by `\n` and reading the text back with
      `lines()` recovers the lines. */
  lemma {:induction false} LinesOfTerminated(ls: seq<string>)
    requires forall k :: 0 <= k < |ls| ==> PlainLine(ls[k])
    ensures Lines(Terminated(ls)) == ls
  {
    if ls != [] {
      var l := ls[0];
      var s := Terminated(ls);
      var rest := Terminated(ls[1..]);
      assert s == l + "\n" + rest;
      assert MatchesAt(s, "\n", |l|);
      assert IndexOf(s, "\n") == Some(|l|) by {
        forall j | 0 <= j < |l| ensures !MatchesAt(s, "\n", j) {
          assert s[j..j + 1] == [l[j]];
          assert l[j] in l;
        }
        IndexFromFirst(s, "\n", 0, |l|);
      }
      var i := |l|;
      assert s[..i] == l;
      assert s[i + 1..] == rest;
      LinesOfTerminated(ls[1..]);
    }
  }

  /** Lines of a concatenation split at a line ending are the lines of each part. */
  lemma {:induction false} LinesAppend(a: string, b: string)
    requires |a| > 0 && a[|a| - 1] == '\n'
    ensures Lines(a + b) == Lines(a) + Lines(b)
    decreases |a|
  {
    var s := a + b;
    assert MatchesAt(a, "\n", |a| - 1);
    var i := IndexOf(a, "\n").value;
    assert a[i..i + 1] == s[i..i + 1];
    assert IndexOf(s, "\n") == Some(i) by {
      forall j | 0 <= j < i ensures !MatchesAt(s, "\n", j) {
        assert !MatchesAt(a, "\n", j);
        assert a[j..j + 1] == s[j..j + 1];
      }
      assert MatchesAt(s, "\n", i);
      assert IndexFrom(s, "\n", 0) == Some(i) by { IndexFromFirst(s, "\n", 0, i); }
    }
    assert s[..i] == a[..i];
    if i + 1 == |a| {
      assert a[i + 1..] == [];
      assert s[i + 1..] == b;
    } else {
      assert s[i + 1..] == a[i + 1..] + b;
      LinesAppend(a[i + 1..], b);
    }
  }

  /** The first match found from `from` is the unique earliest one. */
  lemma {:induction false} IndexFromFirst(s: string, sub: string, from: nat, i: nat)
    requires from <= i && MatchesAt(s, sub, i)
    requires forall j :: from <= j < i ==> !MatchesAt(s, sub, j)
    ensures IndexFrom(s, sub, from) == Some(i)
    decreases i - from
  {
    if from < i {
      assert !MatchesAt(s, sub, from);
      IndexFromFirst(s, sub, from + 1, i);
    }
  }

  // ---------------------------------------------------------------------------
  // trim and split_whitespace
  // ---------------------------------------------------------------------------

  /** Length of the leading run of whitespace. */
  function LeadingWs(s: string): (k: nat)
    ensures k <= |s|
    ensures forall i :: 0 <= i < k ==> IsWhitespace(s[i])
    ensures k < |s| ==> !IsWhitespace(s[k])
  {
    if s != [] && IsWhitespace(s[0]) then 1 + LeadingWs(s[1..]) else 0
  }

  /** Length of the trailing run of whitespace. */
  function TrailingWs(s: string): (k: nat)
    ensures k <= |s|
    ensures forall i :: |s| - k <= i < |s| ==> IsWhitespace(s[i])
    ensures k < |s| ==> !IsWhitespace(s[|s| - 1 - k])
  {
    if s != [] && IsWhitespace(s[|s| - 1]) then 1 + TrailingWs(s[..|s| - 1]) else 0
  }

  /** `str::trim`: drops leading and trailing whitespace. The result is the
      stretch of `s` that starts after the leading whitespace (`LeadingWs`
      characters), and everything after it is whitespace too. */
  function Trim(s: string): (r: string)
    ensures r == [] || (!IsWhitespace(r[0]) && !IsWhitespace(r[|r| - 1]))
    ensures LeadingWs(s) + |r| <= |s| && r == s[LeadingWs(s)..LeadingWs(s) + |r|]
    ensures forall i :: 0 <= i < LeadingWs(s) ==> IsWhitespace(s[i])
    ensures forall i :: LeadingWs(s) + |r| <= i < |s| ==> IsWhitespace(s[i])
  {
    var k := LeadingWs(s);
    var t := s[k..];
    var r := t[..|t| - TrailingWs(t)];
    assert t == [] || t[0] == s[k];
    TrimEnds(t, r);
    TrimTail(s, k, t, r);
    r
  }

  /** Cutting the trailing whitespace off a text that starts with a
      non-whitespace character leaves non-whitespace at both ends. */
  lemma TrimEnds(t: string, r: string)
    requires t == [] || !IsWhitespace(t[0])
    requires r == t[..|t| - TrailingWs(t)]
    ensures r == [] || (!IsWhitespace(r[0]) && !IsWhitespace(r[|r| - 1]))
  {
    if |r| > 0 {
      assert r[0] == t[0];
      assert r[|r| - 1] == t[|t| - 1 - TrailingWs(t)];
    }
  }

  /** The kept stretch is a slice of `s`, and only whitespace follows it. */
  lemma TrimTail(s: string, k: nat, t: string, r: string)
    requires k <= |s| && t == s[k..]
    requires r == t[..|t| - TrailingWs(t)]
    ensures k + |r| <= |s| && r == s[k..k + |r|]
    ensures forall i :: k + |r| <= i < |s| ==> IsWhitespace(s[i])
  {
    assert forall i :: k + |r| <= i < |s| ==> s[i] == t[i - k];
  }

  /** Trimming twice is trimming once. */
  lemma TrimIdempotent(s: string)
    ensures Trim(Trim(s)) == Trim(s)
  {
    var r := Trim(s);
    assert LeadingWs(r) == 0;
    assert TrailingWs(r[LeadingWs(r)..]) == 0;
  }

  /** Index of the first whitespace character of `s`, or `|s|`. */
  function WordEnd(s: string): (k: nat)
    ensures k <= |s|
    ensures forall i :: 0 <= i < k ==> !IsWhitespace(s[i])
    ensures k < |s| ==> IsWhitespace(s[k])
  {
    if s != [] && !IsWhitespace(s[0]) then 1 + WordEnd(s[1..]) else 0
  }

  /** A word: non-empty and free of whitespace. */
  predicate IsWord(w: string) {
    |w| > 0 && forall i :: 0 <= i < |w| ==> !IsWhitespace(w[i])
  }

  /** `str::split_whitespace`: the maximal runs of non-whitespace characters. */
  function Words(s: string): (ws: seq<string>)
    ensures forall k :: 0 <= k < |ws| ==> IsWord(ws[k])
    decreases |s|
  {
    var t := s[LeadingWs(s)..];
    if t == [] then []
    else
      var k := WordEnd(t);
      [t[..k]] + Words(t[k..])
  }

  /** A word followed by whitespace (or by nothing) is the first word. */
  lemma WordsConsWord(w: string, rest: string)
    requires IsWord(w)
    requires rest == [] || IsWhitespace(rest[0])
    ensures Words(w + rest) == [w] + Words(rest)
  {
    var s := w + rest;
    assert LeadingWs(s) == 0;
    assert s[LeadingWs(s)..] == s;
    WordEndOfWord(w, rest);
    assert s[..|w|] == w;
    assert s[|w|..] == rest;
  }

  /** A leading space does not change the words. */
  lemma WordsLeadingSpace(rest: string)
    ensures Words(" " + rest) == Words(rest)
  {
    var s := " " + rest;
    assert s[1..] == rest;
    assert LeadingWs(s) == 1 + LeadingWs(rest);
    assert s[LeadingWs(s)..] == rest[LeadingWs(rest)..];
  }

  /** Words joined by single spaces split back into the same words. */
  lemma {:induction false} WordsOfJoin(ws: seq<string>)
    requires forall k :: 0 <= k < |ws| ==> IsWord(ws[k])
    ensures Words(Join(ws, " ")) == ws
  {
    if ws == [] {
      assert Join(ws, " ") == [];
    } else if |ws| == 1 {
      WordsConsWord(ws[0], []);
      assert ws[0] + [] == ws[0];
      assert Words([]) == [];
    } else {
      var rest := Join(ws[1..], " ");
      assert Join(ws, " ") == ws[0] + (" " + rest);
      WordsConsWord(ws[0], " " + rest);
      WordsLeadingSpace(rest);
      WordsOfJoin(ws[1..]);
    }
  }

  lemma {:induction false} WordEndOfWord(w: string, rest: string)
    requires IsWord(w)
    requires rest == [] || IsWhitespace(rest[0])
    ensures WordEnd(w + rest) == |w|
    decreases |w|
  {
    if |w| > 1 {
      assert (w + rest)[1..] == w[1..] + rest;
      WordEndOfWord(w[1..], rest);
    } else {
      assert (w + rest)[1..] == rest;
    }
  }

  // ---------------------------------------------------------------------------
  // Case
  // ---------------------------------------------------------------------------

  function LowerChar(c: char): char {
    if 'A' <= c <= 'Z' then (c as int + 32) as char else c
  }

  /** `str::to_lowercase`, on ASCII letters. */
  function ToLower(s: string): (r: string)
    ensures |r| == |s|
    ensures forall i :: 0 <= i < |s| ==> r[i] == LowerChar(s[i])
  {
    seq(|s|, i requires 0 <= i < |s| => LowerChar(s[i]))
  }
}
