/** The rule that decides whether an imported file gets a browser-playable
    proxy (`needs_proxy` in ffmpeg/proxy.rs). Generating the proxy runs
    FFmpeg and is not modelled. */
module Proxy {
  import opened Text

  /** Codecs the preview plays natively. */
  const WebCompatible: seq<string> := ["h264", "vp8", "vp9", "av1"]

  /** `patterns.iter().any(|p| s.contains(p))`. */
  function AnyContained(s: string, patterns: seq<string>): bool {
    if patterns == [] then false
    else Contains(s, patterns[0]) || AnyContained(s, patterns[1..])
  }

  /** `any` holds exactly when some pattern occurs in the text. */
  lemma {:induction false} AnyContainedIff(s: string, patterns: seq<string>)
    ensures AnyContained(s, patterns) <==> exists k :: 0 <= k < |patterns| && Contains(s, patterns[k])
  {
    if patterns != [] {
      AnyContainedIff(s, patterns[1..]);
      if Contains(s, patterns[0]) {
        assert 0 < |patterns|;
      }
      forall k | 1 <= k < |patterns|
        ensures patterns[k] == patterns[1..][k - 1]
      {
      }
    }
  }

  /** `needs_proxy`: a codec needs a proxy unless its lower-cased name
      contains the name of a web codec. */
  function NeedsProxy(codec: string): (r: bool)
    ensures !r <==> exists k :: 0 <= k < |WebCompatible| && Contains(ToLower(codec), WebCompatible[k])
  {
    AnyContainedIff(ToLower(codec), WebCompatible);
    !AnyContained(ToLower(codec), WebCompatible)
  }

  /** The rule stated outright: no proxy exactly when one of the four web
      codec names occurs in the lower-cased name. */
  lemma NeedsProxyIff(codec: string)
    ensures !NeedsProxy(codec) <==>
              Contains(ToLower(codec), "h264") || Contains(ToLower(codec), "vp8")
              || Contains(ToLower(codec), "vp9") || Contains(ToLower(codec), "av1")
  {
    AnyContainedIff(ToLower(codec), WebCompatible);
    assert WebCompatible[0] == "h264" && WebCompatible[1] == "vp8";
    assert WebCompatible[2] == "vp9" && WebCompatible[3] == "av1";
  }

  lemma LowerTwice(s: string)
    ensures ToLower(ToLower(s)) == ToLower(s)
  {
  }

  /** Case does not matter: a name and its lower-case form get the same
      answer. */
  lemma NeedsProxyIgnoresCase(codec: string)
    ensures NeedsProxy(ToLower(codec)) == NeedsProxy(codec)
  {
    LowerTwice(codec);
  }

  lemma LowerAppend(a: string, b: string)
    ensures ToLower(a + b) == ToLower(a) + ToLower(b)
  {
  }

  /** The match is by substring: any name that holds a web codec's name,
      in any case, needs no proxy. */
  lemma NoProxyAround(pre: string, k: nat, post: string)
    requires k < |WebCompatible|
    ensures !NeedsProxy(pre + WebCompatible[k] + post)
  {
    var w := WebCompatible[k];
    assert ToLower(w) == w;
    LowerAppend(pre + w, post);
    LowerAppend(pre, w);
    var s := ToLower(pre) + w + ToLower(post);
    assert s[|pre|..|pre| + |w|] == w;
    assert MatchesAt(s, w, |pre|);
    AnyContainedIff(s, WebCompatible);
  }

  /** A text that lacks one of a pattern's characters does not contain it. */
  lemma MissingChar(s: string, sub: string, c: char)
    requires c in sub && c !in s
    ensures !Contains(s, sub)
  {
  }

  /** Each web codec's name holds one of the digits 1, 2, 8 and 9, so a
      name with none of them always needs a proxy. */
  lemma NeedsProxyWithoutDigits(codec: string)
    requires '1' !in codec && '2' !in codec && '8' !in codec && '9' !in codec
    ensures NeedsProxy(codec)
  {
    var s := ToLower(codec);
    assert '1' !in s && '2' !in s && '8' !in s && '9' !in s by {
      forall i | 0 <= i < |s|
        ensures s[i] != '1' && s[i] != '2' && s[i] != '8' && s[i] != '9'
      {
        assert s[i] == LowerChar(codec[i]);
      }
    }
    MissingChar(s, "h264", '2');
    MissingChar(s, "vp8", '8');
    MissingChar(s, "vp9", '9');
    MissingChar(s, "av1", '1');
    NeedsProxyIff(codec);
  }

  /** The unit test's web codecs need no proxy, upper-case H264 included. */
  lemma WebCodecExamples(codec: string)
    requires codec in ["h264", "H264", "vp8", "vp9", "av1"]
    ensures !NeedsProxy(codec)
  {
    if codec == "H264" {
      assert ToLower(codec) == "h264";
      NeedsProxyIgnoresCase(codec);
      NoProxyAround("", 0, "");
    } else {
      var k := if codec == "h264" then 0 else if codec == "vp8" then 1 else if codec == "vp9" then 2 else 3;
      assert WebCompatible[k] == codec;
      NoProxyAround("", k, "");
      assert "" + codec + "" == codec;
    }
  }

  /** HEVC, ProRes, MPEG-4, Motion JPEG and DNxHD, as the unit test
      expects, need a proxy. */
  lemma OtherCodecExamples(codec: string)
    requires codec in ["hevc", "prores", "mpeg4", "mjpeg", "dnxhd"]
    ensures NeedsProxy(codec)
  {
    NeedsProxyWithoutDigits(codec);
  }
}
