/** What the macOS and Windows recording back ends share
    (platform/macos.rs, platform/windows.rs): the permission request, which
    both write identically, and the device and permission records of
    models/recording.rs they return. */
module Platform {
  import opened Wrappers
  import opened Text
  import opened CommandLine

  /** `RecordingSource`: a capture device as the user picks it. */
  datatype RecordingSource = RecordingSource(id: string, name: string)

  /** `PermissionStatus`: which capture rights were granted. */
  datatype PermissionStatus = PermissionStatus(screen: bool, camera: bool, microphone: bool)

  predicate KnownPermission(name: string) {
    name == "screen" || name == "camera" || name == "microphone"
  }

  function UnknownPermissionError(name: string): string {
    "Unknown permission: " + name
  }

  /** `request_permissions`: grants every right named, in order, and fails
      at the first name it does not know; rights not named stay false. The
      outcome is stated against the whole request: Ok with exactly the named
      rights when every name is known, and otherwise the error for the first
      unknown name. */
  method RequestPermissions(permissions: seq<string>) returns (r: Result<PermissionStatus>)
    ensures (forall k :: 0 <= k < |permissions| ==> KnownPermission(permissions[k])) ==>
              r == Ok(PermissionStatus("screen" in permissions, "camera" in permissions,
                                       "microphone" in permissions))
    ensures r.Err? ==>
              exists u :: 0 <= u < |permissions| && !KnownPermission(permissions[u])
                          && (forall k :: 0 <= k < u ==> KnownPermission(permissions[k]))
                          && r.error == UnknownPermissionError(permissions[u])
    ensures (exists k :: 0 <= k < |permissions| && !KnownPermission(permissions[k])) ==> r.Err?
  {
    var status := PermissionStatus(false, false, false);
    var i := 0;
    while i < |permissions|
      invariant 0 <= i <= |permissions|
      invariant forall k :: 0 <= k < i ==> KnownPermission(permissions[k])
      invariant status == PermissionStatus("screen" in permissions[..i], "camera" in permissions[..i],
                                           "microphone" in permissions[..i])
    {
      assert permissions[..i + 1] == permissions[..i] + [permissions[i]];
      var permission := permissions[i];
      if permission == "screen" {
        status := status.(screen := true);
      } else if permission == "camera" {
        status := status.(camera := true);
      } else if permission == "microphone" {
        status := status.(microphone := true);
      } else {
        return Err(UnknownPermissionError(permission));
      }
      i := i + 1;
    }
    assert permissions[..i] == permissions;
    return Ok(status);
  }

  // ---------------------------------------------------------------------------
  // The recording command line
  // ---------------------------------------------------------------------------

  /** Both back ends start with `-y` (overwrite), add their inputs and
      settings as `flag value` pairs, and end with the output path. */
  function RecordingArgs(ps: seq<(string, string)>, outputPath: string): seq<string> {
    ["-y"] + Flatten(ps) + [outputPath]
  }

  /** The video encoder settings both back ends use: web-compatible H.264. */
  const VideoCodecPairs: seq<(string, string)> :=
    [("-c:v", "libx264"), ("-preset", "ultrafast"), ("-crf", "23"), ("-pix_fmt", "yuv420p")]

  /** MP4 layout for progressive playback, the last pair of both lists. */
  const FastStart: (string, string) := ("-movflags", "+faststart")

  /** The list opens with `-y` and closes with the output path, and between
      them each flag's values are those of the pairs. */
  lemma RecordingArgsShape(ps: seq<(string, string)>, outputPath: string, flag: string, v: string)
    ensures var args := RecordingArgs(ps, outputPath);
            && |args| == 2 * |ps| + 2 && args[0] == "-y" && args[|args| - 1] == outputPath
            && Values(args[1..|args| - 1], flag) == PairValues(ps, flag)
            && (v in Values(args[1..|args| - 1], flag) <==> (flag, v) in ps)
  {
    PairValuesMember(ps, flag, v);
    var args := RecordingArgs(ps, outputPath);
    assert args[1..|args| - 1] == Flatten(ps);
    ValuesFlatten(ps, flag);
  }

  /** A list whose last pair is `-movflags +faststart` ends with those two
      words and then the output path. */
  lemma RecordingArgsEnd(ps: seq<(string, string)>, outputPath: string)
    requires |ps| > 0 && ps[|ps| - 1] == FastStart
    ensures var args := RecordingArgs(ps, outputPath);
            args[|args| - 3..] == ["-movflags", "+faststart", outputPath]
  {
    var init := ps[..|ps| - 1];
    assert ps == init + [FastStart];
    FlattenAppend(init, [FastStart]);
    assert Flatten([FastStart]) == ["-movflags", "+faststart"];
  }

  /** Appending a group of pairs to a list built so far. */
  lemma ExtendArgs(args: seq<string>, base: seq<string>, ps: seq<(string, string)>, qs: seq<(string, string)>)
    requires args == base + Flatten(ps)
    ensures args + Flatten(qs) == base + Flatten(ps + qs)
  {
    FlattenAppend(ps, qs);
    AppendAssoc(base, Flatten(ps), Flatten(qs));
  }

  lemma FlattenOne(a: (string, string))
    ensures Flatten([a]) == [a.0, a.1]
  {
    assert [a][1..] == [];
  }

  lemma FlattenTwo(a: (string, string), b: (string, string))
    ensures Flatten([a, b]) == [a.0, a.1, b.0, b.1]
  {
    assert [a, b][1..] == [b];
    FlattenOne(b);
  }

  lemma FlattenThree(a: (string, string), b: (string, string), c: (string, string))
    ensures Flatten([a, b, c]) == [a.0, a.1, b.0, b.1, c.0, c.1]
  {
    assert [a, b, c][1..] == [b, c];
    FlattenTwo(b, c);
  }

  lemma FlattenFour(a: (string, string), b: (string, string), c: (string, string), d: (string, string))
    ensures Flatten([a, b, c, d]) == [a.0, a.1, b.0, b.1, c.0, c.1, d.0, d.1]
  {
    assert [a, b, c, d][1..] == [b, c, d];
    FlattenThree(b, c, d);
  }
}
