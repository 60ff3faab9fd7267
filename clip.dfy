/** An imported media item: a source file, its probed properties and the
    captions attached to it (models/clip.rs). */
module Clip {
  import opened Wrappers
  import opened Text
  import opened CaptionModel

  /** `width` and `height` are the probed frame size in pixels (`i32` in the
      source); `fileSize` is in bytes and `importedAt` a clock reading. */
  datatype MediaClip = MediaClip(
    id: string,
    name: string,
    sourcePath: string,
    proxyPath: Option<string>,
    thumbnailPath: Option<string>,
    duration: real,
    resolution: string,
    width: int,
    height: int,
    fps: real,
    codec: string,
    audioCodec: Option<string>,
    fileSize: int,
    bitrate: Option<int>,
    hasAudio: bool,
    importedAt: int,
    captions: seq<Caption>)
  {
    /** At least 3840 pixels wide. */
    predicate Is4K() {
      width >= 3840
    }

    /** At least 1920 pixels wide. */
    predicate IsHd() {
      width >= 1920
    }
  }

  /** Every 4K item is also HD. */
  lemma FourKIsHd(m: MediaClip)
    ensures m.Is4K() ==> m.IsHd()
  {
  }

  /** The named components of a Unix path, as `Path::components` yields them:
      empty components (repeated or trailing `/`) and `.` are skipped. */
  function NamedComponents(parts: seq<string>): (cs: seq<string>)
    ensures forall k :: 0 <= k < |cs| ==> cs[k] != "" && cs[k] != "."
    ensures |cs| <= |parts|
  {
    if parts == [] then []
    else
      var rest := NamedComponents(parts[1..]);
      if parts[0] == "" || parts[0] == "." then rest else [parts[0]] + rest
  }

  /** `Path::file_name`: the last component when it is a name, and nothing
      for an empty path, `/`, `.` or a path ending in `..`. */
  function FileName(path: string): (r: Option<string>)
    ensures r.Some? ==> r.value != "" && r.value != "." && r.value != ".." && '/' !in r.value
  {
    var cs := NamedComponents(Split(path, "/"));
    SplitPiecesAvoidSep(path, "/");
    NamedComponentsAvoidSlash(Split(path, "/"));
    if cs == [] || cs[|cs| - 1] == ".." then None else Some(cs[|cs| - 1])
  }

  lemma {:induction false} NamedComponentsAvoidSlash(parts: seq<string>)
    requires forall k :: 0 <= k < |parts| ==> !Contains(parts[k], "/")
    ensures forall k :: 0 <= k < |NamedComponents(parts)| ==> '/' !in NamedComponents(parts)[k]
  {
    if parts != [] {
      ContainsChar(parts[0], '/');
      NamedComponentsAvoidSlash(parts[1..]);
    }
  }

  /** A plain file name: what `FileName` can return. */
  predicate IsFileName(name: string) {
    name != "" && name != "." && name != ".." && '/' !in name
  }

  /** The name of a file placed in a directory is recovered from the joined
      path, whatever the directory is. */
  lemma FileNameOfJoin(dir: string, name: string)
    requires IsFileName(name)
    ensures FileName(dir + "/" + name) == Some(name)
  {
    var parts := Split(dir + "/" + name, "/");
    assert parts == Split(dir, "/") + [name] by { SplitLast(dir, name); }
    NamedComponentsAppend(Split(dir, "/"), [name]);
    SplitPiecesAvoidSep(dir + "/" + name, "/");
    NamedComponentsAvoidSlash(parts);
  }

  /** The pieces of `dir + "/" + name` are those of `dir` and then `name`. */
  lemma {:induction false} SplitLast(dir: string, name: string)
    requires '/' !in name
    ensures Split(dir + "/" + name, "/") == Split(dir, "/") + [name]
    decreases |dir|
  {
    var s := dir + "/" + name;
    match IndexOf(dir, "/")
    case None =>
      ContainsChar(dir, '/');
      SplitCharFirst(dir, '/', name);
      SplitCharFirst(name, '/', []);
    case Some(i) =>
      var head, rest := dir[..i], dir[i + 1..];
      FirstSlash(dir, i);
      SplitCharFirst(head, '/', rest);
      AppendAssoc(head + "/", rest + "/", name);
      AppendAssoc(head, "/", rest + "/" + name);
      assert s == head + "/" + (rest + "/" + name);
      SplitCharFirst(head, '/', rest + "/" + name);
      SplitLast(rest, name);
  }

  /** The text before the first '/' holds none, and the text is that
      piece, the '/' and the rest. */
  lemma FirstSlash(dir: string, i: nat)
    requires IndexOf(dir, "/") == Some(i)
    ensures i < |dir| && '/' !in dir[..i] && dir == dir[..i] + "/" + dir[i + 1..]
  {
    assert dir[i..i + 1] == "/";
    forall j | 0 <= j < i ensures dir[..i][j] != '/' {
      assert !MatchesAt(dir, "/", j);
      assert dir[j..j + 1] == [dir[j]];
    }
  }

  lemma {:induction false} NamedComponentsAppend(a: seq<string>, b: seq<string>)
    ensures NamedComponents(a + b) == NamedComponents(a) + NamedComponents(b)
  {
    if a == [] {
      assert a + b == b;
    } else {
      assert (a + b)[1..] == a[1..] + b;
      NamedComponentsAppend(a[1..], b);
    }
  }

  /** `MediaClip::new`: the name is the path's file name (or "Unknown"), the
      resolution label is `WIDTHxHEIGHT`, and everything learnt later (proxy,
      thumbnail, audio, bitrate, captions) starts empty. `id` and `now` are
      the fresh UUID and the clock reading the source draws. */
  function NewMediaClip(id: string, sourcePath: string, duration: real, width: int, height: int,
                        fps: real, codec: string, fileSize: int, now: int): (m: MediaClip)
    ensures m.id == id && m.sourcePath == sourcePath && m.codec == codec
    ensures m.name == FileName(sourcePath).GetOr("Unknown")
    ensures m.resolution == IntToString(width) + "x" + IntToString(height)
    ensures m.width == width && m.height == height && m.duration == duration && m.fps == fps
    ensures m.fileSize == fileSize && m.importedAt == now
    ensures m.proxyPath.None? && m.thumbnailPath.None? && m.audioCodec.None? && m.bitrate.None?
    ensures !m.hasAudio && m.captions == []
  {
    MediaClip(id, FileName(sourcePath).GetOr("Unknown"), sourcePath, None, None, duration,
              IntToString(width) + "x" + IntToString(height), width, height, fps, codec,
              None, fileSize, None, false, now, [])
  }

  /** An item imported from `dir/name` is called `name`. */
  lemma NewMediaClipName(id: string, dir: string, name: string, duration: real, width: int,
                         height: int, fps: real, codec: string, fileSize: int, now: int)
    requires IsFileName(name)
    ensures NewMediaClip(id, dir + "/" + name, duration, width, height, fps, codec, fileSize, now).name == name
  {
    FileNameOfJoin(dir, name);
  }
}
