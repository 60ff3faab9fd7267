/** `load_clip_for_playback` (commands/playback.rs): the file the preview
    plays for a media item. */
module Playback {
  import opened Wrappers
  import opened Clip
  import opened ExportPipeline

  /** The item is looked up by id; its proxy is preferred whether or not
      the caller asked for it, and its source is the fallback. */
  function LoadClipForPlayback(library: seq<MediaClip>, clipId: string, useProxy: bool): (r: Result<string>)
    ensures r.Err? <==> forall i :: 0 <= i < |library| ==> library[i].id != clipId
  {
    match FindMedia(library, clipId)
    case None => Err(MissingMediaError(clipId))
    case Some(i) =>
      var clip := library[i];
      if useProxy && clip.proxyPath.Some? then Ok(clip.proxyPath.value)
      else if clip.proxyPath.Some? then Ok(clip.proxyPath.value)
      else Ok(clip.sourcePath)
  }

  /** An unknown id is reported by name. */
  lemma PlaybackNotFound(library: seq<MediaClip>, clipId: string, useProxy: bool)
    requires forall i :: 0 <= i < |library| ==> library[i].id != clipId
    ensures LoadClipForPlayback(library, clipId, useProxy) == Err(MissingMediaError(clipId))
  {
  }

  /** A found item plays from the same file the export manifest reads: the
      first item with the id, through its proxy when it has one. */
  lemma PlaybackPath(library: seq<MediaClip>, clipId: string, useProxy: bool, i: nat)
    requires i < |library| && library[i].id == clipId
    requires forall j :: 0 <= j < i ==> library[j].id != clipId
    ensures LoadClipForPlayback(library, clipId, useProxy) == Ok(PlayablePath(library[i]))
  {
  }

  /** The `use_proxy` flag changes nothing. */
  lemma PlaybackIgnoresFlag(library: seq<MediaClip>, clipId: string)
    ensures LoadClipForPlayback(library, clipId, true) == LoadClipForPlayback(library, clipId, false)
  {
  }
}
