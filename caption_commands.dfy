/** Editing and deleting one caption of one media item in the shared media
    library (`update_caption` and `delete_caption` in commands/captions.rs).
    The library is the list of media items behind the application's lock;
    both commands find the item by id, then change its caption list in place. */
module CaptionCommands {
  import opened Wrappers
  import opened CaptionModel
  import opened Clip
  import opened ExportPipeline
  import opened Lookup

  function CaptionNotFound(captionId: string): string {
    "Caption not found: " + captionId
  }

  // ---------------------------------------------------------------------------
  // update_caption
  // ---------------------------------------------------------------------------

  /** `captions.iter_mut().find(|c| c.id == id)`, as an index. */
  function FindCaption(cs: seq<Caption>, id: string): Option<nat> {
    FindById(cs, (c: Caption) => c.id, id)
  }

  /** The caption with the given text and times overwritten, each only when
      one is given. */
  function Edited(c: Caption, text: Option<string>, startTime: Option<real>, endTime: Option<real>): (e: Caption)
    ensures e.text == (if text.Some? then text.value else c.text)
    ensures e.startTime == (if startTime.Some? then startTime.value else c.startTime)
    ensures e.endTime == (if endTime.Some? then endTime.value else c.endTime)
    ensures e.id == c.id && e.mediaClipId == c.mediaClipId && e.language == c.language
    ensures e.confidence == c.confidence && e.styling == c.styling
  {
    c.(text := text.GetOr(c.text), startTime := startTime.GetOr(c.startTime), endTime := endTime.GetOr(c.endTime))
  }

  /** What `update_caption` answers and what the library becomes. The edit is
      stored before the caption is validated, so it stays in the library
      when validation fails. */
  function UpdateOutcome(library: seq<MediaClip>, clipId: string, captionId: string, text: Option<string>,
                         startTime: Option<real>, endTime: Option<real>): (Result<Caption>, seq<MediaClip>)
  {
    match FindMedia(library, clipId)
    case None => (Err(MissingMediaError(clipId)), library)
    case Some(i) =>
      match FindCaption(library[i].captions, captionId)
      case None => (Err(CaptionNotFound(captionId)), library)
      case Some(j) =>
        var e := Edited(library[i].captions[j], text, startTime, endTime);
        var after := library[i := library[i].(captions := library[i].captions[j := e])];
        match Validate(e)
        case Ok(_) => (Ok(e), after)
        case Err(msg) => (Err(msg), after)
  }

  /** An unknown item or an unknown caption is reported, in that order, and
      leaves the library as it was. */
  lemma UpdateNotFound(library: seq<MediaClip>, clipId: string, captionId: string, text: Option<string>,
                       startTime: Option<real>, endTime: Option<real>)
    ensures (forall i :: 0 <= i < |library| ==> library[i].id != clipId) ==>
              UpdateOutcome(library, clipId, captionId, text, startTime, endTime) == (Err(MissingMediaError(clipId)), library)
    ensures FindMedia(library, clipId).Some?
            && (forall j :: 0 <= j < |library[FindMedia(library, clipId).value].captions| ==>
                  library[FindMedia(library, clipId).value].captions[j].id != captionId)
            ==> UpdateOutcome(library, clipId, captionId, text, startTime, endTime)
                == (Err(CaptionNotFound(captionId)), library)
  {
  }

  /** With both found, the edited caption takes the found caption's place
      whether or not it validates; the answer is a copy of it exactly when it
      validates, and the validation error otherwise. Every other item and
      every other caption stays as it was. */
  lemma UpdateApplied(library: seq<MediaClip>, clipId: string, captionId: string, text: Option<string>,
                      startTime: Option<real>, endTime: Option<real>, i: nat, j: nat)
    requires FindMedia(library, clipId) == Some(i)
    requires FindCaption(library[i].captions, captionId) == Some(j)
    ensures var (r, after) := UpdateOutcome(library, clipId, captionId, text, startTime, endTime);
            var e := Edited(library[i].captions[j], text, startTime, endTime);
            && |after| == |library|
            && (forall k :: 0 <= k < |library| && k != i ==> after[k] == library[k])
            && after[i].id == clipId && |after[i].captions| == |library[i].captions|
            && after[i].captions[j] == e
            && (forall k :: 0 <= k < |library[i].captions| && k != j ==> after[i].captions[k] == library[i].captions[k])
            && (r.Ok? <==> Validate(e).Ok?)
            && (r.Ok? ==> r.value == after[i].captions[j])
            && (r.Err? ==> r.error == Validate(e).error)
  {
  }

  /** An update that gives no field stores the caption unchanged, and only
      validates it. */
  lemma UpdateNothing(library: seq<MediaClip>, clipId: string, captionId: string)
    requires FindMedia(library, clipId).Some?
    requires FindCaption(library[FindMedia(library, clipId).value].captions, captionId).Some?
    ensures UpdateOutcome(library, clipId, captionId, None, None, None).1 == library
  {
    var i := FindMedia(library, clipId).value;
    var j := FindCaption(library[i].captions, captionId).value;
    assert library[i].captions[j := library[i].captions[j]] == library[i].captions;
    assert library[i := library[i].(captions := library[i].captions)] == library;
  }

  // ---------------------------------------------------------------------------
  // delete_caption
  // ---------------------------------------------------------------------------

  /** `retain(|c| c.id != id)`: the captions without that id, in order. */
  function WithoutCaption(cs: seq<Caption>, id: string): (r: seq<Caption>)
    ensures |r| <= |cs|
  {
    if cs == [] then []
    else WithoutCaption(cs[..|cs| - 1], id) + (if cs[|cs| - 1].id == id then [] else [cs[|cs| - 1]])
  }

  /** Removing from a concatenation removes from each part, so the captions
      kept stay in their order. */
  lemma {:induction false} WithoutCaptionAppend(a: seq<Caption>, b: seq<Caption>, id: string)
    ensures WithoutCaption(a + b, id) == WithoutCaption(a, id) + WithoutCaption(b, id)
    decreases |b|
  {
    if b == [] {
      assert a + b == a;
    } else {
      assert (a + b)[..|a + b| - 1] == a + b[..|b| - 1];
      WithoutCaptionAppend(a, b[..|b| - 1], id);
    }
  }

  /** A caption is kept exactly when it was there and has another id. */
  lemma {:induction false} WithoutCaptionMembers(cs: seq<Caption>, id: string)
    ensures forall c :: c in WithoutCaption(cs, id) <==> c in cs && c.id != id
  {
    if cs != [] {
      WithoutCaptionMembers(cs[..|cs| - 1], id);
      assert cs == cs[..|cs| - 1] + [cs[|cs| - 1]];
    }
  }

  /** Nothing is removed exactly when no caption has the id, and then the
      list is unchanged. */
  lemma WithoutCaptionNothing(cs: seq<Caption>, id: string)
    ensures |WithoutCaption(cs, id)| == |cs| <==> forall k :: 0 <= k < |cs| ==> cs[k].id != id
    ensures |WithoutCaption(cs, id)| == |cs| ==> WithoutCaption(cs, id) == cs
  {
    WithoutCaptionCount(cs, id);
    WithoutCaptionAll(cs, id);
  }

  lemma {:induction false} WithoutCaptionCount(cs: seq<Caption>, id: string)
    ensures |WithoutCaption(cs, id)| == |cs| <==> forall k :: 0 <= k < |cs| ==> cs[k].id != id
  {
    if cs != [] {
      var init, last := cs[..|cs| - 1], cs[|cs| - 1];
      WithoutCaptionCount(init, id);
      assert forall k :: 0 <= k < |init| ==> init[k] == cs[k];
    }
  }

  lemma {:induction false} WithoutCaptionAll(cs: seq<Caption>, id: string)
    ensures |WithoutCaption(cs, id)| == |cs| ==> WithoutCaption(cs, id) == cs
  {
    if cs != [] {
      var init, last := cs[..|cs| - 1], cs[|cs| - 1];
      WithoutCaptionAll(init, id);
      assert cs == init + [last];
    }
  }

  // ---------------------------------------------------------------------------
  // The library
  // ---------------------------------------------------------------------------

  /** The shared media library. */
  class MediaLibrary {
    var clips: seq<MediaClip>

    constructor (clips: seq<MediaClip>)
      ensures this.clips == clips
    {
      this.clips := clips;
    }

    /** `update_caption`: finds the item, then the caption, overwrites the
        given fields, then validates the result. */
    method UpdateCaption(clipId: string, captionId: string, text: Option<string>,
                         startTime: Option<real>, endTime: Option<real>)
      returns (r: Result<Caption>)
      modifies this
      ensures (r, clips) == UpdateOutcome(old(clips), clipId, captionId, text, startTime, endTime)
    {
      var i := FindMedia(clips, clipId);
      if i.None? {
        return Err(MissingMediaError(clipId));
      }
      var clip := clips[i.value];
      var j := FindCaption(clip.captions, captionId);
      if j.None? {
        return Err(CaptionNotFound(captionId));
      }
      var caption := clip.captions[j.value];
      if text.Some? {
        caption := caption.(text := text.value);
      }
      if startTime.Some? {
        caption := caption.(startTime := startTime.value);
      }
      if endTime.Some? {
        caption := caption.(endTime := endTime.value);
      }
      clips := clips[i.value := clip.(captions := clip.captions[j.value := caption])];
      var valid := Validate(caption);
      if valid.Err? {
        return Err(valid.error);
      }
      return Ok(caption);
    }

    /** `delete_caption`: finds the item, keeps the captions whose id
        differs, and reports when none was removed. */
    method DeleteCaption(clipId: string, captionId: string) returns (r: Result<Unit>)
      modifies this
      ensures FindMedia(old(clips), clipId).None? ==> r == Err(MissingMediaError(clipId)) && clips == old(clips)
      ensures FindMedia(old(clips), clipId).Some? ==>
                var i := FindMedia(old(clips), clipId).value;
                var kept := WithoutCaption(old(clips)[i].captions, captionId);
                if |kept| == |old(clips)[i].captions|
                then r == Err(CaptionNotFound(captionId)) && clips == old(clips)
                else r == Ok(Unit) && clips == old(clips)[i := old(clips)[i].(captions := kept)]
    {
      var i := FindMedia(clips, clipId);
      if i.None? {
        return Err(MissingMediaError(clipId));
      }
      var clip := clips[i.value];
      var initialLen := |clip.captions|;
      var kept: seq<Caption> := [];
      var k := 0;
      while k < |clip.captions|
        invariant 0 <= k <= |clip.captions|
        invariant kept == WithoutCaption(clip.captions[..k], captionId)
      {
        assert clip.captions[..k + 1][..k] == clip.captions[..k];
        if clip.captions[k].id != captionId {
          kept := kept + [clip.captions[k]];
        }
        k := k + 1;
      }
      assert clip.captions[..k] == clip.captions;
      WithoutCaptionNothing(clip.captions, captionId);
      clips := clips[i.value := clip.(captions := kept)];
      if |kept| == initialLen {
        assert clip.(captions := kept) == clip;
        return Err(CaptionNotFound(captionId));
      }
      return Ok(Unit);
    }
  }
}
