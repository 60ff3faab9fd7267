/** Tracks and the clips placed on them (models/timeline.rs). Times are
    seconds, as `real`. */
module Timeline {
  import opened Wrappers

  datatype TrackType = Main | Overlay

  datatype Transform = Transform(x: int, y: int, width: nat, height: nat, rotation: real)

  /** A use of a media item on the timeline: it starts at `startTime` and
      plays the source from `inPoint` to `outPoint`. */
  datatype TimelineClip = TimelineClip(
    id: string,
    mediaClipId: string,
    trackId: string,
    startTime: real,
    inPoint: real,
    outPoint: real,
    layerOrder: nat,
    transform: Option<Transform>)
  {
    /** Length of the trimmed window. */
    function Duration(): real {
      outPoint - inPoint
    }

    /** Where the clip ends on the timeline. */
    function EndTime(): (e: real)
      ensures e - startTime == Duration()
    {
      startTime + Duration()
    }
  }

  datatype Track = Track(
    id: string,
    name: string,
    trackType: TrackType,
    order: nat,
    clips: seq<TimelineClip>,
    visible: bool,
    locked: bool,
    volume: real)
  {
    /** The latest end time of the track's clips; 0 for an empty track. */
    function Duration(): (d: real)
      ensures clips == [] ==> d == 0.0
      ensures forall k :: 0 <= k < |clips| ==> clips[k].EndTime() <= d
      ensures clips != [] ==> exists k :: 0 <= k < |clips| && clips[k].EndTime() == d
    {
      var ends := EndTimes(clips);
      assert forall k :: 0 <= k < |clips| ==> ends[k] == clips[k].EndTime();
      MaxOr(ends, 0.0)
    }

    function ClipCount(): (n: nat)
      ensures n == |clips|
    {
      |clips|
    }
  }

  /** `Track::new`: an empty, visible, unlocked track at order 0 and full volume. */
  function NewTrack(id: string, name: string, trackType: TrackType): (t: Track)
    ensures t.id == id && t.name == name && t.trackType == trackType
    ensures t.clips == [] && t.ClipCount() == 0 && t.Duration() == 0.0
    ensures t.order == 0 && t.visible && !t.locked && t.volume == 1.0
  {
    Track(id, name, trackType, 0, [], true, false, 1.0)
  }

  /** `TimelineClip::new`: layer 0 and no transform. */
  function NewTimelineClip(id: string, mediaClipId: string, trackId: string,
                           startTime: real, inPoint: real, outPoint: real): (c: TimelineClip)
    ensures c.id == id && c.mediaClipId == mediaClipId && c.trackId == trackId
    ensures c.startTime == startTime && c.inPoint == inPoint && c.outPoint == outPoint
    ensures c.EndTime() == startTime + (outPoint - inPoint)
    ensures c.layerOrder == 0 && c.transform.None?
  {
    TimelineClip(id, mediaClipId, trackId, startTime, inPoint, outPoint, 0, None)
  }

  function EndTimes(clips: seq<TimelineClip>): (ends: seq<real>)
    ensures |ends| == |clips|
  {
    seq(|clips|, k requires 0 <= k < |clips| => clips[k].EndTime())
  }

  /** `iter().max_by(partial_cmp).unwrap_or(default)`: the largest element,
      or `default` when there is none. Times are reals, so the comparison
      never fails. */
  function MaxOr(xs: seq<real>, default: real): (m: real)
    ensures xs == [] ==> m == default
    ensures forall k :: 0 <= k < |xs| ==> xs[k] <= m
    ensures xs != [] ==> exists k :: 0 <= k < |xs| && xs[k] == m
  {
    if xs == [] then default
    else if |xs| == 1 then xs[0]
    else
      var m := MaxOr(xs[..|xs| - 1], default);
      assert forall k :: 0 <= k < |xs| - 1 ==> xs[..|xs| - 1][k] == xs[k];
      // max_by keeps the later element on ties
      if m > xs[|xs| - 1] then m else xs[|xs| - 1]
  }
}
