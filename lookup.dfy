/** Looking an entity up by its id: the `iter().find(|x| x.id == id)` that
    the export code uses on the media library and the caption commands use
    on a media item's captions, returned as an index into the list. */
module Lookup {
  import opened Wrappers

  /** The first position whose element has the id `id` under `idOf`, or
      None exactly when no element has it. */
  function FindById<T>(xs: seq<T>, idOf: T -> string, id: string): (r: Option<nat>)
    ensures r.Some? ==> r.value < |xs| && idOf(xs[r.value]) == id
    ensures r.Some? ==> forall j :: 0 <= j < r.value ==> idOf(xs[j]) != id
    ensures r.None? <==> forall j :: 0 <= j < |xs| ==> idOf(xs[j]) != id
  {
    if xs == [] then None
    else if idOf(xs[0]) == id then Some(0)
    else
      match FindById(xs[1..], idOf, id)
      case None => None
      case Some(k) => Some(k + 1)
  }
}
