/**
 * The track record shared by the server and the players: the fields of the
 * track schema plus the document id the list endpoint returns with each one.
 */
module Tracks {
  import opened Wrappers

  /** Who uploaded a track (Discord id, user name and avatar hash). */
  datatype Uploader = Uploader(id: string, username: string, avatar: string)

  datatype Track = Track(
    id: string,          // the document id (`_id`)
    title: string,
    file: string,        // the URL the player loads
    plays: nat,
    duration: string,    // `M:SS`, computed once at upload
    addedBy: Uploader)

  /**
   * `tracks.findIndex(t => t._id === id)`: the first position holding a
   * track with that id, or `None` (JavaScript's -1) when there is none.
   */
  function FindIndex(tracks: seq<Track>, id: string): (r: Option<nat>)
    ensures r.Some? ==> r.value < |tracks| && tracks[r.value].id == id
    ensures r.Some? ==> forall j :: 0 <= j < r.value ==> tracks[j].id != id
    ensures r.None? <==> forall j :: 0 <= j < |tracks| ==> tracks[j].id != id
  {
    if tracks == [] then None
    else if tracks[0].id == id then Some(0)
    else match FindIndex(tracks[1..], id)
      case None => None
      case Some(k) => Some(k + 1)
  }
}
