/** Plain data exchanged between the language sorter and the streaming service.

    Every identifier the service hands out (track ids, playlist ids) and every
    display name is a string. The handlers keep all of their state in two
    process-wide globals, the work queue and the label-to-playlist map; here
    they are gathered into one immutable `State` record.
 */
module Types {

  type TrackId = string
  type PlaylistId = string
  type Label = string

  /** A saved track as the service returns it; only `id` takes part in the
      sorter's decisions, the other fields are carried for display. */
  datatype Track = Track(id: TrackId, name: string, artist: string, album: string)

  /** One entry of a page of the user's playlists. */
  datatype PlaylistItem = PlaylistItem(name: string, id: PlaylistId)

  /** The sorter's state: the tracks still to sort, front first, and the map
      from a language label to the playlist that collects it. */
  datatype State = State(queue: seq<Track>, playlists: map<Label, PlaylistId>)

  /** A write the handlers ask the streaming service to perform. */
  datatype Effect =
    | AddItem(playlistId: PlaylistId, trackId: TrackId)
    | CreatePlaylist(name: string)

  /** The form value that discards the current track instead of filing it. */
  const Skip: Label := "__SKIP__"
}
