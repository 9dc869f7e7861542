# Language sorter: a Dafny model

The Spotify language sorter is a small Flask application. It collects the
user's saved tracks into a work queue and drops the ones already filed in a
"language playlist". A language playlist is one whose name ends in a space.
The app then shows the queued tracks one at a time. For each track the user
picks a language label, which files the track into that label's playlist,
or picks the skip sentinel `__SKIP__`. The user can also register a new
label, which creates a playlist for it.

This project models that bookkeeping as pure functions and methods over
immutable data:

- `Types`: tracks, playlist items, the sorter `State`, and the `Effect` log.
  The `State` holds the queue and the label-to-playlist map, which the
  application keeps as process-wide globals. An `Effect` is a write asked of
  the streaming service: add a track to a playlist, or create a playlist.
- `Discovery`: `get_playlists`. It walks the pages of playlist items into
  the label map.
- `QueueBuild`: the body of `callback`. It appends the saved tracks,
  removes the ones held by a mapped playlist, and shuffles the result.
- `Sorter`: the GET and POST transitions of `sort` and the insert-if-absent
  of `add_language`. It also defines runs over a sequence of requests.

The streaming service is outside the model. What it returns is given as
inputs: pages of playlist items, pages of saved tracks, and for each playlist
id the set of track ids it holds (`tracksOf`). The id of a newly created
playlist and the random draws of the shuffle are inputs too. The writes it
is asked to perform come out as an `Effect` sequence.

A behaviour the model exhibits (lemma `Sorter.AddLanguageAfterDiscovery`):
discovery keys a playlist by its full name, trailing space included. But
`add_language` keys a new label without the space and names the playlist
`label + " "`. So after the playlist `"Hindi "` has been discovered, adding
the label `"Hindi"` finds no such key. It asks the service for a second
playlist named `"Hindi "`.

## Model

| member | source | states |
|---|---|---|
| Discovery.Record | app.py:46-58 | an item whose name is non-empty and ends in a space is stored under its full name with its id and no other key is touched; any other item leaves the map unchanged |
| Discovery.DiscoverKeys | app.py:45-62 | after the walk a key is present exactly when it was present before or some walked item is a language playlist of that name |
| Discovery.DiscoverLastWins | app.py:45-62 | when a name occurs several times, the id of its last occurrence in page order is the one stored |
| Discovery.DiscoverKeepsOthers | app.py:45-62 | an existing entry that no walked language playlist names keeps its id |
| Discovery.DiscoverKeepsKeys | app.py:58 | discovery never removes a key: the map before is included in the map after |
| Discovery.GetPlaylists | app.py:43-63 | the nested page/item loop computes the map obtained by walking every item of every page in order from the existing map |
| QueueBuild.Keep | app.py:104 | the filtered queue is no longer than the input and holds only input tracks whose id is outside the removal set |
| QueueBuild.KeepCounts | app.py:103-104 | each track occurs in the filtered queue as often as in the input when its id is outside the removal set, and not at all otherwise |
| QueueBuild.KeepAppend | app.py:104 | filtering a concatenation filters each part in place, so kept tracks stay in their original relative order |
| QueueBuild.KeepNone | app.py:104 | a queue with no id to remove comes out unchanged |
| QueueBuild.KeepKeep | app.py:101-104 | filtering by one playlist's ids and then another's equals filtering once by the union of both |
| QueueBuild.RemovedStep | app.py:101-103 | taking one more mapped playlist into account adds exactly that playlist's track ids to the removal set |
| QueueBuild.RemovedMember | app.py:101-103 | an id is in the removal set exactly when some mapped label's playlist holds it |
| QueueBuild.Dedup | app.py:101-104 | the loop over the labels leaves the queue filtered by the union of all mapped playlists' track ids, in original order |
| QueueBuild.AppendSaved | app.py:76-83 | every saved track is appended in page order after the existing queue, which is not cleared |
| QueueBuild.Shuffle | app.py:106 | whatever the random draws, the shuffled queue is a permutation (same multiset) of its input |
| QueueBuild.Callback | app.py:75-106 | the map is the discovered map; the queue holds each track of old queue plus saved tracks as often as before if its id is in no mapped playlist, and never otherwise |
| Sorter.Show | app.py:129-133 | a GET changes nothing and requests no write; it shows the front track and the labels, or redirects to the done page exactly when the queue is empty |
| Sorter.Post | app.py:117-133 | a POST on an empty queue fails with an index error and changes nothing; otherwise it removes exactly the front track; a skip requests no write, a known label requests exactly one add of the popped track to that label's playlist, an unknown label fails after the pop; with tracks left it shows the new front track, and it redirects to done exactly when the last track was sorted |
| Sorter.AddLabel | app.py:149-154 | a new label is mapped to the created playlist's id and a playlist named label plus space is requested; an existing label leaves the state and the service untouched; no other entry changes |
| Sorter.RunConsumesFront | app.py:117-127 | over any run of `sort` and `add_language` requests the queue loses exactly its first min(length, number of decisions) tracks, whatever the labels |
| Sorter.EmptiesOnlyByDecisions | app.py:119-127 | within a run of `sort` and `add_language` requests the queue reaches empty only after at least as many decisions as it held tracks |
| Sorter.RunKeepsLabels | app.py:139-154 | a run of `sort` and `add_language` requests never removes or re-points a label; every new label comes from an add-language request with the created id |
| Sorter.RunAddsQueuedTracks | app.py:119-123 | every add requested during a run of `sort` and `add_language` requests files a track that was queued at the start into a playlist the final map holds |
| Sorter.AddLanguageAfterDiscovery | app.py:150-151 | adding a bare label after its space-suffixed playlist was discovered requests a second playlist with the same name |

## Left out

- OAuth: the authorisation redirect, token exchange, session cookie and missing-token redirects to login are handled by the OAuth and web libraries.
- Routing and rendering: Flask routes, templates, the done page and app configuration are web plumbing. A page render is modelled as a `Response` value.
- HTTP calls and pagination: `sp.next` is replaced by given page sequences. `sp.me()` only supplies the user id for playlist creation.
- QueueBuild.Callback: `tracksOf` stands for what `playlist_tracks` returns. In the source that is only the first page of a playlist, so a long playlist's later tracks are not removed. The model takes the returned set as given and does not state which tracks it contains.
- QueueBuild.Shuffle: states only that the result is a permutation. The exact draw algorithm and uniformity of `random.shuffle` are not modelled.
- Absent form fields: Flask returns `None` when a form field is missing. Labels are modelled as present strings.
- Requests to `/sort` with the `SKIP` method take the GET path in the source. They are not a separate request kind here; `View` covers them.
- Failing service calls: the model treats every call to the streaming service as succeeding. In `sort` the front track is popped before `playlist_add_items` is called. If that call fails, for example on a followed playlist the user does not own, the track is lost and nothing is filed; `Sorter.Post` does not model that failure. In `callback` a failing `playlist_tracks` aborts the handler after the label map and the queue have already been extended. Deduplication is then partial and the shuffle never runs; `QueueBuild.Callback` treats the whole handler as one step that cannot fail.
- Re-running `callback` mid-session: request runs in `Sorter` cover only `sort` and `add_language`. Visiting the login route again re-runs `callback`. That run appends the saved tracks again, can re-point discovered labels, and can shorten or empty the queue through deduplication with no decision. `QueueBuild.Callback` states that step on its own. The run lemmas do not cover it.
- Label order: `ShowTrack` carries the labels as a set. The source passes `list(playlists.keys())`, whose insertion order sets the order of the label buttons. That order is dropped.
- Global state: the unused `playlist_ids` global is omitted. Sharing the globals across users and concurrent requests is replaced by one sequential `State`.
- Credentials and debug output: the credentials loaded from `config` and the debug `print` are left out.
- The bulk "random mix" playlist regeneration does not appear in `app.py`, so it is not modelled.
