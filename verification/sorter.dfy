/** The sorting session (`sort` and `add_language`).

    GET shows the front track of the queue, or the completion page once the
    queue is empty. POST pops the front track and, unless the chosen label
    is the skip sentinel, asks the service to add it to the label's
    playlist; it then shows the next track, or the completion page when the
    queue has run out. `add_language` creates a playlist for a new label,
    and leaves an existing label alone.
 */
module Sorter {
  import opened Types
  import opened Seqs
  import opened Discovery

  /** The exception a handler raises and the framework turns into a server
      error. */
  datatype Fault =
    | IndexError          // `pop(0)` on an empty queue
    | KeyError(key: Label) // a label that is not in the map

  datatype Response =
    | ShowTrack(track: Track, languages: set<Label>)
    | RedirectDone
    | RedirectSort
    | ServerError(fault: Fault)

  /** One handled request: the new state, the writes requested from the
      streaming service, in order, and what the browser receives. */
  datatype Outcome = Outcome(state: State, effects: seq<Effect>, response: Response)

  datatype Request =
    | View                                        // GET /sort
    | Decide(lang: Label)                         // POST /sort with a language
    | AddLanguage(newLang: Label, created: PlaylistId) // POST /add_language; `created` is the new playlist's id

  /** GET /sort: the page for the current state; nothing changes. */
  function Show(s: State): (o: Outcome)
    ensures o.state == s && o.effects == []
    ensures |s.queue| > 0 ==> o.response == ShowTrack(s.queue[0], s.playlists.Keys)
    ensures |s.queue| == 0 <==> o.response == RedirectDone
  {
    if |s.queue| > 0 then Outcome(s, [], ShowTrack(s.queue[0], s.playlists.Keys))
    else Outcome(s, [], RedirectDone)
  }

  /** POST /sort with label `lang`. The front track is popped before the
      label is looked up, so an unknown label still consumes the track. */
  function Post(s: State, lang: Label): (o: Outcome)
    ensures |s.queue| == 0 <==> o.response == ServerError(IndexError)
    ensures |s.queue| == 0 ==> o.state == s && o.effects == []
    ensures |s.queue| > 0 ==> o.state.queue == s.queue[1..] && |o.state.queue| == |s.queue| - 1
    ensures o.state.playlists == s.playlists
    ensures lang == Skip ==> o.effects == []
    ensures |s.queue| > 0 && lang != Skip && lang in s.playlists ==>
              o.effects == [AddItem(s.playlists[lang], s.queue[0].id)]
    ensures |s.queue| > 0 && lang != Skip && lang !in s.playlists ==>
              o.effects == [] && o.response == ServerError(KeyError(lang))
    ensures |s.queue| > 1 && (lang == Skip || lang in s.playlists) ==>
              o.response == ShowTrack(s.queue[1], s.playlists.Keys)
    ensures o.response == RedirectDone <==>
              (|s.queue| == 1 && (lang == Skip || lang in s.playlists))
  {
    if |s.queue| == 0 then Outcome(s, [], ServerError(IndexError))
    else
      var song := s.queue[0];
      var popped := s.(queue := s.queue[1..]);
      if lang != Skip && lang !in s.playlists then
        Outcome(popped, [], ServerError(KeyError(lang)))
      else
        var effects := if lang != Skip then [AddItem(s.playlists[lang], song.id)] else [];
        Show(popped).(effects := effects)
  }

  /** POST /add_language: a label not yet in the map gets a new playlist,
      named the label followed by a space, and is mapped to its id. */
  function AddLabel(s: State, newLang: Label, created: PlaylistId): (o: Outcome)
    ensures o.state.queue == s.queue
    ensures newLang in o.state.playlists
    ensures o.state.playlists.Keys == s.playlists.Keys + {newLang}
    ensures forall k :: k in s.playlists ==> o.state.playlists[k] == s.playlists[k]
    ensures newLang !in s.playlists ==>
              o.state.playlists[newLang] == created && o.effects == [CreatePlaylist(newLang + " ")]
    ensures newLang in s.playlists ==> o.state == s && o.effects == []
    ensures o.response == RedirectSort
  {
    if newLang !in s.playlists then
      Outcome(s.(playlists := s.playlists[newLang := created]), [CreatePlaylist(newLang + " ")], RedirectSort)
    else
      Outcome(s, [], RedirectSort)
  }

  function Step(s: State, req: Request): (o: Outcome)
  {
    match req
    case View => Show(s)
    case Decide(lang) => Post(s, lang)
    case AddLanguage(newLang, created) => AddLabel(s, newLang, created)
  }

  /** The end state of a run and the service writes it requested. */
  datatype Trace = Trace(state: State, effects: seq<Effect>)

  /** The state and the service writes after a sequence of `sort` and
      `add_language` requests; a re-run of `callback` is not one of them. */
  function Run(s: State, reqs: seq<Request>): (t: Trace)
    decreases |reqs|
  {
    if |reqs| == 0 then Trace(s, [])
    else
      var o := Step(s, reqs[0]);
      var rest := Run(o.state, reqs[1..]);
      Trace(rest.state, o.effects + rest.effects)
  }

  /** The number of sorting decisions among the requests. */
  function Decisions(reqs: seq<Request>): (n: nat)
    decreases |reqs|
  {
    if |reqs| == 0 then 0
    else (if reqs[0].Decide? then 1 else 0) + Decisions(reqs[1..])
  }

  /** Within `sort` and `add_language` requests the queue is only consumed
      from the front, one track per decision whatever the label; no other
      such request shortens it. */
  lemma {:induction false} RunConsumesFront(s: State, reqs: seq<Request>)
    ensures Run(s, reqs).state.queue == s.queue[Min(|s.queue|, Decisions(reqs))..]
    decreases |reqs|
  {
    if |reqs| > 0 {
      var o := Step(s, reqs[0]);
      RunConsumesFront(o.state, reqs[1..]);
      if reqs[0].Decide? && |s.queue| > 0 {
        assert s.queue[1..][Min(|s.queue| - 1, Decisions(reqs[1..]))..]
            == s.queue[Min(|s.queue|, Decisions(reqs))..];
      }
    }
  }

  /** The queue empties only once there have been at least as many
      decisions as it held tracks. */
  lemma EmptiesOnlyByDecisions(s: State, reqs: seq<Request>)
    requires |Run(s, reqs).state.queue| == 0
    ensures Decisions(reqs) >= |s.queue|
  {
    RunConsumesFront(s, reqs);
  }

  /** `sort` and `add_language` requests never remove or re-point a label;
      new ones come only from `add_language`. */
  lemma {:induction false} RunKeepsLabels(s: State, reqs: seq<Request>)
    ensures s.playlists.Keys <= Run(s, reqs).state.playlists.Keys
    ensures forall k :: k in s.playlists ==> Run(s, reqs).state.playlists[k] == s.playlists[k]
    ensures forall k :: k in Run(s, reqs).state.playlists && k !in s.playlists ==>
              exists i :: 0 <= i < |reqs| && reqs[i] == AddLanguage(k, Run(s, reqs).state.playlists[k])
    decreases |reqs|
  {
    if |reqs| > 0 {
      var o := Step(s, reqs[0]);
      var fin := Run(s, reqs).state.playlists;
      RunKeepsLabels(o.state, reqs[1..]);
      forall k | k in fin && k !in s.playlists
        ensures exists i :: 0 <= i < |reqs| && reqs[i] == AddLanguage(k, fin[k])
      {
        if k in o.state.playlists {
          assert reqs[0] == AddLanguage(k, fin[k]);
        } else {
          var i :| 0 <= i < |reqs[1..]| && reqs[1..][i] == AddLanguage(k, fin[k]);
          assert reqs[i + 1] == AddLanguage(k, fin[k]);
        }
      }
    }
  }

  /** Every track the session files into a playlist was queued at the start,
      and every playlist it adds to is the target of some label in the map at
      the end of the run. */
  lemma {:induction false} RunAddsQueuedTracks(s: State, reqs: seq<Request>)
    ensures forall e :: e in Run(s, reqs).effects && e.AddItem? ==>
              (exists t :: t in s.queue && t.id == e.trackId)
              && e.playlistId in Run(s, reqs).state.playlists.Values
    decreases |reqs|
  {
    if |reqs| > 0 {
      var o := Step(s, reqs[0]);
      var fin := Run(s, reqs).state;
      RunAddsQueuedTracks(o.state, reqs[1..]);
      RunKeepsLabels(o.state, reqs[1..]);
      forall e | e in Run(s, reqs).effects && e.AddItem?
        ensures (exists t :: t in s.queue && t.id == e.trackId) && e.playlistId in fin.playlists.Values
      {
        if e in o.effects {
          var lang := reqs[0].lang;
          assert s.queue[0] in s.queue;
          assert o.state.playlists[lang] == fin.playlists[lang];
        } else {
          assert o.state.queue == s.queue || o.state.queue == s.queue[1..];
          var t :| t in o.state.queue && t.id == e.trackId;
          assert t in s.queue;
        }
      }
    }
  }

  /** A lang added for a discovered language playlist is keyed without the
      trailing space discovery keeps, so adding the bare lang after the
      playlist was discovered asks the service for a second playlist of the
      same name. */
  lemma AddLanguageAfterDiscovery(s: State, lang: Label, existing: PlaylistId, created: PlaylistId)
    requires lang !in s.playlists
    ensures var found := DiscoverItems(s.playlists, [PlaylistItem(lang + " ", existing)]);
            var o := AddLabel(s.(playlists := found), lang, created);
            found[lang + " "] == existing
            && o.effects == [CreatePlaylist(lang + " ")]
  {
    var item := PlaylistItem(lang + " ", existing);
    assert IsLanguageName(item.name);
    DiscoverStep(s.playlists, [], item);
    assert [] + [item] == [item];
    var found := DiscoverItems(s.playlists, [item]);
    assert found == Record(s.playlists, item);
    assert |lang + " "| != |lang|;
    assert lang !in found;
  }
}
