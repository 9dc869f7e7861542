/** Building the work queue (`callback`).

    The saved tracks are appended, page by page, to whatever is already in
    the queue; then, for each playlist in the label map, every queued track
    whose id is among that playlist's track ids is dropped; finally the
    queue is shuffled.
 */
module QueueBuild {
  import opened Types
  import opened Seqs
  import opened Discovery

  /** The tracks of `q` whose id is outside `ids`, in their order in `q`:
      the list comprehension that filters the queue. */
  function Keep(q: seq<Track>, ids: set<TrackId>): (r: seq<Track>)
    ensures |r| <= |q|
    ensures forall t :: t in r ==> t in q && t.id !in ids
    decreases |q|
  {
    if |q| == 0 then []
    else if q[0].id in ids then Keep(q[1..], ids)
    else [q[0]] + Keep(q[1..], ids)
  }

  /** Filtering drops exactly the occurrences of tracks whose id is in
      `ids` and keeps every other occurrence. */
  lemma {:induction false} KeepCounts(q: seq<Track>, ids: set<TrackId>, t: Track)
    ensures multiset(Keep(q, ids))[t] == if t.id in ids then 0 else multiset(q)[t]
    decreases |q|
  {
    if |q| > 0 {
      KeepCounts(q[1..], ids, t);
      assert q == [q[0]] + q[1..];
    }
  }

  /** Filtering a concatenation filters each part in place, so the kept
      tracks stay in their original relative order. */
  lemma {:induction false} KeepAppend(a: seq<Track>, b: seq<Track>, ids: set<TrackId>)
    ensures Keep(a + b, ids) == Keep(a, ids) + Keep(b, ids)
    decreases |a|
  {
    if |a| > 0 {
      assert (a + b)[1..] == a[1..] + b;
      KeepAppend(a[1..], b, ids);
    } else {
      assert a + b == b;
    }
  }

  /** A queue with no track to remove passes through unchanged. */
  lemma {:induction false} KeepNone(q: seq<Track>, ids: set<TrackId>)
    requires forall i :: 0 <= i < |q| ==> q[i].id !in ids
    ensures Keep(q, ids) == q
    decreases |q|
  {
    if |q| > 0 {
      KeepNone(q[1..], ids);
    }
  }

  /** Filtering by one set and then another is filtering by their union. */
  lemma {:induction false} KeepKeep(q: seq<Track>, a: set<TrackId>, b: set<TrackId>)
    ensures Keep(Keep(q, a), b) == Keep(q, a + b)
    decreases |q|
  {
    if |q| > 0 {
      KeepKeep(q[1..], a, b);
    }
  }

  /** The ids that the playlists named by the labels in `labels` already
      hold, according to `tracksOf`, the service's answer per playlist. */
  function Removed(playlists: map<Label, PlaylistId>, tracksOf: PlaylistId -> set<TrackId>, labels: set<Label>): (r: set<TrackId>)
  {
    set k, id | k in labels && k in playlists && id in tracksOf(playlists[k]) :: id
  }

  /** Taking one more label into account adds that playlist's ids. */
  lemma RemovedStep(playlists: map<Label, PlaylistId>, tracksOf: PlaylistId -> set<TrackId>, labels: set<Label>, k: Label)
    requires k in playlists
    ensures Removed(playlists, tracksOf, labels + {k}) == Removed(playlists, tracksOf, labels) + tracksOf(playlists[k])
  {
    var lhs := Removed(playlists, tracksOf, labels + {k});
    var rhs := Removed(playlists, tracksOf, labels) + tracksOf(playlists[k]);
    forall id | id in rhs
      ensures id in lhs
    {
      if id !in tracksOf(playlists[k]) {
        var k' :| k' in labels && k' in playlists && id in tracksOf(playlists[k']);
      }
    }
  }

  /** A track survives deduplication exactly when no listed playlist holds
      its id. */
  lemma RemovedMember(playlists: map<Label, PlaylistId>, tracksOf: PlaylistId -> set<TrackId>, id: TrackId)
    ensures id in Removed(playlists, tracksOf, playlists.Keys)
        <==> exists k :: k in playlists && id in tracksOf(playlists[k])
  {
  }

  /** The deduplication loop: for each label in the map, drop the queued
      tracks held by that label's playlist. */
  method Dedup(queue: seq<Track>, playlists: map<Label, PlaylistId>, tracksOf: PlaylistId -> set<TrackId>)
    returns (q: seq<Track>)
    ensures q == Keep(queue, Removed(playlists, tracksOf, playlists.Keys))
  {
    q := queue;
    var todo := playlists.Keys;
    KeepNone(queue, {});
    assert playlists.Keys - todo == {};
    assert Removed(playlists, tracksOf, {}) == {};
    while todo != {}
      invariant todo <= playlists.Keys
      invariant q == Keep(queue, Removed(playlists, tracksOf, playlists.Keys - todo))
      decreases todo
    {
      var lang :| lang in todo;
      var toRemove := tracksOf(playlists[lang]);
      KeepKeep(queue, Removed(playlists, tracksOf, playlists.Keys - todo), toRemove);
      RemovedStep(playlists, tracksOf, playlists.Keys - todo, lang);
      assert (playlists.Keys - todo) + {lang} == playlists.Keys - (todo - {lang});
      q := Keep(q, toRemove);
      todo := todo - {lang};
    }
    assert playlists.Keys - todo == playlists.Keys;
  }

  /** The saved-track walk: every track of every page is appended to the
      existing queue, pages in order, without clearing it first. */
  method AppendSaved(queue: seq<Track>, pages: seq<seq<Track>>) returns (q: seq<Track>)
    ensures q == queue + Concat(pages)
  {
    q := queue;
    var p := 0;
    while p < |pages|
      invariant p <= |pages|
      invariant q == queue + Concat(pages[..p])
    {
      var page := pages[p];
      var i := 0;
      while i < |page|
        invariant i <= |page|
        invariant q == queue + Concat(pages[..p]) + page[..i]
      {
        assert page[..i + 1] == page[..i] + [page[i]];
        q := q + [page[i]];
        i := i + 1;
      }
      assert page[..i] == page;
      ConcatStep(pages, p);
      p := p + 1;
    }
    assert pages[..p] == pages;
  }

  /** An in-place shuffle by swaps. The random draws are an input: step `i`
      swaps position `i` with position `draw(i) % (i + 1)`. Whatever the
      draws, the result is a rearrangement of the queue. */
  method Shuffle(queue: seq<Track>, draw: nat -> nat) returns (q: seq<Track>)
    ensures |q| == |queue|
    ensures multiset(q) == multiset(queue)
  {
    q := queue;
    var i := |q|;
    while i > 1
      invariant 0 <= i <= |q|
      invariant |q| == |queue|
      invariant multiset(q) == multiset(queue)
    {
      i := i - 1;
      var j := draw(i) % (i + 1);
      var a, b := q[i], q[j];
      q := q[i := b][j := a];
    }
  }

  /** The whole `callback` after authentication: discover the language
      playlists, append the saved tracks, drop the ones already filed in a
      language playlist, shuffle. */
  method Callback(s: State, playlistPages: seq<seq<PlaylistItem>>, savedPages: seq<seq<Track>>,
                  tracksOf: PlaylistId -> set<TrackId>, draw: nat -> nat)
    returns (r: State)
    ensures r.playlists == DiscoverPages(s.playlists, playlistPages)
    ensures |r.queue| <= |s.queue| + |Concat(savedPages)|
    ensures forall t: Track :: multiset(r.queue)[t] ==
              if t.id in Removed(r.playlists, tracksOf, r.playlists.Keys) then 0
              else multiset(s.queue + Concat(savedPages))[t]
  {
    var labels := GetPlaylists(s.playlists, playlistPages);
    var q := AppendSaved(s.queue, savedPages);
    var filtered := Dedup(q, labels, tracksOf);
    forall t: Track
      ensures multiset(filtered)[t] ==
                if t.id in Removed(labels, tracksOf, labels.Keys) then 0 else multiset(q)[t]
    {
      KeepCounts(q, Removed(labels, tracksOf, labels.Keys), t);
    }
    var shuffled := Shuffle(filtered, draw);
    r := State(shuffled, labels);
  }
}
