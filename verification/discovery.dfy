/** Discovery of the language playlists (`get_playlists`).

    The user's playlists are walked page by page; a playlist is a language
    playlist when its name is non-empty and ends in a space. Each such
    playlist is recorded in the label map under its full name (trailing
    space included), so a name seen again later overwrites the earlier id.
    Nothing is ever removed from the map.
 */
module Discovery {
  import opened Types
  import opened Seqs

  /** The naming convention that marks a language playlist. */
  predicate IsLanguageName(name: string)
  {
    |name| > 0 && name[|name| - 1] == ' '
  }

  /** The effect of one playlist item on the map. */
  function Record(m: map<Label, PlaylistId>, item: PlaylistItem): (r: map<Label, PlaylistId>)
    ensures IsLanguageName(item.name) ==> item.name in r && r[item.name] == item.id
    ensures !IsLanguageName(item.name) ==> r == m
    ensures forall k :: k in m && k != item.name ==> k in r && r[k] == m[k]
    ensures forall k :: k in r ==> k in m || (k == item.name && IsLanguageName(k))
  {
    if |item.name| == 0 then m
    else if item.name[|item.name| - 1] == ' ' then m[item.name := item.id]
    else m
  }

  /** The map after the items have been walked in order, starting from `m`. */
  function DiscoverItems(m: map<Label, PlaylistId>, items: seq<PlaylistItem>): (r: map<Label, PlaylistId>)
    decreases |items|
  {
    if |items| == 0 then m
    else Record(DiscoverItems(m, items[..|items| - 1]), items[|items| - 1])
  }

  /** The map after all pages have been walked. */
  function DiscoverPages(m: map<Label, PlaylistId>, pages: seq<seq<PlaylistItem>>): (r: map<Label, PlaylistId>)
  {
    DiscoverItems(m, Concat(pages))
  }

  /** Some item carries `k` as a language-playlist name. */
  predicate Names(items: seq<PlaylistItem>, k: Label)
  {
    IsLanguageName(k) && exists i :: 0 <= i < |items| && items[i].name == k
  }

  /** A key is present after discovery exactly when it was present before or
      some walked item is a language playlist of that name. */
  lemma {:induction false} DiscoverKeys(m: map<Label, PlaylistId>, items: seq<PlaylistItem>, k: Label)
    ensures k in DiscoverItems(m, items) <==> k in m || Names(items, k)
    decreases |items|
  {
    if |items| > 0 {
      var init := items[..|items| - 1];
      DiscoverKeys(m, init, k);
      if Names(init, k) {
        var i :| 0 <= i < |init| && init[i].name == k;
        assert items[i].name == k;
      }
    }
  }

  /** A language playlist that is the last item of its name determines the
      id stored under that name: the last occurrence wins. */
  lemma {:induction false} DiscoverLastWins(m: map<Label, PlaylistId>, items: seq<PlaylistItem>, i: nat)
    requires i < |items|
    requires IsLanguageName(items[i].name)
    requires forall j :: i < j < |items| ==> items[j].name != items[i].name
    ensures items[i].name in DiscoverItems(m, items)
    ensures DiscoverItems(m, items)[items[i].name] == items[i].id
    decreases |items|
  {
    if i < |items| - 1 {
      DiscoverLastWins(m, items[..|items| - 1], i);
    }
  }

  /** An entry no walked language playlist names keeps its value. */
  lemma {:induction false} DiscoverKeepsOthers(m: map<Label, PlaylistId>, items: seq<PlaylistItem>, k: Label)
    requires k in m
    requires !Names(items, k)
    ensures k in DiscoverItems(m, items)
    ensures DiscoverItems(m, items)[k] == m[k]
    decreases |items|
  {
    if |items| > 0 {
      DiscoverKeepsOthers(m, items[..|items| - 1], k);
    }
  }

  /** Discovery only adds or overwrites entries: every earlier key survives. */
  lemma DiscoverKeepsKeys(m: map<Label, PlaylistId>, items: seq<PlaylistItem>)
    ensures m.Keys <= DiscoverItems(m, items).Keys
  {
    forall k | k in m
      ensures k in DiscoverItems(m, items)
    {
      DiscoverKeys(m, items, k);
    }
  }

  /** One more item extends the walk by one `Record` step. */
  lemma DiscoverStep(m: map<Label, PlaylistId>, items: seq<PlaylistItem>, item: PlaylistItem)
    ensures DiscoverItems(m, items + [item]) == Record(DiscoverItems(m, items), item)
  {
    assert (items + [item])[..|items|] == items;
  }

  /** The paginated walk of `get_playlists`: every item of every page is
      filtered into the map, pages in order. */
  method GetPlaylists(m: map<Label, PlaylistId>, pages: seq<seq<PlaylistItem>>)
    returns (r: map<Label, PlaylistId>)
    ensures r == DiscoverPages(m, pages)
  {
    r := m;
    var p := 0;
    while p < |pages|
      invariant p <= |pages|
      invariant r == DiscoverItems(m, Concat(pages[..p]))
    {
      var page := pages[p];
      var i := 0;
      assert Concat(pages[..p]) + page[..i] == Concat(pages[..p]);
      while i < |page|
        invariant i <= |page|
        invariant r == DiscoverItems(m, Concat(pages[..p]) + page[..i])
      {
        var item := page[i];
        DiscoverStep(m, Concat(pages[..p]) + page[..i], item);
        assert Concat(pages[..p]) + page[..i + 1] == Concat(pages[..p]) + page[..i] + [item];
        if |item.name| == 0 {
          i := i + 1;
          continue;
        }
        if item.name[|item.name| - 1] == ' ' {
          r := r[item.name := item.id];
        }
        i := i + 1;
      }
      assert page[..i] == page;
      ConcatStep(pages, p);
      p := p + 1;
    }
    assert pages[..p] == pages;
  }
}
