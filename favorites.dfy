/** The favourites emulation both clients share: the playlist that holds a scope's
    favourites is named "Tok-" + the scope, and the favourites feed is that playlist,
    newest entry first, sliced on the client. */
module Favorites {
  import opened Types
  import opened Seqs

  /** The scope a favourites call runs in when no library is selected. */
  const DEFAULT_SCOPE := "收藏"

  const PLAYLIST_PREFIX := "Tok-"

  /** `library ? library.Name : "收藏"`. */
  function ScopeName(library: Option<Library>): string {
    if library.Some? then library.value.name else DEFAULT_SCOPE
  }

  /** `Tok-${libraryName}`: the title of the playlist that holds the scope's favourites. */
  function PlaylistTitle(scope: string): (title: string)
    ensures StartsWithPrefix(title) && title[|PLAYLIST_PREFIX|..] == scope
  {
    PLAYLIST_PREFIX + scope
  }

  predicate StartsWithPrefix(s: string) {
    PLAYLIST_PREFIX <= s
  }

  /** The title determines the scope's name, and without a library that name is "收藏".
      It does not determine the library: see `TitleCollisions`. */
  lemma PlaylistTitleDeterminesScope(a: Option<Library>, b: Option<Library>)
    requires PlaylistTitle(ScopeName(a)) == PlaylistTitle(ScopeName(b))
    ensures ScopeName(a) == ScopeName(b)
    ensures a.None? ==> PlaylistTitle(ScopeName(b)) == "Tok-收藏"
  {
    assert ScopeName(a) == PlaylistTitle(ScopeName(a))[4..];
  }

  /** Libraries are told apart by name only: two libraries of the same name share one
      favourites playlist, and a library named "收藏" shares the one used when no
      library is selected. */
  lemma TitleCollisions(a: Library, b: Library)
    ensures a.name == b.name ==> PlaylistTitle(ScopeName(Some(a))) == PlaylistTitle(ScopeName(Some(b)))
    ensures a.name == DEFAULT_SCOPE ==> PlaylistTitle(ScopeName(Some(a))) == PlaylistTitle(ScopeName(None))
    ensures PlaylistTitle(ScopeName(Some(a))) == PlaylistTitle(ScopeName(Some(b))) ==> a.name == b.name
  {
    if PlaylistTitle(ScopeName(Some(a))) == PlaylistTitle(ScopeName(Some(b))) {
      PlaylistTitleDeterminesScope(Some(a), Some(b));
    }
  }

  /** The favourites page: `filtered.reverse().slice(skip, skip + limit)`, with the
      cursor moved by `limit` and the total the length of the whole filtered list. */
  function ReversedPage(filtered: seq<Item>, skip: nat, limit: nat): (page: VideoResponse)
    ensures |page.items| <= limit
    ensures |page.items| == if skip <= |filtered| then Min(limit, |filtered| - skip) else 0
    ensures forall k :: 0 <= k < |page.items| ==> page.items[k] == filtered[|filtered| - 1 - (skip + k)]
    ensures page.nextStartIndex == skip + limit && page.totalCount == |filtered|
  {
    ReverseAt(filtered);
    VideoResponse(Slice(Reverse(filtered), skip, skip + limit), skip + limit, |filtered|)
  }

  /** Consecutive favourites pages cover the reversed list without gap or overlap. */
  lemma {:induction false} ConsecutivePages(filtered: seq<Item>, skip: nat, limit: nat)
    ensures var first := ReversedPage(filtered, skip, limit);
            var next := ReversedPage(filtered, first.nextStartIndex, limit);
            first.items + next.items == Slice(Reverse(filtered), skip, skip + 2 * limit)
  {
    ReverseAt(filtered);
    var first := ReversedPage(filtered, skip, limit);
    var next := ReversedPage(filtered, skip + limit, limit);
    var whole := Slice(Reverse(filtered), skip, skip + 2 * limit);
    assert |first.items + next.items| == |whole|;
    forall k | 0 <= k < |whole|
      ensures (first.items + next.items)[k] == whole[k]
    {
      if k >= limit {
        assert (first.items + next.items)[k] == next.items[k - limit];
      }
    }
  }

  /** The client side of the favourites feed, in the source's steps: copy the filtered
      list, reverse it in place, slice it. */
  method PageFavorites(filtered: seq<Item>, skip: nat, limit: nat) returns (page: VideoResponse)
    ensures page == ReversedPage(filtered, skip, limit)
  {
    var a := new Item[|filtered|](i requires 0 <= i < |filtered| => filtered[i]);
    assert a[..] == filtered;
    ReverseInPlace(a);
    page := VideoResponse(Slice(a[..], skip, skip + limit), skip + limit, a.Length);
  }
}
