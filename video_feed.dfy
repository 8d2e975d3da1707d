/** components/VideoFeed.tsx: the decisions of the full-screen feed. The active card
    follows the card that scrolls into view; reaching one of the last cards asks for
    more; the end of a video moves on or asks for more; only the neighbourhood of
    the active card is rendered. Scrolling and timers are not modelled. */
module VideoFeed {
  import opened Types
  import EmbyService
  import VideoGrid

  /** What `handleNextVideo` does when a video ends. */
  datatype NextAction = ScrollTo(target: int) | LoadMore | Nothing

  /** The feed's state: the index of the card in view. */
  class FeedView {
    var activeIndex: int

    constructor (initialIndex: int)
      ensures activeIndex == initialIndex
    {
      activeIndex := initialIndex;
    }

    /** `handleIntersect` for one card that came into view: it becomes active, and
        more is requested from the latest and random feeds at one of the last two
        cards, when there is more and nothing is loading. */
    method OnIntersect(index: nat, count: nat, feedType: FeedType, hasMore: bool, isLoading: bool)
      returns (loadMore: bool)
      modifies this
      ensures activeIndex == index
      ensures loadMore <==> FeedRequestsMore(index, count, feedType, hasMore, isLoading)
    {
      activeIndex := index;
      loadMore := (feedType == Latest || feedType == Random) && index >= count - 2 && hasMore && !isLoading;
    }

    /** `handleNextVideo`: scroll to the next card while there is one (and the list
        is mounted); at the last card ask for more when there is more. */
    method NextVideo(count: nat, hasMore: bool, mounted: bool) returns (action: NextAction)
      ensures action.ScrollTo? <==> activeIndex < count - 1 && mounted
      ensures action.ScrollTo? ==> action.target == activeIndex + 1 && action.target < count
      ensures action == LoadMore <==> activeIndex >= count - 1 && hasMore
      ensures action == Nothing <==> (activeIndex < count - 1 && !mounted) || (activeIndex >= count - 1 && !hasMore)
    {
      if activeIndex < count - 1 && mounted {
        action := ScrollTo(activeIndex + 1);
      } else if activeIndex >= count - 1 && hasMore {
        action := LoadMore;
      } else {
        action := Nothing;
      }
    }
  }

  /** The load-more test of `handleIntersect` for the card at `index` of `count`. */
  predicate FeedRequestsMore(index: int, count: nat, feedType: FeedType, hasMore: bool, isLoading: bool) {
    (feedType == Latest || feedType == Random) && index >= count - 2 && hasMore && !isLoading
  }

  /** A request for more comes only from one of the last two cards of a latest or
      random feed, and always does when there is more and nothing is loading; the
      favourites feed never pages here. */
  lemma IntersectLoadsOnlyNearEnd(index: nat, count: nat, feedType: FeedType, hasMore: bool, isLoading: bool)
    ensures FeedRequestsMore(index, count, feedType, hasMore, isLoading) ==> index + 2 >= count && feedType != Favorites
    ensures feedType == Favorites ==> !FeedRequestsMore(index, count, feedType, hasMore, isLoading)
    ensures count >= 2 && (index == count - 1 || index == count - 2) && feedType != Favorites && hasMore && !isLoading ==>
              FeedRequestsMore(index, count, feedType, hasMore, isLoading)
  {
  }

  /** The grid pages only the latest feed; whenever it asks for more, the feed would
      too at its last card, while the random feed pages only in the full-screen view. */
  lemma GridPagesOnlyLatest(count: nat, hasMore: bool, isLoading: bool, feedType: FeedType)
    requires count > 0
    ensures VideoGrid.GridRequestsMore(true, hasMore, isLoading, feedType) ==>
              FeedRequestsMore(count - 1, count, feedType, hasMore, isLoading)
    ensures feedType == Random && hasMore && !isLoading ==>
              !VideoGrid.GridRequestsMore(true, hasMore, isLoading, feedType)
              && FeedRequestsMore(count - 1, count, feedType, hasMore, isLoading)
  {
  }

  /** A real card is rendered for the active index and its two neighbours only. */
  predicate RendersCard(activeIndex: int, index: int) {
    -1 <= activeIndex - index <= 1
  }

  /** At most three cards are rendered at a time, and the active one always is. */
  lemma AtMostThreeCards(activeIndex: int, count: nat)
    ensures |set i | 0 <= i < count && RendersCard(activeIndex, i)| <= 3
    ensures 0 <= activeIndex < count ==> activeIndex in set i | 0 <= i < count && RendersCard(activeIndex, i)
  {
    var rendered := set i | 0 <= i < count && RendersCard(activeIndex, i);
    var window := {activeIndex - 1, activeIndex, activeIndex + 1};
    assert rendered <= window;
    assert window == rendered + (window - rendered);
  }

  /** The arguments of the favourite toggle: the item and whether it is a favourite now. */
  function ToggleArgs(item: Item, favoriteIds: set<string>): (args: (string, bool))
    ensures args.0 == item.id
    ensures args.1 <==> item.id in favoriteIds
  {
    (item.id, item.id in favoriteIds)
  }

  /** A hypothetical composition: no view calls the standalone service's toggle. The
      feed passes the current state, which the clients read as "remove when a
      favourite"; the standalone service reads the same flag as "make a favourite",
      so wired to it a favourite would be added again and any other item removed. */
  lemma StandaloneServiceReadsFlagAsTarget(serverUrl: string, userId: string, item: Item, favoriteIds: set<string>)
    ensures var args := ToggleArgs(item, favoriteIds);
            var request := EmbyService.ToggleFavorite(serverUrl, userId, args.0, args.1);
            (item.id in favoriteIds ==> request.0 == Post)
            && (item.id !in favoriteIds ==> request.0 == Delete)
  {
  }

  /** The empty state: no videos and not loading. */
  predicate ShowsEmptyState(count: nat, isLoading: bool) {
    count == 0 && !isLoading
  }

  /** The end marker of the latest feed. */
  predicate ShowsEndMarker(feedType: FeedType, hasMore: bool, count: nat) {
    feedType == Latest && !hasMore && count > 0
  }

  /** The loading spinner below the latest feed. */
  predicate ShowsMoreSpinner(feedType: FeedType, hasMore: bool) {
    feedType == Latest && hasMore
  }

  /** The end marker never shows beside the empty state or the spinner. */
  lemma EndMarkerExclusive(feedType: FeedType, hasMore: bool, count: nat, isLoading: bool)
    ensures ShowsEndMarker(feedType, hasMore, count) ==>
              !ShowsEmptyState(count, isLoading) && !ShowsMoreSpinner(feedType, hasMore)
  {
  }
}
