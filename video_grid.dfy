/** components/VideoGrid.tsx: the decisions of the grid view. Which item to resume
    (and highlight), what a click does, the progress bar and duration label of a card,
    and when the grid asks for more. Rendering and scrolling are not modelled. */
module VideoGrid {
  import opened Types
  import opened Strings
  import opened Seqs

  /** `UserData?.PlaybackPositionTicks || 0`. */
  function Position(v: Item): nat {
    if v.userData.Some? then NumOrZero(v.userData.value.playbackPositionTicks) else 0
  }

  predicate InProgress(v: Item) {
    Position(v) > 0
  }

  /** The last-played time of an item, 0 when it has none; a time at or below 0
      never wins the search. */
  function LastPlayed(v: Item): int {
    if v.userData.Some? && v.userData.value.lastPlayedDate.Some? then v.userData.value.lastPlayedDate.value else 0
  }

  /** The item to resume: the first one in progress; failing that, the first of those
      played most recently (with a positive time); failing that, none (-1). */
  predicate IsResumeTarget(videos: seq<Item>, t: int) {
    && -1 <= t < |videos|
    && if exists i :: 0 <= i < |videos| && InProgress(videos[i]) then
         && 0 <= t && InProgress(videos[t])
         && (forall j :: 0 <= j < t ==> !InProgress(videos[j]))
       else if exists i :: 0 <= i < |videos| && LastPlayed(videos[i]) > 0 then
         && 0 <= t && LastPlayed(videos[t]) > 0
         && (forall j :: 0 <= j < |videos| ==> LastPlayed(videos[j]) <= LastPlayed(videos[t]))
         && (forall j :: 0 <= j < t ==> LastPlayed(videos[j]) < LastPlayed(videos[t]))
       else t == -1
  }

  /** A list has at most one resume target (`FindResumeTarget` gives one). */
  lemma ResumeTargetUnique(videos: seq<Item>, a: int, b: int)
    requires IsResumeTarget(videos, a) && IsResumeTarget(videos, b)
    ensures a == b
  {
  }

  /** The resume search of the grid's effect: `findIndex` for an item in progress,
      then a scan that keeps the strictly latest last-played time. */
  method FindResumeTarget(videos: seq<Item>) returns (targetIndex: int)
    ensures IsResumeTarget(videos, targetIndex)
  {
    var i := 0;
    while i < |videos| && !InProgress(videos[i])
      invariant 0 <= i <= |videos|
      invariant forall j :: 0 <= j < i ==> !InProgress(videos[j])
    {
      i := i + 1;
    }
    targetIndex := if i < |videos| then i else -1;

    if targetIndex == -1 {
      var latestDate := 0;
      var idx := 0;
      while idx < |videos|
        invariant 0 <= idx <= |videos|
        invariant targetIndex == -1 ==> latestDate == 0 && forall j :: 0 <= j < idx ==> LastPlayed(videos[j]) <= 0
        invariant targetIndex != -1 ==>
                    && 0 <= targetIndex < idx && latestDate == LastPlayed(videos[targetIndex]) > 0
                    && (forall j :: 0 <= j < idx ==> LastPlayed(videos[j]) <= latestDate)
                    && (forall j :: 0 <= j < targetIndex ==> LastPlayed(videos[j]) < latestDate)
      {
        var v := videos[idx];
        if v.userData.Some? && v.userData.value.lastPlayedDate.Some? {
          var d := v.userData.value.lastPlayedDate.value;
          if d > latestDate {
            latestDate := d;
            targetIndex := idx;
          }
        }
        idx := idx + 1;
      }
      if targetIndex != -1 {
        assert !exists i :: 0 <= i < |videos| && InProgress(videos[i]);
      }
    }
  }

  /** The grid's highlighted card. */
  class GridView {
    var highlightedIndex: Option<int>

    constructor ()
      ensures highlightedIndex.None?
    {
      highlightedIndex := None;
    }

    /** The effect that runs when the list or the loading flag changes: with items
        and not loading, the resume target, if any, becomes the highlight; otherwise
        the highlight stays as it was. */
    method OnVideosChanged(videos: seq<Item>, isLoading: bool)
      modifies this
      ensures |videos| > 0 && !isLoading && highlightedIndex != old(highlightedIndex) ==>
                highlightedIndex.Some? && IsResumeTarget(videos, highlightedIndex.value)
      ensures |videos| > 0 && !isLoading ==>
                forall t :: IsResumeTarget(videos, t) ==>
                  highlightedIndex == if t != -1 then Some(t) else old(highlightedIndex)
      ensures |videos| == 0 || isLoading ==> highlightedIndex == old(highlightedIndex)
    {
      if |videos| > 0 && !isLoading {
        var targetIndex := FindResumeTarget(videos);
        if targetIndex != -1 {
          highlightedIndex := Some(targetIndex);
        }
        forall t | IsResumeTarget(videos, t)
          ensures t == targetIndex
        {
          ResumeTargetUnique(videos, t, targetIndex);
        }
      }
    }
  }

  /** Types the grid opens as folders: Emby's capitalised ones and Plex's `show` and
      `season`. */
  const FOLDER_TYPES := ["Series", "Season", "Folder", "CollectionFolder", "BoxSet", "show", "season"]

  datatype ClickAction = Navigate(id: string, title: Option<string>) | Select(index: nat)

  /** `handleItemClick`: a folder is opened when the grid can navigate; anything
      else, or any item when it cannot, is played from its index. */
  function HandleItemClick(item: Item, index: nat, canNavigate: bool): (a: ClickAction)
    ensures a.Navigate? <==> item.itemType in FOLDER_TYPES && canNavigate
    ensures a.Navigate? ==> a.id == item.id && a.title == item.name
    ensures a.Select? ==> a.index == index
  {
    if item.itemType in FOLDER_TYPES && canNavigate then Navigate(item.id, item.name) else Select(index)
  }

  /** Plex's lower-case `folder` is not in the grid's list: the grid plays such an
      item instead of opening it, although the Plex filter treats it as a folder. */
  lemma PlexFolderIsSelected(item: Item, index: nat)
    requires item.itemType == "folder"
    ensures HandleItemClick(item, index, true) == Select(index)
  {
    assert "folder" !in FOLDER_TYPES;
  }

  /** `Math.round(a / b)` for a >= 0, b > 0: the nearest integer, halves rounded up. */
  function RoundDiv(a: nat, b: nat): (r: nat)
    requires b > 0
    ensures 2 * a - b < 2 * b * r <= 2 * a + b
  {
    var n := 2 * a + b;
    var d := 2 * b;
    var r := n / d;
    assert n == d * r + n % d && 0 <= n % d < d;
    r
  }

  /** The progress bar of a card, in percent. */
  function Progress(item: Item): (p: nat)
    ensures p <= 100
    ensures Position(item) == 0 || NumOrZero(item.runTimeTicks) == 0 ==> p == 0
    ensures Position(item) > 0 && NumOrZero(item.runTimeTicks) > 0 ==>
              p == Min(RoundDiv(100 * Position(item), item.runTimeTicks.value), 100)
  {
    var pos := Position(item);
    var runtime := NumOrZero(item.runTimeTicks);
    if pos > 0 && runtime > 0 then Min(RoundDiv(100 * pos, runtime), 100) else 0
  }

  /** r <= k scaled by a positive factor. */
  lemma ScaleAtMost(b: nat, r: nat, k: nat)
    requires r <= k
    ensures b * r <= b * k
  {
  }

  /** A position at or past the runtime shows a full bar; one of at least half a
      percent shows a bar at all (the "watching" badge). */
  lemma ProgressBounds(item: Item)
    requires Position(item) > 0 && NumOrZero(item.runTimeTicks) > 0
    ensures Position(item) >= item.runTimeTicks.value ==> Progress(item) == 100
    ensures 200 * Position(item) >= item.runTimeTicks.value ==> Progress(item) >= 1
    ensures 200 * Position(item) < item.runTimeTicks.value ==> Progress(item) == 0
  {
    var pos := Position(item);
    var rt := item.runTimeTicks.value;
    var r := RoundDiv(100 * pos, rt);
    if pos >= rt && r < 100 {
      ScaleAtMost(2 * rt, r, 99);
      assert false;
    }
    if 200 * pos >= rt && r == 0 {
      assert false;
    }
    if 200 * pos < rt && r > 0 {
      ScaleAtMost(2 * rt, 1, r);
      assert false;
    }
  }

  /** Ticks in one minute: 10^7 ticks per second. */
  const TICKS_PER_MINUTE := 600000000

  /** `formatTime`: nothing for no or zero ticks, else the rounded minutes and "m". */
  function FormatTime(ticks: Option<nat>): (s: string)
    ensures s == "" <==> NumOrZero(ticks) == 0
    ensures s != "" ==> s[|s| - 1] == 'm' && AllDigits(s[..|s| - 1])
                        && ParseNat(s[..|s| - 1]) == RoundDiv(ticks.value, TICKS_PER_MINUTE)
    ensures s != "" && s[0] == '0' ==> s == "0m"
  {
    if NumOrZero(ticks) == 0 then ""
    else
      var minutes := RoundDiv(ticks.value, TICKS_PER_MINUTE);
      var s := NatToString(minutes) + "m";
      ParseNatToString(minutes);
      assert s[..|s| - 1] == NatToString(minutes);
      s
  }

  /** The grid's load-more trigger: only the latest feed pages from the grid. */
  predicate GridRequestsMore(intersecting: bool, hasMore: bool, isLoading: bool, feedType: FeedType) {
    intersecting && hasMore && !isLoading && feedType == Latest
  }
}
