/** services/EmbyClient.ts: the Emby backend behind the shared client contract. The
    network is cut at its replies: the items of the favourites playlist and the
    items and total of one listing request are given to `GetVideos`. */
module EmbyClient {
  import opened Types
  import opened Strings
  import opened Seqs
  import opened Favorites
  import EmbyService

  /** Item types that are navigated into rather than played. */
  const NAV_FOLDER_TYPES := ["Series", "Season", "Folder", "CollectionFolder", "BoxSet"]

  const UNNAMED := "未命名"

  const LEAF_TYPES := "Movie,Video,Episode"
  const FOLDER_LIBRARY_TYPES := "Movie,Video,Episode,Folder,BoxSet"
  const CHILD_TYPES := "Movie,Video,Episode,Folder,BoxSet,Series,Season"
  const FIELDS := "MediaSources,Width,Height,Overview,UserData,SeriesName,ParentIndexNumber,IndexNumber,Type"

  function CleanUrl(config: ServerConfig): string {
    StripTrailingSlash(config.url)
  }

  /** `formatItemName`: episodes become "S01E03. Title"; other items keep their name. */
  function FormatItemName(item: Item): (name: string)
    ensures name != ""
  {
    if item.itemType == "Episode" then
      var index := if item.indexNumber.Some? then Pad2(item.indexNumber.value) else "--";
      var season := if item.parentIndexNumber.Some? then "S" + Pad2(item.parentIndexNumber.value) else "";
      season + "E" + index + ". " + TemplateText(item.name)
    else if Truthy(item.name) then item.name.value
    else UNNAMED
  }

  /** An episode's name reads back as its season, its index and its title. */
  lemma EpisodeNameDecodes(item: Item)
    requires item.itemType == "Episode"
    requires item.parentIndexNumber.Some? && item.parentIndexNumber.value < 100
    requires item.indexNumber.Some? && item.indexNumber.value < 100
    ensures var name := FormatItemName(item);
            |name| >= 8 && name[0] == 'S' && name[3] == 'E' && name[6..8] == ". "
            && AllDigits(name[1..3]) && ParseNat(name[1..3]) == item.parentIndexNumber.value
            && AllDigits(name[4..6]) && ParseNat(name[4..6]) == item.indexNumber.value
            && name[8..] == TemplateText(item.name)
  {
    var s := Pad2(item.parentIndexNumber.value);
    var i := Pad2(item.indexNumber.value);
    var name := FormatItemName(item);
    assert name == "S" + s + "E" + i + ". " + TemplateText(item.name);
    assert name[1..3] == s;
    assert name[4..6] == i;
  }

  /** Without a season the "Sxx" part is left out; without an index it reads "--". */
  lemma EpisodeNameWithoutSeason(item: Item)
    requires item.itemType == "Episode" && item.parentIndexNumber.None?
    ensures var name := FormatItemName(item);
            name[0] == 'E'
            && (item.indexNumber.None? ==> name == "E--. " + TemplateText(item.name))
            && (item.indexNumber.Some? && item.indexNumber.value < 100 ==>
                  && |name| >= 5 && name[3..5] == ". " && name[5..] == TemplateText(item.name)
                  && AllDigits(name[1..3]) && ParseNat(name[1..3]) == item.indexNumber.value)
  {
    if item.indexNumber.Some? && item.indexNumber.value < 100 {
      var i := Pad2(item.indexNumber.value);
      var name := FormatItemName(item);
      assert name == "E" + i + ". " + TemplateText(item.name);
      assert name[1..3] == i;
    }
  }

  /** With a season and no index the name reads "Sxx" + "E--. " + the title. */
  lemma EpisodeNameWithoutIndex(item: Item)
    requires item.itemType == "Episode" && item.indexNumber.None?
    requires item.parentIndexNumber.Some? && item.parentIndexNumber.value < 100
    ensures var name := FormatItemName(item);
            && |name| >= 8 && name[0] == 'S' && name[3..8] == "E--. "
            && AllDigits(name[1..3]) && ParseNat(name[1..3]) == item.parentIndexNumber.value
            && name[8..] == TemplateText(item.name)
  {
    var s := Pad2(item.parentIndexNumber.value);
    var name := FormatItemName(item);
    assert name == "S" + s + "E--. " + TemplateText(item.name);
    assert name[1..3] == s;
  }

  /** A non-episode keeps a non-empty name and is otherwise called "未命名". */
  lemma NonEpisodeName(item: Item)
    requires item.itemType != "Episode"
    ensures FormatItemName(item) == if Truthy(item.name) then item.name.value else "未命名"
  {
  }

  /** Season 1, episode 3, "Pilot" gives "S01E03. Pilot". */
  lemma PilotExample(item: Item)
    requires item.itemType == "Episode" && item.name == Some("Pilot")
    requires item.parentIndexNumber == Some(1) && item.indexNumber == Some(3)
    ensures FormatItemName(item) == "S01E03. Pilot"
  {
    assert Pad2(1) == "01";
    assert Pad2(3) == "03";
  }

  /** The test `applyOrientationFilter` applies to one item when the mode is not `both`. */
  predicate KeepsOrientation(item: Item, mode: OrientationMode) {
    if item.itemType in NAV_FOLDER_TYPES then true
    else
      var w := NumOrZero(item.width);
      var h := NumOrZero(item.height);
      if w == 0 || h == 0 then true
      else if mode == Vertical then 5 * h >= 4 * w
      else if mode == Horizontal then w > h
      else true
  }

  /** `applyOrientationFilter`: folders and items of unknown size always pass;
      otherwise `vertical` keeps h >= 0.8 * w and `horizontal` keeps w > h. */
  function ApplyOrientationFilter(items: seq<Item>, mode: OrientationMode): (r: seq<Item>)
    ensures mode == Both ==> r == items
    ensures IsSubsequence(r, items)
    ensures forall i :: 0 <= i < |r| ==> r[i] in items
    ensures forall x :: x in items && x.itemType in NAV_FOLDER_TYPES ==> x in r
    ensures forall x :: x in items && (NumOrZero(x.width) == 0 || NumOrZero(x.height) == 0) ==> x in r
    ensures forall x :: x in items && x.itemType !in NAV_FOLDER_TYPES
                        && NumOrZero(x.width) > 0 && NumOrZero(x.height) > 0 ==>
              (mode == Vertical ==> (x in r <==> 5 * NumOrZero(x.height) >= 4 * NumOrZero(x.width)))
              && (mode == Horizontal ==> (x in r <==> NumOrZero(x.width) > NumOrZero(x.height)))
  {
    if mode == Both then SubsequenceReflexive(items); items
    else
      var r := Filter(items, Keep(mode));
      assert forall x :: x in r ==> KeepsOrientation(x, mode);
      r
  }

  /** The filter test as a function value; `both` keeps everything. */
  function Keep(mode: OrientationMode): Item -> bool {
    x => mode == Both || KeepsOrientation(x, mode)
  }

  /** `applyOrientationFilter` is one `filter` with `Keep`, in every mode. */
  lemma OrientationFilterIsFilter(items: seq<Item>, mode: OrientationMode)
    ensures ApplyOrientationFilter(items, mode) == Filter(items, Keep(mode))
  {
  }

  /** The item types listed at a library's root. */
  function RootItemTypes(library: Option<Library>): string {
    if library.None? then LEAF_TYPES
    else
      var collectionType := ToLowerAscii(library.value.collectionType.GetOr(""));
      if collectionType == "tvshows" || collectionType == "show" then "Series"
      else if collectionType == "folders" then FOLDER_LIBRARY_TYPES
      else LEAF_TYPES
  }

  /** What the listing query of `getVideos` promises. */
  predicate ItemsQuerySpec(q: Query, navParentId: Option<string>, library: Option<Library>,
                           feedType: FeedType, skip: nat, limit: nat) {
    && DistinctKeys(q)
    && Lookup(q, "Limit") == Some(NatToString(2 * limit))
    && Lookup(q, "StartIndex") == Some(NatToString(skip))
    && (Truthy(navParentId) ==>
          && Lookup(q, "ParentId") == Some(navParentId.value)
          && Lookup(q, "Recursive") == Some("false")
          && Lookup(q, "SortBy") == Some("SortName")
          && Lookup(q, "SortOrder") == None
          && Lookup(q, "IncludeItemTypes") == Some(CHILD_TYPES))
    && (!Truthy(navParentId) ==>
          && Lookup(q, "ParentId") == (if library.Some? then Some(library.value.id) else None)
          && Lookup(q, "Recursive") == Some("true")
          && Lookup(q, "SortBy") == Some(if feedType == Random then "Random" else "DateCreated")
          && Lookup(q, "SortOrder") == Some("Descending")
          && Lookup(q, "IncludeItemTypes") == Some(RootItemTypes(library)))
  }

  /** The four parameters every latest/random listing starts with. */
  function ListingBase(skip: nat, limit: nat): (q: Query)
    ensures |q| == 4 && DistinctKeys(q)
    ensures q[0].0 == "Fields" && q[1] == ("Limit", NatToString(2 * limit))
    ensures q[2] == ("StartIndex", NatToString(skip)) && q[3].0 == "EnableImageTypes"
  {
    [ ("Fields", FIELDS), ("Limit", NatToString(2 * limit)), ("StartIndex", NatToString(skip)),
      ("EnableImageTypes", "Primary,Backdrop,Banner,Thumb") ]
  }

  /** The listing of a navigated folder's direct children, by name. */
  method ChildListingQuery(navParentId: Option<string>, library: Option<Library>,
                           feedType: FeedType, skip: nat, limit: nat) returns (q: Query)
    requires Truthy(navParentId)
    ensures ItemsQuerySpec(q, navParentId, library, feedType, skip, limit)
  {
    q := ListingBase(skip, limit);
    q := q + [("ParentId", navParentId.value)];
    q := q + [("Recursive", "false")];
    q := q + [("SortBy", "SortName")];
    q := q + [("IncludeItemTypes", CHILD_TYPES)];
    assert DistinctKeys(q);
    LookupFound(q, 1);
    LookupFound(q, 2);
    LookupFound(q, 4);
    LookupFound(q, 5);
    LookupFound(q, 6);
    LookupFound(q, 7);
    LookupMissing(q, "SortOrder");
  }

  /** The four parameters that end a library-root listing. */
  function RootTail(includeTypes: string, feedType: FeedType): Query {
    [ ("IncludeItemTypes", includeTypes), ("Recursive", "true"),
      ("SortBy", if feedType == Random then "Random" else "DateCreated"), ("SortOrder", "Descending") ]
  }

  lemma LibraryRootMeetsSpec(q: Query, navParentId: Option<string>, library: Option<Library>,
                             feedType: FeedType, skip: nat, limit: nat)
    requires !Truthy(navParentId) && library.Some?
    requires q == ListingBase(skip, limit) + [("ParentId", library.value.id)]
                  + RootTail(RootItemTypes(library), feedType)
    ensures ItemsQuerySpec(q, navParentId, library, feedType, skip, limit)
  {
    assert DistinctKeys(q);
    LookupFound(q, 1);
    LookupFound(q, 2);
    LookupFound(q, 4);
    LookupFound(q, 5);
    LookupFound(q, 6);
    LookupFound(q, 7);
    LookupFound(q, 8);
  }

  lemma AllLibrariesMeetsSpec(q: Query, navParentId: Option<string>, library: Option<Library>,
                              feedType: FeedType, skip: nat, limit: nat)
    requires !Truthy(navParentId) && library.None?
    requires q == ListingBase(skip, limit) + RootTail(RootItemTypes(library), feedType)
    ensures ItemsQuerySpec(q, navParentId, library, feedType, skip, limit)
  {
    assert DistinctKeys(q);
    LookupFound(q, 1);
    LookupFound(q, 2);
    LookupMissing(q, "ParentId");
    LookupFound(q, 4);
    LookupFound(q, 5);
    LookupFound(q, 6);
    LookupFound(q, 7);
  }

  /** The recursive listing of a library (or of every library), newest or shuffled. */
  method RootListingQuery(navParentId: Option<string>, library: Option<Library>,
                          feedType: FeedType, skip: nat, limit: nat) returns (q: Query)
    requires !Truthy(navParentId)
    ensures ItemsQuerySpec(q, navParentId, library, feedType, skip, limit)
  {
    q := ListingBase(skip, limit);
    var includeTypes := LEAF_TYPES;
    if library.Some? {
      q := q + [("ParentId", library.value.id)];
      var collectionType := ToLowerAscii(library.value.collectionType.GetOr(""));
      if collectionType == "tvshows" || collectionType == "show" {
        includeTypes := "Series";
      } else if collectionType == "folders" {
        includeTypes := FOLDER_LIBRARY_TYPES;
      }
    }
    q := q + [("IncludeItemTypes", includeTypes)];
    q := q + [("Recursive", "true")];
    q := q + [("SortBy", if feedType == Random then "Random" else "DateCreated")];
    q := q + [("SortOrder", "Descending")];
    assert includeTypes == RootItemTypes(library);
    if library.Some? {
      assert q == ListingBase(skip, limit) + [("ParentId", library.value.id)] + RootTail(includeTypes, feedType);
      LibraryRootMeetsSpec(q, navParentId, library, feedType, skip, limit);
    } else {
      assert q == ListingBase(skip, limit) + RootTail(includeTypes, feedType);
      AllLibrariesMeetsSpec(q, navParentId, library, feedType, skip, limit);
    }
  }

  /** The `URLSearchParams` of a latest/random listing: a navigated folder's children,
      or the root of the selected library. */
  method BuildItemsQuery(navParentId: Option<string>, library: Option<Library>,
                         feedType: FeedType, skip: nat, limit: nat) returns (q: Query)
    ensures ItemsQuerySpec(q, navParentId, library, feedType, skip, limit)
  {
    if Truthy(navParentId) {
      q := ChildListingQuery(navParentId, library, feedType, skip, limit);
    } else {
      q := RootListingQuery(navParentId, library, feedType, skip, limit);
    }
  }

  /** The user data defaults `getVideos` fills in: not played, position 0. */
  function NormalizeUserData(u: UserData): (r: UserData)
    ensures r.played.Some? && r.playbackPositionTicks.Some?
    ensures r.isFavorite == u.isFavorite && r.playCount == u.playCount && r.lastPlayedDate == u.lastPlayedDate
    ensures u.played.Some? ==> r.played == u.played
    ensures u.played.None? ==> r.played == Some(false)
    ensures u.playbackPositionTicks.Some? ==> r.playbackPositionTicks == u.playbackPositionTicks
    ensures u.playbackPositionTicks.None? ==> r.playbackPositionTicks == Some(0)
  {
    u.(played := Some(u.played.GetOr(false)),
       playbackPositionTicks := Some(NumOrZero(u.playbackPositionTicks)))
  }

  /** One listed item as `getVideos` hands it on: formatted name, completed user data. */
  function NormalizeItem(item: Item): (r: Item)
    ensures r.id == item.id && r.itemType == item.itemType && r.width == item.width && r.height == item.height
    ensures r.mediaType == item.mediaType && r.overview == item.overview && r.productionYear == item.productionYear
    ensures r.runTimeTicks == item.runTimeTicks && r.imageTags == item.imageTags && r.plexKey == item.plexKey
    ensures r.indexNumber == item.indexNumber && r.parentIndexNumber == item.parentIndexNumber
    ensures r.name == Some(FormatItemName(item))
    ensures r.userData.Some? <==> item.userData.Some?
    ensures item.userData.Some? ==> r.userData.value == NormalizeUserData(item.userData.value)
  {
    item.(name := Some(FormatItemName(item)),
          userData := if item.userData.Some? then Some(NormalizeUserData(item.userData.value)) else None)
  }

  /** The server's answer to one listing request. */
  datatype ItemsReply = ItemsReply(items: seq<Item>, totalRecordCount: Option<nat>)

  /** The latest/random page: the first `limit` items that pass the filter; the cursor
      moves past every raw item, and the total is the server's, before filtering. */
  function ItemsPage(reply: ItemsReply, skip: nat, limit: nat, mode: OrientationMode): (page: VideoResponse)
    ensures var kept := ApplyOrientationFilter(reply.items, mode);
            && |page.items| == Min(limit, |kept|)
            && (forall k :: 0 <= k < |page.items| ==> page.items[k] == NormalizeItem(kept[k]))
    ensures |page.items| <= limit && |page.items| <= |reply.items|
    ensures page.nextStartIndex == skip + |reply.items|
    ensures page.totalCount == NumOrZero(reply.totalRecordCount)
  {
    var kept := ApplyOrientationFilter(reply.items, mode);
    var shown := Slice(kept, 0, limit);
    VideoResponse(seq(|shown|, i requires 0 <= i < |shown| => NormalizeItem(shown[i])),
                  skip + |reply.items|, NumOrZero(reply.totalRecordCount))
  }

  /** As written, the cursor skips items that passed the filter but did not fit on
      the page. With no filter (`both`), a page of one from a window of two shows the
      first item and moves on to the third: the server's item at `skip + 1` is never
      shown, neither here nor on the page that starts at `skip + 2`. */
  lemma OverFetchSkipsItems(a: Item, b: Item, skip: nat)
    ensures var page := ItemsPage(ItemsReply([a, b], None), skip, 1, Both);
            page.items == [NormalizeItem(a)] && page.nextStartIndex == skip + 2
  {
    var page := ItemsPage(ItemsReply([a, b], None), skip, 1, Both);
    assert |page.items| == 1;
  }

  /** The latest/random page with the cursor moved only past the raw items it used:
      up to the last item shown, or the whole window when it filled no page. */
  function ResumableItemsPage(reply: ItemsReply, skip: nat, limit: nat, mode: OrientationMode)
    : (page: VideoResponse)
    ensures page.items == ItemsPage(reply, skip, limit, mode).items
    ensures page.totalCount == ItemsPage(reply, skip, limit, mode).totalCount
    ensures skip <= page.nextStartIndex <= skip + |reply.items|
  {
    var consumed := KeptPrefix(reply.items, Keep(mode), limit);
    var page := ItemsPage(reply, skip, limit, mode);
    VideoResponse(page.items, skip + consumed, page.totalCount)
  }

  /** The corrected cursor loses nothing: every raw item it moves past that passes the
      filter is on the page, in order; it moves past the whole window when the page
      did not fill, and always moves when the window has items and the page has room. */
  lemma ResumablePagingLosesNothing(reply: ItemsReply, skip: nat, limit: nat, mode: OrientationMode)
    ensures var page := ResumableItemsPage(reply, skip, limit, mode);
            var used := reply.items[..page.nextStartIndex - skip];
            var kept := ApplyOrientationFilter(used, mode);
            && |page.items| == |kept|
            && (forall k :: 0 <= k < |kept| ==> page.items[k] == NormalizeItem(kept[k]))
    ensures |ApplyOrientationFilter(reply.items, mode)| <= limit ==>
              ResumableItemsPage(reply, skip, limit, mode) == ItemsPage(reply, skip, limit, mode)
    ensures reply.items != [] && limit > 0 ==> ResumableItemsPage(reply, skip, limit, mode).nextStartIndex > skip
  {
    var consumed := KeptPrefix(reply.items, Keep(mode), limit);
    OrientationFilterIsFilter(reply.items, mode);
    OrientationFilterIsFilter(reply.items[..consumed], mode);
  }

  /** `getVideos`. Favourites: the scope's playlist, filtered, newest first, sliced on
      the client. Latest/random: one listing request, then `ItemsPage`. */
  method GetVideos(config: ServerConfig, navParentId: Option<string>, library: Option<Library>,
                   feedType: FeedType, skip: nat, limit: nat, mode: OrientationMode,
                   playlistItems: seq<Item>, reply: ItemsReply)
    returns (fetch: Fetch, page: VideoResponse)
    ensures feedType == Favorites ==>
              && fetch == PlaylistItems(PlaylistTitle(ScopeName(library)))
              && page == ReversedPage(ApplyOrientationFilter(playlistItems, mode), skip, limit)
    ensures feedType != Favorites ==>
              && fetch.Listing?
              && fetch.request.base == CleanUrl(config) + "/Users/" + config.userId + "/Items"
              && ItemsQuerySpec(fetch.request.query, navParentId, library, feedType, skip, limit)
              && page == ItemsPage(reply, skip, limit, mode)
  {
    var libraryName := ScopeName(library);
    if feedType == Favorites {
      fetch := PlaylistItems(PlaylistTitle(libraryName));
      var filtered := ApplyOrientationFilter(playlistItems, mode);
      page := PageFavorites(filtered, skip, limit);
      return;
    }
    var q := BuildItemsQuery(navParentId, library, feedType, skip, limit);
    fetch := Listing(Url(CleanUrl(config) + "/Users/" + config.userId + "/Items", q));
    page := ItemsPage(reply, skip, limit, mode);
  }

  /** `getVideoUrl`: the same static stream URL the standalone service builds. */
  function GetVideoUrl(config: ServerConfig, item: Item): (u: Url)
    ensures u == EmbyService.GetVideoUrl(config.url, item.id, config.token)
    ensures Lookup(u.query, "api_key") == Some(config.token)
  {
    EmbyService.GetVideoUrl(config.url, item.id, config.token)
  }

  /** `getImageUrl`: none without a tag. */
  function GetImageUrl(config: ServerConfig, itemId: string, tag: Option<string>, kind: ImageType)
    : (u: Option<Url>)
    ensures u.Some? <==> Truthy(tag)
    ensures u == EmbyService.GetImageUrl(config.url, itemId, tag, kind)
  {
    EmbyService.GetImageUrl(config.url, itemId, tag, kind)
  }
}
