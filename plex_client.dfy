/** services/PlexClient.ts: the Plex backend behind the shared client contract. Plex
    metadata is mapped onto the shared item model; the network is cut at its replies:
    the favourites playlist (when one is found) and the metadata and sizes of one
    listing request are given to `GetVideos`. */
module PlexClient {
  import opened Types
  import opened Strings
  import opened Seqs
  import opened Favorites
  import EmbyClient
  import EmbyService

  /** One playable file of a Plex media entry. */
  datatype PlexPart = PlexPart(key: Option<string>)

  /** One media version of a Plex item: its size and its files. */
  datatype PlexMedia = PlexMedia(width: Option<nat>, height: Option<nat>, parts: seq<PlexPart>)

  /** The fields of a Plex `Metadata` entry the client reads. Durations and offsets
      are milliseconds; `lastViewedAt` is in seconds. */
  datatype PlexMetadata = PlexMetadata(
    ratingKey: string,
    title: Option<string>,
    plexType: string,
    summary: Option<string>,
    year: Option<int>,
    media: seq<PlexMedia>,
    duration: Option<nat>,
    thumb: Option<string>,
    viewCount: Option<nat>,
    viewOffset: Option<nat>,
    lastViewedAt: Option<int>,
    index: Option<nat>)

  /** The `MediaContainer` of a listing reply. */
  datatype PlexReply = PlexReply(metadata: Option<seq<PlexMetadata>>, totalSize: Option<nat>, size: Option<nat>)

  /** Lower-cased types that are navigated into rather than played. */
  const NAV_FOLDER_TYPES := ["show", "season", "folder"]

  const TRANSCODE_PATH := "/video/:/transcode/universal/start"

  function CleanUrl(config: ServerConfig): string {
    StripTrailingSlash(config.url)
  }

  /** The test `filterItems` applies to one item when the mode is not `both`. */
  predicate KeepsOrientation(item: Item, mode: OrientationMode) {
    if ToLowerAscii(item.itemType) in NAV_FOLDER_TYPES then true
    else
      var w := NumOrZero(item.width);
      var h := NumOrZero(item.height);
      if w == 0 then true
      else if mode == Vertical then 5 * h >= 4 * w
      else w > h
  }

  /** `filterItems`: folders (whatever their case) and items of unknown width always
      pass; otherwise `vertical` keeps h >= 0.8 * w and the other mode keeps w > h. */
  function FilterItems(items: seq<Item>, mode: OrientationMode): (r: seq<Item>)
    ensures mode == Both ==> r == items
    ensures r == Filter(items, Keep(mode))
    ensures IsSubsequence(r, items)
    ensures forall i :: 0 <= i < |r| ==> r[i] in items
    ensures forall x :: x in items && ToLowerAscii(x.itemType) in NAV_FOLDER_TYPES ==> x in r
    ensures forall x :: x in items && NumOrZero(x.width) == 0 ==> x in r
    ensures forall x :: x in items && ToLowerAscii(x.itemType) !in NAV_FOLDER_TYPES && NumOrZero(x.width) > 0 ==>
              (mode == Vertical ==> (x in r <==> 5 * NumOrZero(x.height) >= 4 * NumOrZero(x.width)))
              && (mode == Horizontal ==> (x in r <==> NumOrZero(x.width) > NumOrZero(x.height)))
  {
    if mode == Both then SubsequenceReflexive(items); items
    else
      var r := Filter(items, Keep(mode));
      assert forall x :: x in r ==> KeepsOrientation(x, mode);
      r
  }

  /** The filter test as a function value; `both` keeps everything. */
  function Keep(mode: OrientationMode): Item -> bool {
    x => mode == Both || KeepsOrientation(x, mode)
  }

  /** A leaf (a folder type to neither client) of known width and no height: the
      Emby client keeps it in every mode, the Plex client drops it from the vertical
      feed and keeps it in the horizontal one, and the standalone service's vertical
      filter drops it. */
  lemma HeightZeroDiffersFromEmby(item: Item)
    requires item.itemType !in EmbyClient.NAV_FOLDER_TYPES && ToLowerAscii(item.itemType) !in NAV_FOLDER_TYPES
    requires NumOrZero(item.width) > 0 && NumOrZero(item.height) == 0
    ensures EmbyClient.KeepsOrientation(item, Vertical) && EmbyClient.KeepsOrientation(item, Horizontal)
    ensures !KeepsOrientation(item, Vertical) && KeepsOrientation(item, Horizontal)
    ensures !EmbyService.IsVertical(item)
  {
  }

  /** The name `mapPlexItems` gives: episodes become "03. Title", "--. Title" without
      an index; every other item keeps its title. */
  function PlexName(p: PlexMetadata): (name: Option<string>)
    ensures p.plexType != "episode" ==> name == p.title
    ensures p.plexType == "episode" ==> name.Some? && |name.value| >= 4
  {
    if p.plexType == "episode" then
      var idx := if p.index.Some? then Pad2(p.index.value) else "--";
      Some(idx + ". " + TemplateText(p.title))
    else p.title
  }

  /** An episode's name reads back as its index and its title. */
  lemma EpisodeNameDecodes(p: PlexMetadata)
    requires p.plexType == "episode"
    ensures var name := PlexName(p).value;
            (p.index.Some? && p.index.value < 100 ==>
               AllDigits(name[..2]) && ParseNat(name[..2]) == p.index.value)
            && (p.index.None? ==> name[..2] == "--")
            && (p.index.None? || p.index.value < 100 ==> name[2..4] == ". " && name[4..] == TemplateText(p.title))
  {
    var idx := if p.index.Some? then Pad2(p.index.value) else "--";
    var name := PlexName(p).value;
    assert name == idx + ". " + TemplateText(p.title);
    if p.index.None? || p.index.value < 100 {
      assert name[..2] == idx;
    }
  }

  /** Episode 3, "Pilot", gives "03. Pilot". */
  lemma PilotExample(p: PlexMetadata)
    requires p.plexType == "episode" && p.title == Some("Pilot") && p.index == Some(3)
    ensures PlexName(p) == Some("03. Pilot")
  {
    assert Pad2(3) == "03";
    assert TemplateText(p.title) == "Pilot";
    assert "03" + ". " + "Pilot" == "03. Pilot";
  }

  /** `media?.width` and friends: the first media entry, if any. */
  function FirstMedia(p: PlexMetadata): Option<PlexMedia> {
    if |p.media| > 0 then Some(p.media[0]) else None
  }

  /** `media?.Part?.[0]?.key`. */
  function FirstPartKey(p: PlexMetadata): (key: Option<string>)
    ensures key.Some? ==> |p.media| > 0 && |p.media[0].parts| > 0 && key == p.media[0].parts[0].key
    ensures |p.media| > 0 && |p.media[0].parts| > 0 ==> key == p.media[0].parts[0].key
    ensures |p.media| == 0 || |p.media[0].parts| == 0 ==> key.None?
  {
    var m := FirstMedia(p);
    if m.Some? && |m.value.parts| > 0 then m.value.parts[0].key else None
  }

  /** One Plex entry as a shared item. Ticks are 100 ns, so milliseconds are multiplied
      by 10000; `lastViewedAt` seconds become milliseconds. */
  function MapPlexItem(p: PlexMetadata): (item: Item)
    ensures item.id == p.ratingKey && item.itemType == p.plexType && item.mediaType == "Video"
    ensures item.overview == p.summary && item.productionYear == p.year
    ensures item.indexNumber.None? && item.parentIndexNumber.None?
    ensures item.name == PlexName(p)
    ensures item.runTimeTicks == if NumOrZero(p.duration) > 0 then Some(p.duration.value * 10000) else None
    ensures item.imageTags.Some? && (item.imageTags.value.primary == Some("true") <==> Truthy(p.thumb))
    ensures item.imageTags.value.primary.None? <==> !Truthy(p.thumb)
    ensures item.userData.Some?
    ensures var u := item.userData.value;
            && !u.isFavorite
            && u.playCount == NumOrZero(p.viewCount)
            && (u.played == Some(true) <==> NumOrZero(p.viewCount) > 0)
            && u.played.Some?
            && u.playbackPositionTicks == Some(NumOrZero(p.viewOffset) * 10000)
            && (u.lastPlayedDate.Some? <==> (p.lastViewedAt.Some? && p.lastViewedAt.value != 0))
            && (u.lastPlayedDate.Some? ==> u.lastPlayedDate.value == p.lastViewedAt.value * 1000)
    ensures |p.media| > 0 ==> item.width == p.media[0].width && item.height == p.media[0].height
    ensures |p.media| == 0 ==> item.width.None? && item.height.None?
    ensures item.plexKey == FirstPartKey(p)
  {
    var media := FirstMedia(p);
    var playCount := NumOrZero(p.viewCount);
    Item(
      id := p.ratingKey,
      name := PlexName(p),
      itemType := p.plexType,
      mediaType := "Video",
      overview := p.summary,
      productionYear := p.year,
      width := if media.Some? then media.value.width else None,
      height := if media.Some? then media.value.height else None,
      runTimeTicks := if NumOrZero(p.duration) > 0 then Some(p.duration.value * 10000) else None,
      imageTags := Some(ImageTags(if Truthy(p.thumb) then Some("true") else None)),
      userData := Some(UserData(
        isFavorite := false,
        playbackPositionTicks := Some(if NumOrZero(p.viewOffset) > 0 then p.viewOffset.value * 10000 else 0),
        playCount := playCount,
        played := Some(playCount > 0),
        lastPlayedDate := if p.lastViewedAt.Some? && p.lastViewedAt.value != 0
                          then Some(p.lastViewedAt.value * 1000) else None)),
      indexNumber := None,
      parentIndexNumber := None,
      plexKey := FirstPartKey(p))
  }

  /** `mapPlexItems`: one item per entry, in order. */
  function MapPlexItems(ps: seq<PlexMetadata>): (items: seq<Item>)
    ensures |items| == |ps|
    ensures forall i :: 0 <= i < |ps| ==> items[i] == MapPlexItem(ps[i])
  {
    seq(|ps|, i requires 0 <= i < |ps| => MapPlexItem(ps[i]))
  }

  /** Mapping and concatenation commute: two replies mapped one after the other give
      the mapping of the joined reply. */
  lemma MapPlexItemsAppend(a: seq<PlexMetadata>, b: seq<PlexMetadata>)
    ensures MapPlexItems(a + b) == MapPlexItems(a) + MapPlexItems(b)
  {
    assert forall i :: 0 <= i < |a + b| ==> (a + b)[i] == if i < |a| then a[i] else b[i - |a|];
  }

  /** Whether the listing is of a library root: no parent, or the library itself. */
  predicate IsLibraryRoot(navParentId: Option<string>, library: Option<Library>) {
    navParentId.None? || (library.Some? && navParentId.value == library.value.id)
  }

  /** `navParentId || library?.Id`: the section a root listing reads. */
  function SectionId(navParentId: Option<string>, library: Option<Library>): (id: Option<string>)
    ensures Truthy(navParentId) ==> id == navParentId
    ensures !Truthy(navParentId) ==> id == if library.Some? then Some(library.value.id) else None
  {
    if Truthy(navParentId) then navParentId
    else if library.Some? then Some(library.value.id) else None
  }

  /** `X-Plex-Container-Start` and `-Size`: exactly the requested window, no over-fetch. */
  function Window(skip: nat, limit: nat): (q: Query)
    ensures DistinctKeys(q)
    ensures Lookup(q, "X-Plex-Container-Start") == Some(NatToString(skip))
    ensures Lookup(q, "X-Plex-Container-Size") == Some(NatToString(limit))
  {
    var q := [("X-Plex-Container-Start", NatToString(skip)), ("X-Plex-Container-Size", NatToString(limit))];
    LookupFound(q, 0);
    LookupFound(q, 1);
    q
  }

  /** `totalSize || size || 0`. */
  function TotalCount(reply: PlexReply): (n: nat)
    ensures NumOrZero(reply.totalSize) > 0 ==> n == reply.totalSize.value
    ensures NumOrZero(reply.totalSize) == 0 ==> n == NumOrZero(reply.size)
  {
    if NumOrZero(reply.totalSize) > 0 then reply.totalSize.value else NumOrZero(reply.size)
  }

  /** The latest/random page: every mapped item that passes the filter (the server was
      asked for `limit`, nothing is truncated here), the cursor moved past every raw
      entry, and the server's total. */
  function ListingPage(reply: PlexReply, skip: nat, mode: OrientationMode): (page: VideoResponse)
    ensures var raw := reply.metadata.GetOr([]);
            && page.items == FilterItems(MapPlexItems(raw), mode)
            && |page.items| <= |raw|
            && page.nextStartIndex == skip + |raw|
    ensures page.totalCount == TotalCount(reply)
  {
    var raw := reply.metadata.GetOr([]);
    VideoResponse(FilterItems(MapPlexItems(raw), mode), skip + |raw|, TotalCount(reply))
  }

  /** A server that honours the requested size yields at most `limit` items, and the
      cursor then advances by at most `limit`: by less exactly when it sent fewer. */
  lemma ListingPageBounded(reply: PlexReply, skip: nat, limit: nat, mode: OrientationMode)
    requires |reply.metadata.GetOr([])| <= limit
    ensures var page := ListingPage(reply, skip, mode);
            |page.items| <= limit && skip <= page.nextStartIndex <= skip + limit
  {
  }

  /** `getVideos`. Favourites: no page without the scope's playlist, else its items
      filtered, newest first, sliced on the client. Otherwise a child listing below a
      folder, or a section listing at a library root; a root without a section reads
      nothing. */
  method GetVideos(config: ServerConfig, navParentId: Option<string>, library: Option<Library>,
                   feedType: FeedType, skip: nat, limit: nat, mode: OrientationMode,
                   playlist: Option<seq<PlexMetadata>>, reply: PlexReply)
    returns (fetch: Fetch, page: VideoResponse)
    ensures feedType == Favorites ==> fetch == PlaylistItems(PlaylistTitle(ScopeName(library)))
    ensures feedType == Favorites && playlist.None? ==> page == EMPTY_RESPONSE
    ensures feedType == Favorites && playlist.Some? ==>
              page == ReversedPage(FilterItems(MapPlexItems(playlist.value), mode), skip, limit)
    ensures feedType != Favorites && !IsLibraryRoot(navParentId, library) && Truthy(navParentId) ==>
              && fetch.Listing?
              && fetch.request.base == CleanUrl(config) + "/library/metadata/" + navParentId.value + "/children"
              && fetch.request.query == Window(skip, limit)
    ensures feedType != Favorites && (IsLibraryRoot(navParentId, library) || !Truthy(navParentId)) ==>
              && (Truthy(SectionId(navParentId, library)) <==> fetch.Listing?)
              && (fetch.Listing? ==>
                    && fetch.request.base == CleanUrl(config) + "/library/sections/"
                                             + SectionId(navParentId, library).value + "/all"
                    && DistinctKeys(fetch.request.query)
                    && Lookup(fetch.request.query, "sort") == Some(if feedType == Random then "random" else "addedAt:desc")
                    && fetch.request.query[1..] == Window(skip, limit))
    ensures feedType != Favorites && (IsLibraryRoot(navParentId, library) || !Truthy(navParentId)) ==>
              (!Truthy(SectionId(navParentId, library)) ==> fetch == NoFetch && page == EMPTY_RESPONSE)
    ensures feedType != Favorites ==> !fetch.PlaylistItems?
    ensures feedType != Favorites ==> (fetch.NoFetch? ==> page == EMPTY_RESPONSE)
    ensures feedType != Favorites ==> (fetch.Listing? ==> page == ListingPage(reply, skip, mode))
  {
    var libraryName := ScopeName(library);
    if feedType == Favorites {
      fetch := PlaylistItems(PlaylistTitle(libraryName));
      if playlist.None? {
        page := EMPTY_RESPONSE;
        return;
      }
      var filtered := FilterItems(MapPlexItems(playlist.value), mode);
      page := PageFavorites(filtered, skip, limit);
      return;
    }

    var url := Url("", []);
    var isLibraryRoot := navParentId.None? || (library.Some? && navParentId.value == library.value.id);
    if !isLibraryRoot && Truthy(navParentId) {
      url := Url(CleanUrl(config) + "/library/metadata/" + navParentId.value + "/children", Window(skip, limit));
    } else {
      var sectionId := SectionId(navParentId, library);
      if !Truthy(sectionId) {
        fetch, page := NoFetch, EMPTY_RESPONSE;
        return;
      }
      var sort := "addedAt:desc";
      if feedType == Random {
        sort := "random";
      }
      var q := [("sort", sort)] + Window(skip, limit);
      assert q[1..] == Window(skip, limit);
      assert DistinctKeys(q);
      LookupFound(q, 0);
      url := Url(CleanUrl(config) + "/library/sections/" + sectionId.value + "/all", q);
    }
    fetch := Listing(url);
    page := ListingPage(reply, skip, mode);
  }

  /** `getVideoUrl`: the direct file when the item carries its part key, else the
      universal transcoder on the item's metadata path; both carry the token. */
  function GetVideoUrl(config: ServerConfig, item: Item): (u: Url)
    ensures Truthy(item.plexKey) ==> u.base == CleanUrl(config) + item.plexKey.value && u.query == [("X-Plex-Token", config.token)]
    ensures !Truthy(item.plexKey) ==>
              && u.base == CleanUrl(config) + TRANSCODE_PATH
              && Lookup(u.query, "path") == Some("/library/metadata/" + item.id)
              && Lookup(u.query, "directPlay") == Some("0")
    ensures Lookup(u.query, "X-Plex-Token") == Some(config.token)
  {
    if Truthy(item.plexKey) then
      var q := [("X-Plex-Token", config.token)];
      LookupFound(q, 0);
      Url(CleanUrl(config) + item.plexKey.value, q)
    else
      var q := [ ("path", "/library/metadata/" + item.id), ("mediaIndex", "0"), ("partIndex", "0"),
                 ("protocol", "hls"), ("offset", "0"), ("fastSeek", "1"), ("directPlay", "0"),
                 ("directStream", "1"), ("subtitleSize", "100"), ("audioBoost", "100"),
                 ("X-Plex-Token", config.token) ];
      assert DistinctKeys(q);
      LookupFound(q, 0);
      LookupFound(q, 6);
      LookupFound(q, 10);
      Url(CleanUrl(config) + TRANSCODE_PATH, q)
  }

  /** `getImageUrl`: always the photo transcoder on the item's thumb, whatever the tag
      and the image type. */
  function GetImageUrl(config: ServerConfig, itemId: string, tag: Option<string>, kind: ImageType): (u: Url)
    ensures u.base == CleanUrl(config) + "/photo/:/transcode"
    ensures Lookup(u.query, "url") == Some("/library/metadata/" + itemId + "/thumb")
    ensures Lookup(u.query, "X-Plex-Token") == Some(config.token)
  {
    var q := [ ("url", "/library/metadata/" + itemId + "/thumb"), ("width", "800"), ("height", "1200"),
               ("X-Plex-Token", config.token) ];
    assert DistinctKeys(q);
    LookupFound(q, 0);
    LookupFound(q, 3);
    Url(CleanUrl(config) + "/photo/:/transcode", q)
  }

  /** Unlike Emby, a missing tag still yields an image URL, and the same one. */
  lemma ImageUrlIgnoresTagAndType(config: ServerConfig, itemId: string, tag: Option<string>, kind: ImageType)
    ensures GetImageUrl(config, itemId, tag, kind) == GetImageUrl(config, itemId, None, Primary)
    ensures EmbyClient.GetImageUrl(config, itemId, None, kind).None?
  {
  }
}
