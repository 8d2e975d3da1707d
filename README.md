# EmbyTok backend layer in Dafny

EmbyTok is a vertical, swipe-through video client for Emby and Plex media servers.
This project models its backend-abstraction layer and the decisions the views take on
top of it:

- the Emby client (`services/EmbyClient.ts`) and the Plex client (`services/PlexClient.ts`),
  which reshape server data into one item model and turn a `(skip, limit)` request
  into an `(items, nextStartIndex, totalCount)` page;
- the older standalone Emby helpers (`services/embyService.ts`);
- the resume-target search, click handling, progress bar and duration label of the grid
  (`components/VideoGrid.tsx`);
- the load-more, auto-advance, render-window and favourite-toggle decisions of the
  full-screen feed (`components/VideoFeed.tsx`);
- the server-address normalisation of the login form (`components/Login.tsx`).

The network is cut at its replies. A `getVideos` call receives the server's answer as
a parameter: the raw item list and total of a listing, or the items of the favourites
playlist. It returns a `Fetch` value that records what it would have read (the
playlist title, the listing URL, or nothing), next to the page it builds. URLs are a
base plus an ordered list of unencoded `(key, value)` pairs; `Lookup` reads them the
way `URLSearchParams.get` does.

JavaScript's `||` and truthiness are written out: an absent or empty string is false
(`Truthy`), an absent or zero number falls back to 0 (`NumOrZero`), and an absent value
inside a template literal prints as `undefined` (`TemplateText`). The `h >= w * 0.8`
test is `5 * h >= 4 * w` on naturals. `Math.round(a / b)` for non-negative values is
`RoundDiv`, which rounds halves up.

Files, one module each: `strings.dfy` (decimal text, zero-padding, ASCII lower case,
JavaScript `trim`, trailing-slash strip), `seqs.dfy` (filter, subsequence, reverse in
place, `slice`), `types.dfy` (the shared item model and query lists), `favorites.dfy`
(the favourites playlist shared by both clients), `emby_client.dfy`,
`plex_client.dfy`, `emby_service.dfy`, `video_grid.dfy`, `video_feed.dfy`,
`login.dfy`.

## Model

| member | source | states |
|---|---|---|
| Strings.StripTrailingSlash | services/EmbyClient.ts:16-18 | removes exactly one `/`, and only when the URL ends in one; the result is a prefix of the URL |
| Strings.Pad2 | services/EmbyClient.ts:39-40 | `padStart(2, '0')`: all digits, at least two, exactly two below 100, and it reads back as the number; a `0` is put in front below 10 only, and from 10 on the decimal text is left as it is |
| Strings.ParseNatToString | services/EmbyClient.ts:82-83 | the decimal text of a number (`toString()`) reads back as that number |
| Strings.ToLowerAscii | services/EmbyClient.ts:98 | `toLowerCase()` keeps the length, lowers each ASCII letter and leaves no upper-case ASCII letter |
| Strings.Trim | components/Login.tsx:23 | `trim()` leaves no JavaScript white space at either end, and the result is a slice of the input with only white space before and after it |
| Strings.TrimUnique | components/Login.tsx:23 | a string with no white space at its ends, with only white space around it inside the input, is exactly what `trim()` returns |
| Strings.TrimSurrounded | components/Login.tsx:23 | any white space put before and after a trimmed string is removed by `trim()` and nothing else is |
| Strings.TrimIdempotent | components/Login.tsx:23 | trimming twice equals trimming once |
| Seqs.Filter | services/EmbyClient.ts:48-59 | `filter` keeps exactly the elements that pass, in order, as a subsequence; when all pass it is the identity |
| Seqs.FilterCounts | services/EmbyClient.ts:48-59 | `filter` keeps every copy of a passing element and no copy of a failing one |
| Seqs.Slice | services/EmbyClient.ts:76 | `slice(from, to)` clamps both ends to the length; element k is element `from + k` |
| Seqs.ReverseInPlace | services/EmbyClient.ts:76 | `reverse()` on an array: the new contents are the old ones in the opposite order |
| Seqs.KeptPrefix | services/EmbyClient.ts:133-137 | the raw prefix that holds exactly the first n passing elements; all of the input once fewer than n pass; never empty for a non-empty input and n > 0 |
| Favorites.PlaylistTitle | services/EmbyClient.ts:152 | the favourites playlist title is `Tok-` followed by the scope name |
| Favorites.ScopeName | services/EmbyClient.ts:71 | the scope of a favourites call: the selected library's name, or `收藏` without one |
| Favorites.PlaylistTitleDeterminesScope | services/EmbyClient.ts:71-74 | equal titles mean equal scope names; without a library the title is `Tok-收藏` |
| Favorites.TitleCollisions | services/EmbyClient.ts:71-74 | playlists are told apart by library name only: two libraries of the same name share one, and a library named `收藏` shares the one used without a library; different names give different titles |
| Favorites.ReversedPage | services/EmbyClient.ts:73-78 | favourites page: item k is the `(skip + k)`-th from the end of the filtered list; at most `limit` items; cursor `skip + limit`; total the filtered length |
| Favorites.ConsecutivePages | services/EmbyClient.ts:76-77 | for any skip and limit, partial and empty pages included, two consecutive favourites pages join into one slice of the reversed list, with no gap or overlap |
| Favorites.PageFavorites | services/PlexClient.ts:82-84 | reversing a copy in place and slicing it gives `ReversedPage` |
| EmbyService.Headers | services/embyService.ts:8-14 | the `, Token="…"` segment ends the authorization value if and only if a non-empty token is given |
| EmbyService.AuthenticateRequest | services/embyService.ts:16-25 | authentication goes to `/Users/AuthenticateByName` of the cleaned URL with `Username` and `Pw` |
| EmbyService.VerticalPartsMeetSpec | services/embyService.ts:57-81 | the request's parameters: distinct keys; `Movie,Video,Episode`, recursive, limit 100; random sorts `Random` with no `SortOrder`, every other feed `DateCreated` descending; `Filters=IsFavorite` if and only if favourites; `ParentId` if and only if one is given |
| EmbyService.VerticalVideosQuery | services/embyService.ts:57-81 | the parameters appended in the source's order meet the vertical query contract above |
| EmbyService.KeepVertical | services/embyService.ts:95-100 | one `filter` with the vertical test: keeps, in order, exactly the items with a known width and h ≥ 0.8·w, every copy of them; unknown sizes are dropped |
| EmbyService.GetVerticalVideos | services/embyService.ts:48-101 | the request goes to `/Users/{id}/Items` with parameters meeting the whole vertical query contract; a failed reply gives no result; otherwise the vertical items of the reply |
| EmbyService.ToggleFavorite | services/embyService.ts:103-116 | POST to `FavoriteItems/{id}` if and only if adding; DELETE to `FavoriteItems/{id}/Delete` if and only if removing |
| EmbyService.GetVideoUrl | services/embyService.ts:118-121 | the static stream of the item under the cleaned URL, with `Static=true` and the token as `api_key` |
| EmbyService.GetImageUrl | services/embyService.ts:123-127 | no URL if and only if the tag is absent or empty; otherwise `/Items/{id}/Images/{type}` carrying the tag |
| EmbyService.VideoUrlIgnoresTrailingSlash | services/embyService.ts:119-120 | a server URL with or without its trailing `/` gives the same stream URL |
| EmbyClient.FormatItemName | services/EmbyClient.ts:37-44 | the display name is never empty |
| EmbyClient.EpisodeNameDecodes | services/EmbyClient.ts:38-41 | an episode's name reads back as `S`, its season, `E`, its index, `. ` and its title |
| EmbyClient.EpisodeNameWithoutSeason | services/EmbyClient.ts:39-41 | without a season the `Sxx` part is left out: `E`, the two-digit index, `. ` and the title, or `E--. ` and the title without an index |
| EmbyClient.EpisodeNameWithoutIndex | services/EmbyClient.ts:39-41 | with a season and no index: `S`, the two-digit season, `E--. ` and the title |
| EmbyClient.NonEpisodeName | services/EmbyClient.ts:43 | a non-episode keeps a non-empty name and is otherwise called `未命名` |
| EmbyClient.PilotExample | services/EmbyClient.ts:38-41 | season 1, index 3, "Pilot" gives `S01E03. Pilot` |
| EmbyClient.ApplyOrientationFilter | services/EmbyClient.ts:46-60 | `both` is the identity; always an order-preserving subsequence; folders and items of unknown width or height pass; other leaves: vertical if and only if h ≥ 0.8·w, horizontal if and only if w > h |
| EmbyClient.OrientationFilterIsFilter | services/EmbyClient.ts:46-48 | in every mode the orientation filter is one `filter` with the same per-item test |
| EmbyClient.ListingBase | services/EmbyClient.ts:80-86 | every listing starts with distinct `Fields`, `Limit = 2·limit`, `StartIndex = skip`, `EnableImageTypes` |
| EmbyClient.ChildListingQuery | services/EmbyClient.ts:88-93 | inside a folder: that folder as `ParentId`, not recursive, sorted by name, no `SortOrder`, folders and leaves included |
| EmbyClient.LibraryRootMeetsSpec | services/EmbyClient.ts:96-115 | at a library's root: the library as `ParentId`, recursive, `Random` or `DateCreated` descending, item types by collection type |
| EmbyClient.AllLibrariesMeetsSpec | services/EmbyClient.ts:110-115 | with no library: no `ParentId`, recursive, leaf types only |
| EmbyClient.RootListingQuery | services/EmbyClient.ts:94-116 | the root listing built append by append meets the listing contract: `Series` for `tvshows`/`show` (any case), folders and box sets for `folders`, else leaves |
| EmbyClient.BuildItemsQuery | services/EmbyClient.ts:80-116 | the listing parameters: child listing if and only if a non-empty parent is given, else the root listing |
| EmbyClient.NormalizeUserData | services/EmbyClient.ts:126-131 | `Played` and `PlaybackPositionTicks` always present: the given values kept, `false` and `0` filled in when absent; the other fields unchanged |
| EmbyClient.NormalizeItem | services/EmbyClient.ts:124-133 | a listed item keeps every field (`...item`): id, type, media type, size, runtime, image tags, overview, year, index numbers, part key; it gets its display name, and has user data if and only if it had some, then completed by `NormalizeUserData` |
| EmbyClient.ItemsPage | services/EmbyClient.ts:121-139 | the first `limit` filtered items, normalised, in order; cursor `skip + the raw count` whatever was filtered or cut; total `TotalRecordCount` or 0 |
| EmbyClient.OverFetchSkipsItems | services/EmbyClient.ts:124-137 | with no filter, a page of one from a window of two shows the first and moves the cursor past the second |
| EmbyClient.ResumableItemsPage | services/EmbyClient.ts:124-137 | the same items and total, with the cursor moved by at most the window |
| EmbyClient.ResumablePagingLosesNothing | services/EmbyClient.ts:124-137 | every raw item the corrected cursor passes that passes the filter is on the page; same as written when the page does not fill; always moves forward |
| EmbyClient.GetVideos | services/EmbyClient.ts:62-140 | favourites read the scope's playlist and return `ReversedPage` of its filtered items; otherwise one listing of `/Users/{id}/Items` meeting the listing contract, paged by `ItemsPage` |
| EmbyClient.GetVideoUrl | services/EmbyClient.ts:142-144 | the same static stream URL as the standalone helper, authorised by `api_key` |
| EmbyClient.GetImageUrl | services/EmbyClient.ts:146-149 | no URL without a tag; otherwise the standalone helper's image URL |
| PlexClient.FilterItems | services/PlexClient.ts:51-64 | `both` is the identity; always one `filter` with the per-item test, so an order-preserving subsequence keeping every copy of what passes; `show`/`season`/`folder` in any case and unknown widths pass; otherwise vertical if and only if h ≥ 0.8·w, horizontal if and only if w > h |
| PlexClient.HeightZeroDiffersFromEmby | services/PlexClient.ts:58-62 | an item of known width and no height whose type neither client treats as a folder: Emby keeps it in both modes, Plex drops it from vertical and keeps it in horizontal, and the standalone vertical filter drops it |
| PlexClient.PlexName | services/PlexClient.ts:117-122 | a non-episode keeps its title as is; an episode always gets a name |
| PlexClient.EpisodeNameDecodes | services/PlexClient.ts:119-121 | an episode's name reads back as its two-digit index (or `--`), `. ` and its title |
| PlexClient.PilotExample | services/PlexClient.ts:120-121 | episode 3, "Pilot", gives `03. Pilot` |
| PlexClient.FirstPartKey | services/PlexClient.ts:116-143 | the key of the first part of the first media entry when there is one, and none otherwise |
| PlexClient.MapPlexItem | services/PlexClient.ts:115-144 | id is the rating key; runtime `duration·10000` when truthy; position `viewOffset·10000` or 0; play count `viewCount` or 0 and played if and only if positive; never a favourite; primary tag `"true"` if and only if a thumb; size from the first media; overview and year copied from `summary` and `year`; no index numbers |
| PlexClient.MapPlexItems | services/PlexClient.ts:114-146 | same length and order, each entry mapped by `MapPlexItem` |
| PlexClient.MapPlexItemsAppend | services/PlexClient.ts:114-115 | mapping two replies one after the other equals mapping the joined reply |
| PlexClient.IsLibraryRoot | services/PlexClient.ts:88 | a listing is at a library's root when no parent is given or the parent is the selected library itself |
| PlexClient.SectionId | services/PlexClient.ts:93 | the section is the parent when it is non-empty, else the library's id, else none |
| PlexClient.Window | services/PlexClient.ts:91-98 | `X-Plex-Container-Start = skip` and `X-Plex-Container-Size = limit`, with no over-fetch |
| PlexClient.TotalCount | services/PlexClient.ts:110 | `totalSize` when positive, else `size`, else 0 |
| PlexClient.ListingPage | services/PlexClient.ts:101-111 | every mapped item that passes the filter, no more than the raw list; cursor `skip + the raw count`; total `TotalCount` |
| PlexClient.ListingPageBounded | services/PlexClient.ts:91-111 | when the server honours the size, the page holds at most `limit` items and the cursor moves by at most `limit` |
| PlexClient.GetVideos | services/PlexClient.ts:66-112 | favourites: nothing without the playlist, else `ReversedPage`; below a folder the children listing; at a root the section listing sorted `random` or `addedAt:desc`, or no fetch and the empty page `{[], 0, 0}` without a section; a non-favourites call never reads a playlist |
| PlexClient.GetVideoUrl | services/PlexClient.ts:148-152 | the direct part with the token when the item carries a part key, else the universal transcoder on `/library/metadata/{id}` |
| PlexClient.GetImageUrl | services/PlexClient.ts:154-156 | always the photo transcoder on the item's thumb, with the token |
| PlexClient.ImageUrlIgnoresTagAndType | services/PlexClient.ts:154-156 | the Plex image URL does not depend on the tag or type, while the Emby client gives none without a tag |
| VideoGrid.FindResumeTarget | components/VideoGrid.tsx:47-61 | the first item in progress; else the first with the strictly latest positive last-played time; else -1 |
| VideoGrid.ResumeTargetUnique | components/VideoGrid.tsx:47-61 | a list has at most one resume target (`FindResumeTarget` gives one) |
| VideoGrid.GridView.constructor | components/VideoGrid.tsx:35 | nothing is highlighted at first |
| VideoGrid.GridView.OnVideosChanged | components/VideoGrid.tsx:44-64 | with items and not loading, the resume target, if any, becomes the highlight; otherwise it stays |
| VideoGrid.HandleItemClick | components/VideoGrid.tsx:102-110 | navigate if and only if the type is a folder type and navigation is available, else select the index |
| VideoGrid.PlexFolderIsSelected | components/VideoGrid.tsx:103 | a Plex `folder` item is played, not opened |
| VideoGrid.RoundDiv | components/VideoGrid.tsx:39 | the integer nearest to a / b, halves rounded up |
| VideoGrid.Progress | components/VideoGrid.tsx:135-137 | at most 100; 0 without a position or a runtime; else the rounded percentage capped at 100 |
| VideoGrid.ProgressBounds | components/VideoGrid.tsx:135-137 | a full bar at or past the runtime; a visible bar from half a percent on, none below |
| VideoGrid.GridRequestsMore | components/VideoGrid.tsx:87 | the grid asks for more when its sentinel is in view, there is more, nothing loads, and the feed is the latest one |
| VideoGrid.FormatTime | components/VideoGrid.tsx:37-41 | empty if and only if no or zero ticks; otherwise digits reading back as the rounded minutes, with no leading zero, then `m` |
| VideoFeed.FeedView.constructor | components/VideoFeed.tsx:44 | the active index starts at the initial index |
| VideoFeed.FeedView.OnIntersect | components/VideoFeed.tsx:77-88 | the card in view becomes active; more is requested exactly under the feed's load-more test |
| VideoFeed.FeedRequestsMore | components/VideoFeed.tsx:86 | the feed asks for more at a card of index ≥ count − 2 of a latest or random feed when there is more and nothing loads |
| VideoFeed.IntersectLoadsOnlyNearEnd | components/VideoFeed.tsx:86 | more only from one of the last two cards of a latest or random feed, always there when there is more and nothing loads; never for favourites |
| VideoFeed.GridPagesOnlyLatest | components/VideoGrid.tsx:88 | whenever the grid asks for more, the feed would at its last card; the random feed pages only in the feed |
| VideoFeed.FeedView.NextVideo | components/VideoFeed.tsx:101-112 | scroll to the next card if and only if there is one and the list is mounted; load more if and only if at the end with more; otherwise nothing |
| VideoFeed.RendersCard | components/VideoFeed.tsx:152 | a real card is rendered at an index at most one away from the active one |
| VideoFeed.AtMostThreeCards | components/VideoFeed.tsx:152 | at most three real cards are rendered, and the active one always is |
| VideoFeed.ToggleArgs | components/VideoFeed.tsx:157-158 | the toggle passes the item's id and whether it is a favourite now |
| VideoFeed.StandaloneServiceReadsFlagAsTarget | services/embyService.ts:105-110 | a hypothetical composition (no view calls this service): fed the feed's flag, the standalone service would POST for a current favourite and DELETE for any other item |
| VideoFeed.ShowsEmptyState | components/VideoFeed.tsx:114 | the empty state shows with no videos while nothing loads |
| VideoFeed.ShowsMoreSpinner | components/VideoFeed.tsx:175 | the spinner below the latest feed shows while there is more |
| VideoFeed.ShowsEndMarker | components/VideoFeed.tsx:181 | the end marker of the latest feed shows when there is no more and the list is not empty |
| VideoFeed.EndMarkerExclusive | components/VideoFeed.tsx:175-185 | the end marker never shows beside the empty state or the more spinner |
| Login.NormalizedUrl | components/Login.tsx:23-26 | the result has a scheme and is trimmed; kept as is when the trimmed input has `http://` or `https://`, else `http://` is put in front |
| Login.NormalizeIdempotent | components/Login.tsx:23-26 | normalising twice equals normalising once |
| Login.UpperCaseSchemeIsPrefixed | components/Login.tsx:24-25 | the scheme test is case-sensitive: `HTTP://…` gets `http://` in front |
| Login.SurroundingSpacesDropped | components/Login.tsx:23 | any white space before and after an address that has a scheme is dropped, and nothing else changes |
| Login.LoginForm.constructor | components/Login.tsx:14-15 | not loading, no error |
| Login.LoginForm.HandleLogin | components/Login.tsx:17-43 | authenticates against the normalised address; on success the configuration carries that address, the server's user and token, no server type, and no error; on failure the connection error; never left loading |

## Left out

- Network I/O: every `fetch` and `response.json()`. This covers `authenticate` and `getLibraries` in both clients, the playlist search of `findPlaylist` and `getTokPlaylistId`, `getFavorites`, the clients' `toggleFavorite`, and the identity call of `getMachineIdentifier`. Server answers are parameters instead.
- The Emby client's `getTokPlaylistId` creates the playlist when none exists, even when the favourites feed only reads it. The creating POST is network, so it is not modelled; the favourites feed here reads the given playlist items.
- The Emby client's `getHeaders` (services/EmbyClient.ts:7-14) only sets request headers; it is not modelled.
- `URLSearchParams` and `encodeURIComponent` encoding: query values are kept unencoded.
- The `_t: Date.now()` cache-buster of the Emby listing: it is a clock reading.
- The `Math.random()` part of the standalone device id is a parameter (`randomPart`).
- Date parsing and ISO formatting: last-played dates are integer milliseconds. A date string that does not parse (`NaN`) is not modelled.
- Floating point: `h >= w * 0.8`, `Math.round` and the `/ 10000000 / 60` of `formatTime` are exact rational arithmetic here. Values at a rounding boundary may differ from the browser's doubles.
- Strings.ToLowerAscii: lowers ASCII letters only, not all of Unicode as `toLowerCase` does; the collection and item types it is applied to are ASCII.
- `MediaClient` (services/MediaClient.ts) as a shared interface: the two clients are two modules with the same operations.
- Rendering, scrolling, timers, the auto-play toast, the first-render scroll and the `useLayoutEffect` of the grid: these are UI effects.
- `components/VideoCard.tsx`, `components/LibrarySelect.tsx` and `App.tsx` are not part of this model.
- VideoFeed.FeedView.OnIntersect: models one intersecting entry at a time; the source loops over a batch of entries, each handled the same way.
- VideoFeed.FeedView.NextVideo: `mounted` stands for `containerRef.current` being set; the scroll itself is not modelled, and the active index changes only when the next card intersects.

## Findings

| source | as written | input that shows it | evidently intended | confidence | as-written member | corrected member |
|---|---|---|---|---|---|---|
| services/EmbyClient.ts:82, 124, 137 | The latest/random listing asks for `2*limit` items and shows only the first `limit` that pass the filter. The cursor then moves past every fetched item, so items that passed but did not fit are never shown. | Mode `both`, `limit = 1`, and the server sends items a and b: the page is `[a]` and the next call starts at `skip + 2`, so b is skipped. | The cursor moves only past the raw items actually used: up to the last item shown, or the whole window when the page did not fill. | medium, not executed | EmbyClient.OverFetchSkipsItems | EmbyClient.ResumableItemsPage |

`EmbyClient.GetVideos` keeps the cursor as written, so that it matches the source. The corrected cursor is `ResumableItemsPage`. `ResumablePagingLosesNothing` proves it loses nothing and equals the written cursor whenever the page does not fill.
