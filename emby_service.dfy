/** The standalone Emby helpers of services/embyService.ts: request headers, the
    query of the vertical-video feed and its vertical filter, the favourite toggle,
    and the stream and image URLs. */
module EmbyService {
  import opened Types
  import opened Strings
  import opened Seqs

  const CLIENT_NAME := "EmbyTok Web"
  const CLIENT_VERSION := "1.0.0"
  const DEVICE_NAME := "Web Browser"
  /** Prefix of the device id; the rest is random and is a parameter here. */
  const DEVICE_ID_PREFIX := "embytok-web-client-id-"

  /** The authorization value up to and including its Version field; `randomPart`
      stands for the `Math.random()` text that ends the device id. */
  function AuthorizationBase(randomPart: string): string {
    "MediaBrowser Client=\"" + CLIENT_NAME + "\", Device=\"" + DEVICE_NAME
      + "\", DeviceId=\"" + DEVICE_ID_PREFIX + randomPart + "\", Version=\"" + CLIENT_VERSION + "\""
  }

  /** `getHeaders(token?)`: the Token segment is appended only for a non-empty token. */
  function Headers(randomPart: string, token: Option<string>): (h: Query)
    ensures DistinctKeys(h)
    ensures Lookup(h, "Content-Type") == Some("application/json")
    ensures Lookup(h, "X-Emby-Authorization").Some?
    ensures var auth := Lookup(h, "X-Emby-Authorization").value;
            AuthorizationBase(randomPart) <= auth
            && (Truthy(token) ==> auth[|AuthorizationBase(randomPart)|..] == ", Token=\"" + token.value + "\"")
            && (!Truthy(token) ==> auth == AuthorizationBase(randomPart))
  {
    var auth := AuthorizationBase(randomPart) + (if Truthy(token) then ", Token=\"" + token.value + "\"" else "");
    var h := [("Content-Type", "application/json"), ("X-Emby-Authorization", auth)];
    LookupFound(h, 0);
    LookupFound(h, 1);
    h
  }

  /** The POST that `authenticate` sends: its URL and its body's two fields. */
  function AuthenticateRequest(serverUrl: string, username: string, password: string): (r: Url)
    ensures r.base == StripTrailingSlash(serverUrl) + "/Users/AuthenticateByName"
    ensures Lookup(r.query, "Username") == Some(username) && Lookup(r.query, "Pw") == Some(password)
  {
    var body := [("Username", username), ("Pw", password)];
    LookupFound(body, 0);
    LookupFound(body, 1);
    Url(StripTrailingSlash(serverUrl) + "/Users/AuthenticateByName", body)
  }

  const ITEM_TYPES := "Movie,Video,Episode"

  /** Whether `getVerticalVideos` keeps an item: a known width and h >= 0.8 * w. */
  predicate IsVertical(item: Item) {
    var w := NumOrZero(item.width);
    var h := NumOrZero(item.height);
    5 * h >= 4 * w && w > 0
  }

  /** What the query of `getVerticalVideos` promises. */
  predicate VerticalQuerySpec(q: Query, parentId: Option<string>, feedType: FeedType) {
    && DistinctKeys(q)
    && Lookup(q, "IncludeItemTypes") == Some(ITEM_TYPES) && Lookup(q, "Recursive") == Some("true")
    && Lookup(q, "Limit") == Some("100")
    && Lookup(q, "SortBy") == Some(if feedType == Random then "Random" else "DateCreated")
    && Lookup(q, "SortOrder") == (if feedType == Random then None else Some("Descending"))
    && Lookup(q, "Filters") == (if feedType == Favorites then Some("IsFavorite") else None)
    && Lookup(q, "ParentId") == (if Truthy(parentId) then Some(parentId.value) else None)
  }

  /** The six parameters every vertical-video request starts with. */
  function VerticalBase(): Query {
    [ ("IncludeItemTypes", ITEM_TYPES), ("Recursive", "true"),
      ("Fields", "MediaSources,Width,Height,Overview,UserData"), ("Limit", "100"),
      ("ImageTypeLimit", "1"), ("EnableImageTypes", "Primary,Backdrop,Banner,Thumb") ]
  }

  /** The sort parameters of a feed. */
  function SortPart(feedType: FeedType): Query {
    if feedType == Random then [("SortBy", "Random")]
    else [("SortBy", "DateCreated"), ("SortOrder", "Descending")]
  }

  /** The favourites filter, only for the favourites feed. */
  function FilterPart(feedType: FeedType): Query {
    if feedType == Favorites then [("Filters", "IsFavorite")] else []
  }

  /** The parent folder, only when one is given. */
  function ParentPart(parentId: Option<string>): Query {
    if Truthy(parentId) then [("ParentId", parentId.value)] else []
  }

  /** The four parts joined in order. */
  function VerticalParts(parentId: Option<string>, feedType: FeedType): Query {
    VerticalBase() + SortPart(feedType) + FilterPart(feedType) + ParentPart(parentId)
  }

  lemma VerticalKeysDistinct(parentId: Option<string>, feedType: FeedType)
    ensures DistinctKeys(VerticalParts(parentId, feedType))
  {
    var base, sort, filter, parent := VerticalBase(), SortPart(feedType), FilterPart(feedType), ParentPart(parentId);
    DistinctKeysAppend(base, sort);
    DistinctKeysAppend(base + sort, filter);
    var front := base + sort + filter;
    assert forall k :: 0 <= k < |front| ==> front[k].0 != "ParentId";
    DistinctKeysAppend(front, parent);
  }

  /** The four parts, joined in order, meet the vertical query's promise. */
  lemma VerticalPartsMeetSpec(parentId: Option<string>, feedType: FeedType)
    ensures VerticalQuerySpec(VerticalParts(parentId, feedType), parentId, feedType)
  {
    var head := VerticalBase() + SortPart(feedType);
    var q := VerticalParts(parentId, feedType);
    var n := |head|;
    VerticalKeysDistinct(parentId, feedType);
    assert forall k :: 0 <= k < n ==> q[k] == head[k];
    LookupFound(q, 0);
    LookupFound(q, 1);
    LookupFound(q, 3);
    LookupFound(q, 6);
    if feedType == Random { LookupMissing(q, "SortOrder"); } else { LookupFound(q, 7); }
    if feedType == Favorites { LookupFound(q, n); } else { LookupMissing(q, "Filters"); }
    if Truthy(parentId) { LookupFound(q, |q| - 1); } else { LookupMissing(q, "ParentId"); }
  }

  /** The parameters `getVerticalVideos` sends, appended in the source's order. */
  method VerticalVideosQuery(parentId: Option<string>, feedType: FeedType) returns (q: Query)
    ensures VerticalQuerySpec(q, parentId, feedType)
  {
    q := [ ("IncludeItemTypes", ITEM_TYPES), ("Recursive", "true"),
           ("Fields", "MediaSources,Width,Height,Overview,UserData"), ("Limit", "100"),
           ("ImageTypeLimit", "1"), ("EnableImageTypes", "Primary,Backdrop,Banner,Thumb") ];
    if feedType == Random {
      q := q + [("SortBy", "Random")];
    } else {
      q := q + [("SortBy", "DateCreated"), ("SortOrder", "Descending")];
    }
    if feedType == Favorites {
      q := q + [("Filters", "IsFavorite")];
    }
    if Truthy(parentId) {
      q := q + [("ParentId", parentId.value)];
    }
    assert q == VerticalParts(parentId, feedType);
    VerticalPartsMeetSpec(parentId, feedType);
  }

  /** `items.filter(...)` at the end of `getVerticalVideos`. */
  function KeepVertical(items: seq<Item>): (r: seq<Item>)
    ensures r == Filter(items, IsVertical)
    ensures IsSubsequence(r, items)
    ensures forall i :: 0 <= i < |r| ==> r[i] in items && NumOrZero(r[i].width) > 0
    ensures forall i :: 0 <= i < |r| ==> 5 * NumOrZero(r[i].height) >= 4 * NumOrZero(r[i].width)
    ensures forall i :: (0 <= i < |items| && NumOrZero(items[i].width) > 0
                         && 5 * NumOrZero(items[i].height) >= 4 * NumOrZero(items[i].width)) ==> items[i] in r
  {
    Filter(items, IsVertical)
  }

  /** `getVerticalVideos`: the request it sends and what it makes of the reply; a
      reply that is not ok (None) becomes the thrown error (None). */
  method GetVerticalVideos(serverUrl: string, userId: string, parentId: Option<string>,
                           feedType: FeedType, reply: Option<seq<Item>>)
    returns (request: Url, result: Option<seq<Item>>)
    ensures request.base == StripTrailingSlash(serverUrl) + "/Users/" + userId + "/Items"
    ensures VerticalQuerySpec(request.query, parentId, feedType)
    ensures result.Some? <==> reply.Some?
    ensures result.Some? ==> result.value == KeepVertical(reply.value)
  {
    var q := VerticalVideosQuery(parentId, feedType);
    request := Url(StripTrailingSlash(serverUrl) + "/Users/" + userId + "/Items", q);
    if reply.None? {
      result := None;
    } else {
      result := Some(KeepVertical(reply.value));
    }
  }

  /** `toggleFavorite`: POST to FavoriteItems/{id} to add, DELETE to .../Delete to remove. */
  function ToggleFavorite(serverUrl: string, userId: string, itemId: string, isFavorite: bool)
    : (r: (HttpMethod, string))
    ensures r.0 == Post <==> isFavorite
    ensures r.0 == Delete <==> !isFavorite
    ensures var endpoint := StripTrailingSlash(serverUrl) + "/Users/" + userId + "/FavoriteItems/" + itemId;
            endpoint <= r.1 && r.1[|endpoint|..] == if isFavorite then "" else "/Delete"
  {
    var endpoint := StripTrailingSlash(serverUrl) + "/Users/" + userId + "/FavoriteItems/" + itemId;
    if isFavorite then (Post, endpoint) else (Delete, endpoint + "/Delete")
  }

  /** `getVideoUrl`: the static stream of the item, authorised by the token. */
  function GetVideoUrl(serverUrl: string, itemId: string, token: string): (u: Url)
    ensures StripTrailingSlash(serverUrl) <= u.base
    ensures u.base[|StripTrailingSlash(serverUrl)|..] == "/Videos/" + itemId + "/stream.mp4"
    ensures Lookup(u.query, "Static") == Some("true") && Lookup(u.query, "api_key") == Some(token)
  {
    var q := [("Static", "true"), ("api_key", token)];
    LookupFound(q, 0);
    LookupFound(q, 1);
    Url(StripTrailingSlash(serverUrl) + "/Videos/" + itemId + "/stream.mp4", q)
  }

  /** `getImageUrl`: no URL (the empty string) without a tag. */
  function GetImageUrl(serverUrl: string, itemId: string, tag: Option<string>, kind: ImageType)
    : (u: Option<Url>)
    ensures u.Some? <==> Truthy(tag)
    ensures u.Some? ==> u.value.base == StripTrailingSlash(serverUrl) + "/Items/" + itemId + "/Images/" + kind.Name()
    ensures u.Some? ==> Lookup(u.value.query, "tag") == tag && Lookup(u.value.query, "maxWidth") == Some("800")
  {
    if !Truthy(tag) then None
    else
      var q := [("maxWidth", "800"), ("tag", tag.value), ("quality", "90")];
      LookupFound(q, 0);
      LookupFound(q, 1);
      Some(Url(StripTrailingSlash(serverUrl) + "/Items/" + itemId + "/Images/" + kind.Name(), q))
  }

  /** A server URL with or without its trailing '/' yields the same stream URL. */
  lemma VideoUrlIgnoresTrailingSlash(serverUrl: string, itemId: string, token: string)
    requires serverUrl == [] || serverUrl[|serverUrl| - 1] != '/'
    ensures GetVideoUrl(serverUrl + "/", itemId, token) == GetVideoUrl(serverUrl, itemId, token)
  {
    StripTrailingSlashOnce(serverUrl);
  }
}
