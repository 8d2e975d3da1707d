/** The normalized item model shared by both backends (types.ts), the shape of a
    paged answer, and the ordered key/value lists that stand for query strings. */
module Types {

  datatype Option<T> = None | Some(value: T) {
    function GetOr(default: T): T {
      if Some? then value else default
    }
  }

  /** JavaScript truthiness of an optional string: absent and "" are both false. */
  predicate Truthy(s: Option<string>) {
    s.Some? && s.value != ""
  }

  /** `n || 0` for an optional number. */
  function NumOrZero(n: Option<nat>): nat {
    n.GetOr(0)
  }

  /** A value interpolated into a template literal: an absent one prints as "undefined". */
  function TemplateText(s: Option<string>): string {
    s.GetOr("undefined")
  }

  datatype ServerType = Emby | Plex

  /** ServerConfig; `serverType` is optional because the login form does not set it. */
  datatype ServerConfig = ServerConfig(
    url: string,
    username: string,
    token: string,
    userId: string,
    serverType: Option<ServerType>)

  /** EmbyLibrary: also what the Plex client makes of a library section. */
  datatype Library = Library(id: string, name: string, collectionType: Option<string>)

  datatype ImageTags = ImageTags(primary: Option<string>)

  /** UserData. Dates are millisecond timestamps. */
  datatype UserData = UserData(
    isFavorite: bool,
    playbackPositionTicks: Option<nat>,
    playCount: nat,
    played: Option<bool>,
    lastPlayedDate: Option<int>)

  /** EmbyItem, the one item model both clients produce. `indexNumber` and
      `parentIndexNumber` are the episode and season numbers the Emby server sends;
      `plexKey` is the Plex client's private media-part path. */
  datatype Item = Item(
    id: string,
    name: Option<string>,
    itemType: string,
    mediaType: string,
    overview: Option<string>,
    productionYear: Option<int>,
    width: Option<nat>,
    height: Option<nat>,
    runTimeTicks: Option<nat>,
    imageTags: Option<ImageTags>,
    userData: Option<UserData>,
    indexNumber: Option<nat>,
    parentIndexNumber: Option<nat>,
    plexKey: Option<string>)

  datatype FeedType = Latest | Random | Favorites

  datatype OrientationMode = Vertical | Horizontal | Both

  datatype ImageType = Primary | Backdrop {
    function Name(): string {
      match this
      case Primary => "Primary"
      case Backdrop => "Backdrop"
    }
  }

  /** VideoResponse: one page of items and the cursor for the next call. */
  datatype VideoResponse = VideoResponse(items: seq<Item>, nextStartIndex: nat, totalCount: nat)

  const EMPTY_RESPONSE := VideoResponse([], 0, 0)

  /** A query string as the ordered list of its (key, value) pairs, values unencoded. */
  type Query = seq<(string, string)>

  /** A URL: everything before '?' and the query after it. */
  datatype Url = Url(base: string, query: Query)

  datatype HttpMethod = Get | Post | Put | Delete

  /** What a `getVideos` call reads from the server: the items of the favourites
      playlist with this title, one listing request, or nothing at all. */
  datatype Fetch = PlaylistItems(title: string) | Listing(request: Url) | NoFetch

  /** The value the first pair with this key carries (`URLSearchParams.get`). */
  function Lookup(q: Query, key: string): Option<string> {
    if q == [] then None
    else if q[0].0 == key then Some(q[0].1)
    else Lookup(q[1..], key)
  }

  predicate DistinctKeys(q: Query) {
    forall i, j :: 0 <= i < j < |q| ==> q[i].0 != q[j].0
  }

  lemma {:induction false} LookupFound(q: Query, i: nat)
    requires DistinctKeys(q) && i < |q|
    ensures Lookup(q, q[i].0) == Some(q[i].1)
  {
    if i > 0 {
      LookupFound(q[1..], i - 1);
    }
  }

  lemma {:induction false} LookupMissing(q: Query, key: string)
    requires forall i :: 0 <= i < |q| ==> q[i].0 != key
    ensures Lookup(q, key) == None
  {
    if q != [] {
      LookupMissing(q[1..], key);
    }
  }

  /** Joining two queries with distinct keys and no key in common keeps the keys distinct. */
  lemma DistinctKeysAppend(a: Query, b: Query)
    requires DistinctKeys(a) && DistinctKeys(b)
    requires forall i, j :: 0 <= i < |a| && 0 <= j < |b| ==> a[i].0 != b[j].0
    ensures DistinctKeys(a + b)
  {
  }
}
