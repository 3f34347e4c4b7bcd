/** The video endpoints of src/api/videos.js: the two list queries, built
    as ordered key/value pairs with their defaults and the trimmed search
    term, and the single-video requests that refuse a missing id. */
module VideosApi {
  import opened Wrappers
  import opened Text

  /** One `key=value` pair of the query string, before percent-encoding. */
  datatype Param = Param(key: string, value: string)

  /** The options object of a list query; a field left out (`undefined`)
      takes its default. */
  datatype QueryOptions = QueryOptions(
    page: Option<int>,
    limit: Option<int>,
    query: Option<string>,
    sortBy: Option<string>,
    sortType: Option<string>,
    userId: Option<string>)

  function OrDefault<T>(o: Option<T>, default: T): (r: T)
    ensures o.Some? ==> r == o.value
    ensures o.None? ==> r == default
  {
    if o.Some? then o.value else default
  }

  /** `query && query.trim()`: the search term counts only when something
      other than white space is left. */
  predicate HasQuery(query: Option<string>)
  {
    query.Some? && !IsBlank(query.value)
  }

  /** The trailing `query` pair, present only for a non-blank term. */
  function QueryTail(query: Option<string>): (t: seq<Param>)
    ensures |t| == (if HasQuery(query) then 1 else 0)
    ensures HasQuery(query) ==> t[0] == Param("query", Trim(query.value))
  {
    if HasQuery(query) then [Param("query", Trim(query.value))] else []
  }

  /** Every key occurs at most once. */
  predicate DistinctKeys(ps: seq<Param>)
  {
    forall i, j :: 0 <= i < j < |ps| ==> ps[i].key != ps[j].key
  }

  /** The value stored under `key`, as `URLSearchParams.get` reads it. */
  function Lookup(ps: seq<Param>, key: string): (r: Option<string>)
    ensures r.None? <==> forall i :: 0 <= i < |ps| ==> ps[i].key != key
    ensures r.Some? ==>
      exists i :: 0 <= i < |ps| && ps[i] == Param(key, r.value) && (forall j :: 0 <= j < i ==> ps[j].key != key)
    decreases |ps|
  {
    if ps == [] then None
    else if ps[0].key == key then Some(ps[0].value)
    else Lookup(ps[1..], key)
  }

  /** The pairs `getAllVideos` sends: page, limit, sortBy, sortType with
      their defaults (1, 12, "createdAt", "desc"), then the trimmed search
      term last when there is one. */
  function AllVideosQuery(opts: QueryOptions): (ps: seq<Param>)
    ensures |ps| == (if HasQuery(opts.query) then 5 else 4)
    ensures ps[0] == Param("page", IntToString(OrDefault(opts.page, 1)))
    ensures ps[1] == Param("limit", IntToString(OrDefault(opts.limit, 12)))
    ensures ps[2] == Param("sortBy", OrDefault(opts.sortBy, "createdAt"))
    ensures ps[3] == Param("sortType", OrDefault(opts.sortType, "desc"))
    ensures HasQuery(opts.query) ==> ps[4] == Param("query", Trim(opts.query.value))
  {
    var base := [
      Param("page", IntToString(OrDefault(opts.page, 1))),
      Param("limit", IntToString(OrDefault(opts.limit, 12))),
      Param("sortBy", OrDefault(opts.sortBy, "createdAt")),
      Param("sortType", OrDefault(opts.sortType, "desc"))];
    base + QueryTail(opts.query)
  }

  /** The keys page, limit, sortBy, sortType and an optional query are
      pairwise distinct, and none of them is userId. */
  lemma AllKeysDistinct(ps: seq<Param>)
    requires |ps| == 4 || |ps| == 5
    requires ps[0].key == "page" && ps[1].key == "limit" && ps[2].key == "sortBy" && ps[3].key == "sortType"
    requires |ps| == 5 ==> ps[4].key == "query"
    ensures DistinctKeys(ps)
    ensures Lookup(ps, "userId").None?
  {
    assert forall i :: 0 <= i < |ps| ==> ps[i].key != "userId";
  }

  /** The pairs `getUserVideos` sends, or its error when the user id is
      missing or empty: the same four leading pairs with a default limit of
      10, then the user id, then the trimmed search term last. */
  function UserVideosQuery(opts: QueryOptions): (r: Outcome<seq<Param>>)
    ensures r.Failure? <==> !Truthy(opts.userId)
    ensures r.Failure? ==> r.message == Some("User ID is required")
    ensures r.Success? ==> var ps := r.value;
      && |ps| == (if HasQuery(opts.query) then 6 else 5)
      && ps[0] == Param("page", IntToString(OrDefault(opts.page, 1)))
      && ps[1] == Param("limit", IntToString(OrDefault(opts.limit, 10)))
      && ps[2] == Param("sortBy", OrDefault(opts.sortBy, "createdAt"))
      && ps[3] == Param("sortType", OrDefault(opts.sortType, "desc"))
      && ps[4] == Param("userId", opts.userId.value)
      && (HasQuery(opts.query) ==> ps[5] == Param("query", Trim(opts.query.value)))
      && DistinctKeys(ps)
  {
    if !Truthy(opts.userId) then Failure(Some("User ID is required"))
    else
      var base := [
        Param("page", IntToString(OrDefault(opts.page, 1))),
        Param("limit", IntToString(OrDefault(opts.limit, 10))),
        Param("sortBy", OrDefault(opts.sortBy, "createdAt")),
        Param("sortType", OrDefault(opts.sortType, "desc")),
        Param("userId", opts.userId.value)];
      var ps := base + QueryTail(opts.query);
      UserKeysDistinct(ps);
      Success(ps)
  }

  /** The keys page, limit, sortBy, sortType, userId and an optional query
      are pairwise distinct. */
  lemma UserKeysDistinct(ps: seq<Param>)
    requires |ps| == 5 || |ps| == 6
    requires ps[0].key == "page" && ps[1].key == "limit" && ps[2].key == "sortBy"
    requires ps[3].key == "sortType" && ps[4].key == "userId"
    requires |ps| == 6 ==> ps[5].key == "query"
    ensures DistinctKeys(ps)
  {
  }

  /** With a user id, the user query is the public query with the user's
      default limit and the user id put just before the search term. */
  lemma UserQueryExtendsAllQuery(opts: QueryOptions)
    requires Truthy(opts.userId)
    ensures var all := AllVideosQuery(opts.(limit := Some(OrDefault(opts.limit, 10))));
      UserVideosQuery(opts).value == all[..4] + [Param("userId", opts.userId.value)] + all[4..]
  {
  }

  /** In a list with distinct keys, looking up an entry's key finds that
      entry's value. */
  lemma {:induction false} LookupDistinct(ps: seq<Param>, i: nat)
    requires DistinctKeys(ps) && i < |ps|
    ensures Lookup(ps, ps[i].key) == Some(ps[i].value)
    decreases |ps|
  {
    if i > 0 {
      assert ps[1..][i - 1] == ps[i];
      LookupDistinct(ps[1..], i - 1);
    }
  }

  /** Every option reads back from the public query under its own key,
      defaults filled in; the search term reads back trimmed, and a blank
      one is left out. */
  lemma AllVideosQueryReadsBack(opts: QueryOptions)
    ensures var ps := AllVideosQuery(opts);
      && Lookup(ps, "page") == Some(IntToString(OrDefault(opts.page, 1)))
      && Lookup(ps, "limit") == Some(IntToString(OrDefault(opts.limit, 12)))
      && Lookup(ps, "sortBy") == Some(OrDefault(opts.sortBy, "createdAt"))
      && Lookup(ps, "sortType") == Some(OrDefault(opts.sortType, "desc"))
      && Lookup(ps, "query") == (if HasQuery(opts.query) then Some(Trim(opts.query.value)) else None)
      && Lookup(ps, "userId").None?
  {
    var ps := AllVideosQuery(opts);
    AllKeysDistinct(ps);
    LookupDistinct(ps, 0);
    LookupDistinct(ps, 1);
    LookupDistinct(ps, 2);
    LookupDistinct(ps, 3);
    if HasQuery(opts.query) {
      LookupDistinct(ps, 4);
    }
  }

  /** `getAllVideos`: the four pairs of the `URLSearchParams` constructor,
      then the search term appended when it is not blank. */
  method GetAllVideos(opts: QueryOptions) returns (params: seq<Param>)
    ensures params == AllVideosQuery(opts)
  {
    var page := if opts.page.Some? then opts.page.value else 1;
    var limit := if opts.limit.Some? then opts.limit.value else 12;
    var sortBy := if opts.sortBy.Some? then opts.sortBy.value else "createdAt";
    var sortType := if opts.sortType.Some? then opts.sortType.value else "desc";
    params := [Param("page", IntToString(page)), Param("limit", IntToString(limit)),
               Param("sortBy", sortBy), Param("sortType", sortType)];
    var tail := SearchTerm(opts.query);
    params := params + tail;
  }

  /** `getUserVideos`: throws before building anything when the user id is
      missing, otherwise builds the five pairs and appends the search term
      when it is not blank. */
  method GetUserVideos(opts: QueryOptions) returns (r: Outcome<seq<Param>>)
    ensures r == UserVideosQuery(opts)
  {
    var page := if opts.page.Some? then opts.page.value else 1;
    var limit := if opts.limit.Some? then opts.limit.value else 10;
    var sortBy := if opts.sortBy.Some? then opts.sortBy.value else "createdAt";
    var sortType := if opts.sortType.Some? then opts.sortType.value else "desc";
    if opts.userId.None? || opts.userId.value == "" {
      return Failure(Some("User ID is required"));
    }
    var params := [Param("page", IntToString(page)), Param("limit", IntToString(limit)),
                   Param("sortBy", sortBy), Param("sortType", sortType), Param("userId", opts.userId.value)];
    var tail := SearchTerm(opts.query);
    r := Success(params + tail);
  }

  /** `if (query && query.trim()) queryParams.append('query', query.trim())`:
      the pair appended for the search term, if any. */
  method SearchTerm(query: Option<string>) returns (tail: seq<Param>)
    ensures tail == QueryTail(query)
  {
    tail := [];
    if query.Some? {
      TrimProperties(query.value);
    }
    if query.Some? && query.value != "" && Trim(query.value) != "" {
      tail := [Param("query", Trim(query.value))];
    }
  }

  // Single-video requests.

  datatype Verb = Get | Post | Patch | Delete

  datatype Request = Request(verb: Verb, path: string)

  /** The five endpoints that address one video by id. */
  datatype VideoAction = FetchById | UpdateVideo | DeleteVideo | TogglePublish | RecordWatch

  /** The text before the id in each route. */
  function RoutePrefix(a: VideoAction): string
  {
    match a
    case FetchById => "/videos/getvideobyid/"
    case UpdateVideo => "/videos/update-video/"
    case DeleteVideo => "/videos/delete-video/"
    case TogglePublish => "/videos/togglepublishstatus/"
    case RecordWatch => "/videos/"
  }

  /** The text after the id in each route. */
  function RouteSuffix(a: VideoAction): string
  {
    if a == RecordWatch then "/watch" else ""
  }

  function RouteVerb(a: VideoAction): Verb
  {
    match a
    case FetchById => Get
    case UpdateVideo => Patch
    case DeleteVideo => Delete
    case TogglePublish => Post
    case RecordWatch => Post
  }

  /** `getVideoById`, `updateVideo`, `deleteVideo`, `togglePublishStatus`
      and `watchVideo`: a missing or empty id is refused with "Video ID is
      required" before any request; otherwise the id is placed verbatim in
      the fixed route. */
  function VideoRequest(a: VideoAction, videoId: Option<string>): (r: Outcome<Request>)
    ensures r.Failure? <==> !Truthy(videoId)
    ensures r.Failure? ==> r.message == Some("Video ID is required")
    ensures r.Success? ==> r.value.verb == RouteVerb(a)
  {
    if !Truthy(videoId) then Failure(Some("Video ID is required"))
    else Success(Request(RouteVerb(a), RoutePrefix(a) + videoId.value + RouteSuffix(a)))
  }

  /** The id can be cut back out of the path between the route's fixed
      parts, so distinct ids give distinct requests. */
  lemma VideoIdReadsBack(a: VideoAction, id: string)
    requires id != ""
    ensures var p := VideoRequest(a, Some(id)).value.path;
      && |p| == |RoutePrefix(a)| + |id| + |RouteSuffix(a)|
      && p[..|RoutePrefix(a)|] == RoutePrefix(a)
      && p[|RoutePrefix(a)|..|p| - |RouteSuffix(a)|] == id
      && p[|p| - |RouteSuffix(a)|..] == RouteSuffix(a)
  {
    var p := VideoRequest(a, Some(id)).value.path;
    assert p == RoutePrefix(a) + id + RouteSuffix(a);
  }

  lemma VideoRequestInjective(a: VideoAction, x: string, y: string)
    requires x != "" && y != ""
    requires VideoRequest(a, Some(x)) == VideoRequest(a, Some(y))
    ensures x == y
  {
    VideoIdReadsBack(a, x);
    VideoIdReadsBack(a, y);
  }
}
