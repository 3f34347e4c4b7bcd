/** The home feed of src/pages/Home.jsx: the paginated video list that a
    fetch replaces or extends, the load-more guard, search, the sort
    selector and the click that opens a video. */
module Home {
  import opened Wrappers
  import AuthContext
  import Text
  import VideosApi
  import AppRoutes

  datatype VideoSummary = VideoSummary(id: string, title: string)

  /** The `data` of a successful `getAllVideos` reply. */
  datatype VideoPage = VideoPage(videos: seq<VideoSummary>, totalPages: int, currentPage: int)

  /** What the page renders before anything else: the landing page for a
      visitor without a user, the feed otherwise. */
  datatype HomeView = Landing | Feed

  function HomeContent(user: Option<AuthContext.Profile>): (v: HomeView)
    ensures v == Landing <==> user.None?
  {
    if user.None? then Landing else Feed
  }

  /** A guest on "/" gets the bare home route, and the bare home page shows
      the landing page. */
  lemma GuestSeesLanding(token: Option<string>)
    ensures AppRoutes.AppRoutes(false, AuthContext.Authenticated(token, None), "/") == AppRoutes.Page(AppRoutes.Home)
    ensures HomeContent(None) == Landing
  {
  }

  const LoadError := "Failed to load videos. Please try again."

  /** The list after a successful fetch: the fetched page alone when the
      fetch resets or asks for page 1, otherwise appended to the list. */
  function Merge(prev: seq<VideoSummary>, fetched: seq<VideoSummary>, pageNum: int, reset: bool): (r: seq<VideoSummary>)
    ensures reset || pageNum == 1 ==> r == fetched
    ensures !reset && pageNum != 1 ==> |r| == |prev| + |fetched| && r[..|prev|] == prev && r[|prev|..] == fetched
  {
    if reset || pageNum == 1 then fetched else prev + fetched
  }

  /** Loading pages 2, 3, ... one after the other without a reset keeps
      every earlier video, in order, in front of the later ones. */
  lemma MergeAccumulates(a: seq<VideoSummary>, b: seq<VideoSummary>, c: seq<VideoSummary>, p: int, q: int)
    requires p != 1 && q != 1
    ensures Merge(Merge(a, b, p, false), c, q, false) == a + b + c
  {
  }

  class HomeScreen {
    var videos: seq<VideoSummary>
    var loading: bool
    var error: Option<string>
    var page: int
    var hasMore: bool
    var searchQuery: string
    var sortBy: string

    /** The initial state, before the mount effect runs. */
    constructor ()
      ensures videos == [] && loading && error.None? && page == 1 && hasMore
      ensures searchQuery == "" && sortBy == "createdAt"
    {
      videos, loading, error := [], true, None;
      page, hasMore := 1, true;
      searchQuery, sortBy := "", "createdAt";
    }

    /** `fetchVideos(pageNum, query, reset)`: asks for 12 videos of the page
        in the current order (the returned pairs) and, on success, merges
        them into the list, sets `hasMore` to whether the reply's current
        page is before its last, and remembers the page number. A failure
        sets the error and keeps the list, the page and `hasMore`. Loading
        ends false either way. */
    method FetchVideos(pageNum: int, query: string, reset: bool, response: Outcome<VideoPage>)
      returns (request: seq<VideosApi.Param>)
      modifies this
      ensures request == VideosApi.AllVideosQuery(VideosApi.QueryOptions(
        Some(pageNum), Some(12), Some(query), Some(old(sortBy)), Some("desc"), None))
      ensures !loading
      ensures response.Success? ==>
        && videos == Merge(old(videos), response.value.videos, pageNum, reset)
        && hasMore == (response.value.currentPage < response.value.totalPages)
        && page == pageNum
        && error.None?
      ensures response.Failure? ==>
        videos == old(videos) && hasMore == old(hasMore) && page == old(page) && error == Some(LoadError)
      ensures searchQuery == old(searchQuery) && sortBy == old(sortBy)
    {
      loading := pageNum == 1;
      error := None;
      request := VideosApi.GetAllVideos(VideosApi.QueryOptions(
        Some(pageNum), Some(12), Some(query), Some(sortBy), Some("desc"), None));
      ApplyReply(pageNum, reset, response);
      loading := false;
    }

    /** The part of `fetchVideos` after the request: the reply's videos are
        merged in, or the error is set. */
    method ApplyReply(pageNum: int, reset: bool, response: Outcome<VideoPage>)
      modifies this`videos, this`hasMore, this`page, this`error
      ensures response.Success? ==>
        && videos == Merge(old(videos), response.value.videos, pageNum, reset)
        && hasMore == (response.value.currentPage < response.value.totalPages)
        && page == pageNum
        && error == old(error)
      ensures response.Failure? ==>
        videos == old(videos) && hasMore == old(hasMore) && page == old(page) && error == Some(LoadError)
    {
      match response {
        case Success(data) =>
          if reset {
            videos := data.videos;
          } else {
            videos := if pageNum == 1 then data.videos else videos + data.videos;
          }
          hasMore := data.currentPage < data.totalPages;
          page := pageNum;
        case Failure(_) =>
          error := Some(LoadError);
      }
    }

    /** The mount effect: `fetchVideos()` with its defaults, page 1 of the
        unfiltered feed in the current order. */
    method Mount(response: Outcome<VideoPage>) returns (request: seq<VideosApi.Param>)
      modifies this
      ensures VideosApi.Lookup(request, "page") == Some("1") && VideosApi.Lookup(request, "limit") == Some("12")
      ensures VideosApi.Lookup(request, "sortBy") == Some(old(sortBy)) && VideosApi.Lookup(request, "query").None?
      ensures !loading
      ensures response.Success? ==>
        && videos == response.value.videos && page == 1 && error.None?
        && hasMore == (response.value.currentPage < response.value.totalPages)
      ensures response.Failure? ==>
        videos == old(videos) && page == old(page) && hasMore == old(hasMore) && error == Some(LoadError)
      ensures searchQuery == old(searchQuery) && sortBy == old(sortBy)
    {
      request := FetchVideos(1, "", false, response);
      VideosApi.AllVideosQueryReadsBack(VideosApi.QueryOptions(Some(1), Some(12), Some(""), Some(old(sortBy)), Some("desc"), None));
      Text.SmallIntTexts();
    }

    /** `loadMore`: fetches the next page, keeping the search term, only
        when nothing is loading and there is more to fetch. */
    method LoadMore(response: Outcome<VideoPage>) returns (fetched: bool)
      modifies this
      ensures fetched <==> !old(loading) && old(hasMore)
      ensures !fetched ==>
        videos == old(videos) && page == old(page) && loading == old(loading) && hasMore == old(hasMore) && error == old(error)
      ensures fetched ==> !loading
      ensures fetched && response.Success? ==>
        && videos == Merge(old(videos), response.value.videos, old(page) + 1, false) && page == old(page) + 1
        && hasMore == (response.value.currentPage < response.value.totalPages) && error.None?
      ensures fetched && response.Failure? ==>
        videos == old(videos) && page == old(page) && hasMore == old(hasMore) && error == Some(LoadError)
      ensures searchQuery == old(searchQuery) && sortBy == old(sortBy)
    {
      fetched := !loading && hasMore;
      if fetched {
        var _ := FetchVideos(page + 1, searchQuery, false, response);
      }
    }

    /** `handleSearch`, and the retry button, which does the same: page 1
        of the current search term, replacing the list. */
    method HandleSearch(response: Outcome<VideoPage>) returns (request: seq<VideosApi.Param>)
      modifies this
      ensures VideosApi.Lookup(request, "page") == Some("1")
      ensures VideosApi.Lookup(request, "query") ==
        if VideosApi.HasQuery(Some(old(searchQuery))) then Some(Text.Trim(old(searchQuery))) else None
      ensures !loading
      ensures response.Success? ==>
        && videos == response.value.videos && page == 1 && error.None?
        && hasMore == (response.value.currentPage < response.value.totalPages)
      ensures response.Failure? ==>
        videos == old(videos) && page == old(page) && hasMore == old(hasMore) && error == Some(LoadError)
      ensures searchQuery == old(searchQuery) && sortBy == old(sortBy)
    {
      request := FetchVideos(1, searchQuery, true, response);
      VideosApi.AllVideosQueryReadsBack(VideosApi.QueryOptions(Some(1), Some(12), Some(old(searchQuery)), Some(old(sortBy)), Some("desc"), None));
    }

    /** The "Clear search" button: the term is emptied and page 1 of the
        unfiltered feed replaces the list. */
    method ClearSearch(response: Outcome<VideoPage>) returns (request: seq<VideosApi.Param>)
      modifies this
      ensures searchQuery == "" && sortBy == old(sortBy)
      ensures VideosApi.Lookup(request, "query").None?
      ensures !loading
      ensures response.Success? ==>
        && videos == response.value.videos && page == 1 && error.None?
        && hasMore == (response.value.currentPage < response.value.totalPages)
      ensures response.Failure? ==>
        videos == old(videos) && page == old(page) && hasMore == old(hasMore) && error == Some(LoadError)
    {
      searchQuery := "";
      request := FetchVideos(1, "", true, response);
      VideosApi.AllVideosQueryReadsBack(VideosApi.QueryOptions(Some(1), Some(12), Some(""), Some(sortBy), Some("desc"), None));
    }

    /** Picking a sort order: when it differs from the current one the
        mount effect runs again, fetching page 1 with its default arguments,
        so without the search term. */
    method ChangeSort(order: string, response: Outcome<VideoPage>) returns (fetched: bool, request: seq<VideosApi.Param>)
      modifies this
      ensures sortBy == order
      ensures fetched <==> order != old(sortBy)
      ensures fetched ==> VideosApi.Lookup(request, "sortBy") == Some(order)
      ensures fetched ==> VideosApi.Lookup(request, "query").None?
      ensures fetched ==> !loading
      ensures fetched && response.Success? ==>
        && videos == response.value.videos && page == 1 && error.None?
        && hasMore == (response.value.currentPage < response.value.totalPages)
      ensures fetched && response.Failure? ==>
        videos == old(videos) && page == old(page) && hasMore == old(hasMore) && error == Some(LoadError)
      ensures !fetched ==>
        videos == old(videos) && page == old(page) && hasMore == old(hasMore)
        && loading == old(loading) && error == old(error)
      ensures searchQuery == old(searchQuery)
    {
      fetched := order != sortBy;
      sortBy := order;
      request := [];
      if fetched {
        request := FetchVideos(1, "", false, response);
        VideosApi.AllVideosQueryReadsBack(VideosApi.QueryOptions(Some(1), Some(12), Some(""), Some(order), Some("desc"), None));
      }
    }
  }

  /** `handleVideoClick`: the view is recorded (`recorded` is its outcome)
      and the watch page of the video is opened whether or not that
      succeeded. */
  function HandleVideoClick(id: string, recorded: Outcome<()>): (navigateTo: string)
    ensures |navigateTo| == 7 + |id| && navigateTo[..7] == "/watch/" && navigateTo[7..] == id
  {
    "/watch/" + id
  }

  /** The page a clicked video opens is its watch page, for an id that is
      a single path segment, and an authenticated user sees it. */
  lemma ClickOpensWatchPage(id: string, recorded: Outcome<()>)
    requires AppRoutes.IsSegment(id)
    ensures AppRoutes.Match(HandleVideoClick(id, recorded)) == Some(AppRoutes.Watch(id))
    ensures AppRoutes.AppRoutes(false, true, HandleVideoClick(id, recorded)) == AppRoutes.WithLayout(AppRoutes.Watch(id))
  {
    AppRoutes.MatchPathOf(AppRoutes.Watch(id));
    assert HandleVideoClick(id, recorded) == AppRoutes.PathOf(AppRoutes.Watch(id));
  }
}
