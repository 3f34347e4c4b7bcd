/** The community feed of src/pages/CommunityTweets.jsx: one page of
    tweets at a time, with Prev and Next buttons. */
module CommunityTweets {
  import opened Wrappers

  datatype Tweet = Tweet(id: string, content: string, ownerName: string)

  /** The `data` of a successful `/tweets/all-tweets` reply. */
  datatype TweetPage = TweetPage(data: seq<Tweet>, totalPages: int, currentPage: int)

  /** The query the fetch sends: the page and a fixed limit of ten. */
  datatype TweetsRequest = TweetsRequest(page: int, limit: int)

  const FetchError := "Failed to fetch community tweets"

  class Feed {
    var tweets: seq<Tweet>
    var page: int
    var totalPages: int
    var loading: bool
    var error: string

    constructor ()
      ensures tweets == [] && page == 1 && totalPages == 1 && loading && error == ""
    {
      tweets, page, totalPages := [], 1, 1;
      loading, error := true, "";
    }

    /** The state a reply leaves: on success the tweets, the page count and
        the current page all come from the reply and the error is cleared;
        on failure the earlier tweets and pages (`tweets0`, `page0`,
        `totalPages0`) stay and the error is the failure's message or the
        fallback. */
    predicate AfterReply(response: Outcome<TweetPage>, tweets0: seq<Tweet>, page0: int, totalPages0: int)
      reads this
    {
      match response
      case Success(reply) =>
        tweets == reply.data && totalPages == reply.totalPages && page == reply.currentPage && error == ""
      case Failure(message) =>
        tweets == tweets0 && totalPages == totalPages0 && page == page0 && error == MessageOr(message, FetchError)
    }

    /** `fetchTweets(pageNum)`: the error is cleared, page `pageNum` is
        requested ten at a time; on success the tweets, the page count and
        the current page all come from the reply, on failure the error is
        the failure's message or the fallback and everything else stays.
        Loading ends false. */
    method FetchTweets(pageNum: int, response: Outcome<TweetPage>) returns (request: TweetsRequest)
      modifies this
      ensures request == TweetsRequest(pageNum, 10)
      ensures !loading
      ensures AfterReply(response, old(tweets), old(page), old(totalPages))
    {
      loading := true;
      error := "";
      request := TweetsRequest(pageNum, 10);
      match response {
        case Success(reply) =>
          tweets := reply.data;
          totalPages := reply.totalPages;
          page := reply.currentPage;
        case Failure(message) =>
          error := MessageOr(message, FetchError);
      }
      loading := false;
    }

    /** The mount effect: the first page. */
    method Mount(response: Outcome<TweetPage>) returns (request: TweetsRequest)
      modifies this
      ensures request == TweetsRequest(1, 10)
      ensures !loading
      ensures AfterReply(response, old(tweets), old(page), old(totalPages))
      ensures response.Failure? ==> error != ""
    {
      request := FetchTweets(1, response);
    }

    /** `disabled={page === 1}`. */
    predicate PrevDisabled()
      reads this
    {
      PrevTarget(page).None?
    }

    /** `disabled={page === totalPages}`. */
    predicate NextDisabled()
      reads this
    {
      NextTarget(page, totalPages).None?
    }

    /** The Prev button: a disabled button does nothing; otherwise the
        page before the current one is fetched. */
    method PrevClick(response: Outcome<TweetPage>) returns (request: Option<TweetsRequest>)
      modifies this
      ensures request.None? <==> old(page) == 1
      ensures request.None? ==>
        && tweets == old(tweets) && page == old(page) && totalPages == old(totalPages)
        && loading == old(loading) && error == old(error)
      ensures request.Some? ==> request.value == TweetsRequest(old(page) - 1, 10) && !loading
      ensures request.Some? ==> AfterReply(response, old(tweets), old(page), old(totalPages))
    {
      if PrevDisabled() {
        return None;
      }
      var r := FetchTweets(page - 1, response);
      request := Some(r);
    }

    /** The Next button: a disabled button does nothing; otherwise the
        page after the current one is fetched. */
    method NextClick(response: Outcome<TweetPage>) returns (request: Option<TweetsRequest>)
      modifies this
      ensures request.None? <==> old(page) == old(totalPages)
      ensures request.None? ==>
        && tweets == old(tweets) && page == old(page) && totalPages == old(totalPages)
        && loading == old(loading) && error == old(error)
      ensures request.Some? ==> request.value == TweetsRequest(old(page) + 1, 10) && !loading
      ensures request.Some? ==> AfterReply(response, old(tweets), old(page), old(totalPages))
    {
      if NextDisabled() {
        return None;
      }
      var r := FetchTweets(page + 1, response);
      request := Some(r);
    }
  }

  /** The page each button requests, `None` when it is disabled. */
  function PrevTarget(page: int): Option<int>
  {
    if page == 1 then None else Some(page - 1)
  }

  function NextTarget(page: int, totalPages: int): Option<int>
  {
    if page == totalPages then None else Some(page + 1)
  }

  /** While the current page lies between the first and the last, the
      enabled buttons only ask for pages that exist, and on a middle page
      both are enabled. */
  lemma PagerStaysInRange(page: int, totalPages: int)
    requires 1 <= page <= totalPages
    ensures PrevTarget(page).Some? ==> 1 <= PrevTarget(page).value < page
    ensures NextTarget(page, totalPages).Some? ==> page < NextTarget(page, totalPages).value <= totalPages
    ensures PrevTarget(page).None? <==> page == 1
    ensures NextTarget(page, totalPages).None? <==> page == totalPages
  {
  }
}
