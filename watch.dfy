/** The watch page of src/pages/Watch.jsx: the comment list transforms and
    the like, subscribe and comment handlers with their optimistic updates
    and rollbacks. */
module Watch {
  import opened Wrappers
  import Text

  datatype Comment = Comment(id: string, content: string, ownerId: string)

  /** The fields of the video record the page reads. */
  datatype VideoData = VideoData(
    ownerId: Option<string>,
    likesCount: Option<int>,
    isLikedByUser: Option<bool>,
    isLiked: Option<bool>,
    isSubscribedToOwner: Option<bool>,
    isSubscribed: Option<bool>)

  /** The `data` field of the like and subscribe toggles' replies. */
  datatype LikeReply = LikeReply(isLiked: Option<bool>, likesCount: Option<int>)
  datatype SubscribeReply = SubscribeReply(isSubscribed: Option<bool>)

  /** `a || b || false` over optional booleans. */
  predicate EitherTrue(a: Option<bool>, b: Option<bool>)
  {
    a == Some(true) || b == Some(true)
  }

  /** The optimistic like toggle: the flag flips and the count moves one
      step in the direction of the new flag. */
  function ToggleLike(liked: bool, count: int): (r: (bool, int))
    ensures r.0 == !liked
    ensures r.0 ==> r.1 == count + 1
    ensures !r.0 ==> r.1 == count - 1
  {
    (!liked, if liked then count - 1 else count + 1)
  }

  /** Toggling twice restores the flag and the count. */
  lemma ToggleLikeTwice(liked: bool, count: int)
    ensures ToggleLike(ToggleLike(liked, count).0, ToggleLike(liked, count).1) == (liked, count)
  {
  }

  /** The `map` of `handleEditComment`: comments with the id get the new
      content; everything else, the length and the order are kept. */
  function EditById(cs: seq<Comment>, id: string, content: string): (r: seq<Comment>)
    ensures |r| == |cs|
    ensures forall i :: 0 <= i < |cs| && cs[i].id == id ==> r[i] == cs[i].(content := content)
    ensures forall i :: 0 <= i < |cs| && cs[i].id != id ==> r[i] == cs[i]
    decreases |cs|
  {
    if cs == [] then []
    else [if cs[0].id == id then cs[0].(content := content) else cs[0]] + EditById(cs[1..], id, content)
  }

  /** `a` keeps a selection of `b`'s elements in `b`'s order. */
  predicate SubsequenceOf(a: seq<Comment>, b: seq<Comment>)
    decreases |b|
  {
    if a == [] then true
    else if b == [] then false
    else (a[0] == b[0] && SubsequenceOf(a[1..], b[1..])) || SubsequenceOf(a, b[1..])
  }

  /** The `filter` of `handleDeleteComment`: no comment with the id is left,
      every other comment is kept as often as it occurred, and the kept
      comments stay in their relative order. */
  function DeleteById(cs: seq<Comment>, id: string): (r: seq<Comment>)
    ensures forall c: Comment :: c.id == id ==> multiset(r)[c] == 0
    ensures forall c: Comment :: c.id != id ==> multiset(r)[c] == multiset(cs)[c]
    ensures SubsequenceOf(r, cs)
    decreases |cs|
  {
    if cs == [] then []
    else
      var rest := DeleteById(cs[1..], id);
      assert cs == [cs[0]] + cs[1..];
      if cs[0].id == id then
        assert rest == [] || SubsequenceOf(rest, cs);
        rest
      else
        [cs[0]] + rest
  }

  /** A comment list with no comment carrying `id` is left as it is. */
  lemma {:induction false} DeleteAbsentId(cs: seq<Comment>, id: string)
    requires forall i :: 0 <= i < |cs| ==> cs[i].id != id
    ensures DeleteById(cs, id) == cs
    decreases |cs|
  {
    if cs != [] {
      DeleteAbsentId(cs[1..], id);
    }
  }

  const LoadError := "Failed to load video. Please try again."

  class WatchScreen {
    var video: Option<VideoData>
    var loading: bool
    var error: Option<string>
    var comments: seq<Comment>
    var newComment: string
    var editingComment: Option<string>
    var editContent: string
    var isLiked: bool
    var likeCount: int
    var isSubscribed: bool
    var subscriptionLoading: bool

    constructor ()
      ensures video.None? && loading && error.None? && comments == []
      ensures newComment == "" && editingComment.None? && editContent == ""
      ensures !isLiked && likeCount == 0 && !isSubscribed && !subscriptionLoading
    {
      video, loading, error := None, true, None;
      comments, newComment, editingComment, editContent := [], "", None, "";
      isLiked, likeCount, isSubscribed, subscriptionLoading := false, 0, false, false;
    }

    /** `fetchComments`: the `docs` of the reply, or the empty list when it
        has none; a failure keeps the list. */
    method FetchComments(response: Outcome<Option<seq<Comment>>>)
      modifies this`comments
      ensures response.Success? ==>
        comments == (if response.value.Some? then response.value.value else [])
      ensures response.Failure? ==> comments == old(comments)
    {
      if response.Success? {
        comments := if response.value.Some? then response.value.value else [];
      }
    }

    /** `fetchVideo`: on success the video, the initial like count
        (`likesCount || 0`) and the initial like and subscribe flags, then
        the comments; on failure the error text. Loading ends false. */
    method FetchVideo(response: Outcome<VideoData>, commentsResponse: Outcome<Option<seq<Comment>>>)
      modifies this`video, this`loading, this`error, this`comments, this`likeCount, this`isLiked, this`isSubscribed
      ensures !loading
      ensures response.Success? ==> var v := response.value;
        && video == Some(v) && error.None?
        && likeCount == (if v.likesCount.Some? then v.likesCount.value else 0)
        && isLiked == EitherTrue(v.isLikedByUser, v.isLiked)
        && isSubscribed == EitherTrue(v.isSubscribedToOwner, v.isSubscribed)
        && comments == (if commentsResponse.Success? && commentsResponse.value.Some? then commentsResponse.value.value
                        else if commentsResponse.Success? then [] else old(comments))
      ensures response.Failure? ==>
        error == Some(LoadError)
        && video == old(video) && comments == old(comments)
        && likeCount == old(likeCount) && isLiked == old(isLiked) && isSubscribed == old(isSubscribed)
      ensures newComment == old(newComment) && editingComment == old(editingComment) && editContent == old(editContent)
      ensures subscriptionLoading == old(subscriptionLoading)
    {
      loading := true;
      match response {
        case Success(v) =>
          ShowVideo(v);
          error := None;
          FetchComments(commentsResponse);
        case Failure(_) =>
          error := Some(LoadError);
      }
      loading := false;
    }

    /** The state `fetchVideo` takes from a loaded video. */
    method ShowVideo(v: VideoData)
      modifies this`video, this`likeCount, this`isLiked, this`isSubscribed
      ensures video == Some(v)
      ensures likeCount == (if v.likesCount.Some? then v.likesCount.value else 0)
      ensures isLiked == EitherTrue(v.isLikedByUser, v.isLiked)
      ensures isSubscribed == EitherTrue(v.isSubscribedToOwner, v.isSubscribed)
    {
      video := Some(v);
      likeCount := if v.likesCount.Some? then v.likesCount.value else 0;
      isLiked := EitherTrue(v.isLikedByUser, v.isLiked);
      isSubscribed := EitherTrue(v.isSubscribedToOwner, v.isSubscribed);
    }

    /** `handleLike`. Without a user nothing changes. Otherwise the
        optimistic toggle is applied; a failure restores the snapshot, a
        reply overrides the flag when it carries one and the count when it
        carries a non-zero one. */
    method HandleLike(hasUser: bool, response: Outcome<Option<LikeReply>>)
      modifies this`isLiked, this`likeCount
      ensures !hasUser || response.Failure? ==> isLiked == old(isLiked) && likeCount == old(likeCount)
      ensures hasUser && response.Success? && response.value.None? ==>
        (isLiked, likeCount) == ToggleLike(old(isLiked), old(likeCount))
      ensures hasUser && response.Success? && response.value.Some? ==> var reply := response.value.value;
        && isLiked == (if reply.isLiked.Some? then reply.isLiked.value else !old(isLiked))
        && likeCount == (if reply.likesCount.Some? && reply.likesCount.value != 0 then reply.likesCount.value
                         else ToggleLike(old(isLiked), old(likeCount)).1)
    {
      if !hasUser {
        return;
      }
      var prevIsLiked, prevLikeCount := isLiked, likeCount;
      isLiked, likeCount := ToggleLike(prevIsLiked, prevLikeCount).0, ToggleLike(prevIsLiked, prevLikeCount).1;
      match response {
        case Success(Some(reply)) =>
          isLiked := if reply.isLiked.Some? then reply.isLiked.value else !prevIsLiked;
          likeCount := if reply.likesCount.Some? && reply.likesCount.value != 0 then reply.likesCount.value
                       else (if prevIsLiked then prevLikeCount - 1 else prevLikeCount + 1);
        case Success(None) =>
        case Failure(_) =>
          isLiked, likeCount := prevIsLiked, prevLikeCount;
      }
    }

    /** `handleSubscribe`. Without a user or a video owner id nothing
        changes. Otherwise the flag flips optimistically, a reply's flag
        overrides it, a failure restores it, and the busy flag ends false. */
    method HandleSubscribe(hasUser: bool, response: Outcome<Option<SubscribeReply>>)
      modifies this`isSubscribed, this`subscriptionLoading
      ensures !hasUser || video.None? || !Truthy(video.value.ownerId) ==>
        isSubscribed == old(isSubscribed) && subscriptionLoading == old(subscriptionLoading)
      ensures hasUser && video.Some? && Truthy(video.value.ownerId) ==> !subscriptionLoading
      ensures hasUser && video.Some? && Truthy(video.value.ownerId) && response.Failure? ==>
        isSubscribed == old(isSubscribed)
      ensures hasUser && video.Some? && Truthy(video.value.ownerId) && response.Success? ==>
        isSubscribed == (if response.value.Some? && response.value.value.isSubscribed.Some?
                         then response.value.value.isSubscribed.value else !old(isSubscribed))
    {
      if !hasUser || video.None? || !Truthy(video.value.ownerId) {
        return;
      }
      var prevIsSubscribed := isSubscribed;
      subscriptionLoading := true;
      isSubscribed := !isSubscribed;
      match response {
        case Success(Some(reply)) =>
          isSubscribed := if reply.isSubscribed.Some? then reply.isSubscribed.value else !prevIsSubscribed;
        case Success(None) =>
        case Failure(_) =>
          isSubscribed := prevIsSubscribed;
      }
      subscriptionLoading := false;
    }

    /** `handleAddComment`: blank text or no user is a no-op; a created
        comment is put first and the input cleared; a failure keeps both. */
    method HandleAddComment(hasUser: bool, response: Outcome<Comment>)
      modifies this`comments, this`newComment
      ensures Text.IsBlank(old(newComment)) || !hasUser || response.Failure? ==>
        comments == old(comments) && newComment == old(newComment)
      ensures !Text.IsBlank(old(newComment)) && hasUser && response.Success? ==>
        comments == [response.value] + old(comments) && newComment == ""
    {
      if Text.IsBlank(newComment) || !hasUser {
        return;
      }
      if response.Success? {
        comments := [response.value] + comments;
        newComment := "";
      }
    }

    /** The edit button of one's own comment (lines 536-539). */
    method StartEditComment(c: Comment)
      modifies this`editingComment, this`editContent
      ensures editingComment == Some(c.id) && editContent == c.content
    {
      editingComment := Some(c.id);
      editContent := c.content;
    }

    /** `handleEditComment`: blank edit text is a no-op; on success the
        comments with that id get the edit text and the editor closes; a
        failure keeps everything. */
    method HandleEditComment(commentId: string, response: Outcome<()>)
      modifies this`comments, this`editingComment, this`editContent
      ensures Text.IsBlank(old(editContent)) || response.Failure? ==>
        comments == old(comments) && editingComment == old(editingComment) && editContent == old(editContent)
      ensures !Text.IsBlank(old(editContent)) && response.Success? ==>
        comments == EditById(old(comments), commentId, old(editContent))
        && editingComment.None? && editContent == ""
    {
      if Text.IsBlank(editContent) {
        return;
      }
      if response.Success? {
        comments := EditById(comments, commentId, editContent);
        editingComment := None;
        editContent := "";
      }
    }

    /** `handleDeleteComment`: a declined confirmation or a failure keeps
        the list; on success the comments with that id are removed. */
    method HandleDeleteComment(commentId: string, confirmed: bool, response: Outcome<()>)
      modifies this`comments
      ensures !confirmed || response.Failure? ==> comments == old(comments)
      ensures confirmed && response.Success? ==> comments == DeleteById(old(comments), commentId)
    {
      if confirmed && response.Success? {
        comments := DeleteById(comments, commentId);
      }
    }
  }
}
