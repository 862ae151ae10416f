/** The interaction state of one feed post (src/components/PostCard.tsx):
    liking and unliking, the lazily loaded comment thread, adding a comment,
    and the text and link used for sharing. Every handler is one atomic step
    over the card's state, taken once the awaited write has resolved; the
    state changes only after a successful write (nothing is optimistic). */
module PostCards {
  import opened Common

  datatype Profile = Profile(
    id: string,
    username: string,
    fullName: Option<string>,
    avatarUrl: Option<string>)

  /** A post as the feed hands it to the card. The three aggregate fields are
      optional and arrive pre-computed. */
  datatype Post = Post(
    id: string,
    userId: UserId,
    content: string,
    imageUrl: Option<string>,
    createdAt: string,
    updatedAt: string,
    author: Option<Profile>,
    likesCount: Option<int>,
    commentsCount: Option<int>,
    userHasLiked: Option<bool>)

  datatype Comment = Comment(
    id: string,
    postId: string,
    userId: UserId,
    content: string,
    createdAt: string,
    updatedAt: string,
    author: Option<Profile>)

  /** The write a like click issues. */
  datatype LikeWrite =
    | DeleteLike(postId: string, userId: UserId)
    | InsertLike(postId: string, userId: UserId)

  /** The read a thread expansion issues: the post's comments, newest first. */
  datatype CommentQuery = CommentQuery(postId: string, newestFirst: bool)

  /** The insert a comment submission issues. */
  datatype CommentInsert = CommentInsert(postId: string, userId: UserId, content: string)

  datatype ShareMethod = Copy | Twitter | Facebook

  /** What a share click hands to the browser (the URI encoding of the text
      and link is the browser's and is not modelled). */
  datatype ShareAction =
    | CopyLink(url: string)
    | OpenTwitter(text: string, url: string)
    | OpenFacebook(url: string)

  // ---------------------------------------------------------------------
  // Initial state

  /** `typeof n === 'number' ? n : 0` */
  function CountOrZero(n: Option<int>): (r: int)
    ensures n.Some? ==> r == n.value
    ensures n.None? ==> r == 0
  {
    if n.Some? then n.value else 0
  }

  /** The flag and counter a card starts with. */
  datatype LikeState = LikeState(isLiked: bool, likesCount: int)

  function InitialLikes(p: Post): (s: LikeState)
    ensures s.isLiked <==> p.userHasLiked == Some(true)
    ensures s.likesCount == CountOrZero(p.likesCount)
  {
    LikeState(p.userHasLiked == Some(true), CountOrZero(p.likesCount))
  }

  // ---------------------------------------------------------------------
  // Like / unlike

  /** The counter agrees with the flag: never negative, and at least one while
      this viewer's own like is counted in it. */
  predicate LikeConsistent(s: LikeState)
  {
    s.likesCount >= 0 && (s.isLiked ==> s.likesCount >= 1)
  }

  /** The write for the current flag: delete this viewer's like if the post is
      liked, insert one otherwise. */
  function LikeWriteFor(s: LikeState, postId: string, user: UserId): (w: LikeWrite)
    ensures w.DeleteLike? <==> s.isLiked
    ensures w.postId == postId && w.userId == user
  {
    if s.isLiked then DeleteLike(postId, user) else InsertLike(postId, user)
  }

  /** One click of the like button, after its write resolved. */
  function LikeStep(s: LikeState, signedIn: bool, outcome: Remote<()>): (r: LikeState)
    // the state changes exactly when a signed-in write succeeded
    ensures r != s <==> signedIn && outcome.Success?
    // flag and counter never change one without the other
    ensures r.isLiked != s.isLiked <==> r.likesCount != s.likesCount
    // the counter follows the flag by exactly one
    ensures r.isLiked && !s.isLiked ==> r.likesCount == s.likesCount + 1
    ensures !r.isLiked && s.isLiked ==> r.likesCount == s.likesCount - 1
    ensures LikeConsistent(s) ==> LikeConsistent(r)
  {
    if !signedIn || outcome.Failure? then s
    else if s.isLiked then LikeState(false, s.likesCount - 1)
    else LikeState(true, s.likesCount + 1)
  }

  /** Two successful clicks in a row restore the flag and the counter. */
  lemma LikeTwiceRestores(s: LikeState)
    ensures LikeStep(LikeStep(s, true, Success(())), true, Success(())) == s
  {
  }

  /** A card whose post carries an own like but no counter starts
      inconsistent, and a successful unlike then shows a negative count. */
  lemma InconsistentStartGoesNegative(p: Post)
    requires p.userHasLiked == Some(true) && p.likesCount.None?
    ensures !LikeConsistent(InitialLikes(p))
    ensures LikeStep(InitialLikes(p), true, Success(())).likesCount == -1
  {
  }

  // ---------------------------------------------------------------------
  // Adding a comment

  /** The part of the card's state a comment submission touches. */
  datatype Thread = Thread(comments: seq<Comment>, commentsCount: int, draft: string)

  /** One comment submission, after its insert resolved. */
  function AddCommentStep(t: Thread, signedIn: bool, outcome: Remote<Comment>): (r: Thread)
    // the state changes exactly when a signed-in, non-blank submission succeeded
    ensures r != t <==> signedIn && !Blank(t.draft) && outcome.Success?
    // on success the returned comment goes in front, the draft is cleared and
    // the counter goes up by one
    ensures r != t ==> r.comments == [outcome.data] + t.comments
                       && r.draft == "" && r.commentsCount == t.commentsCount + 1
    // counter and list move together
    ensures r.commentsCount - |r.comments| == t.commentsCount - |t.comments|
  {
    if !signedIn || Blank(t.draft) || outcome.Failure? then t
    else Thread([outcome.data] + t.comments, t.commentsCount + 1, "")
  }

  // ---------------------------------------------------------------------
  // Sharing

  /** `${origin}/post/${id}`: the origin, the route, then the id. */
  function ShareUrl(origin: string, postId: string): (r: string)
    ensures |r| == |origin| + 6 + |postId|
    ensures r[..|origin|] == origin
    ensures r[|origin|..|origin| + 6] == "/post/"
    ensures r[|origin| + 6..] == postId
  {
    origin + "/post/" + postId
  }

  /** The first 100 characters of the content, with "..." appended exactly
      when something was cut off. */
  function ShareText(content: string): (r: string)
    ensures |content| <= 100 ==> r == content
    ensures |content| > 100 ==> |r| == 103 && r[..100] == content[..100] && r[100..] == "..."
    ensures |r| <= 103
  {
    Prefix(content, 100) + (if |content| > 100 then "..." else "")
  }

  // ---------------------------------------------------------------------
  // The card

  class PostCard {
    const post: Post
    var showComments: bool
    var comments: seq<Comment>
    var newComment: string
    var isLoading: bool
    var isLiked: bool
    var likesCount: int
    var commentsCount: int
    var showShareMenu: bool
    /** How often the card has called its `onPostUpdate` callback. */
    var postUpdates: nat

    function Likes(): LikeState
      reads this
    {
      LikeState(isLiked, likesCount)
    }

    function CommentThread(): Thread
      reads this
    {
      Thread(comments, commentsCount, newComment)
    }

    constructor (p: Post)
      ensures post == p
      ensures Likes() == InitialLikes(p)
      ensures commentsCount == CountOrZero(p.commentsCount)
      ensures !showComments && comments == [] && newComment == ""
      ensures !isLoading && !showShareMenu && postUpdates == 0
    {
      post := p;
      showComments := false;
      comments := [];
      newComment := "";
      isLoading := false;
      isLiked := p.userHasLiked == Some(true);
      likesCount := CountOrZero(p.likesCount);
      commentsCount := CountOrZero(p.commentsCount);
      showShareMenu := false;
      postUpdates := 0;
    }

    /** Opening the thread fetches its comments; closing it fetches nothing.
        The thread's visibility flips either way. */
    method ToggleComments(outcome: Remote<seq<Comment>>) returns (fetch: Option<CommentQuery>)
      modifies this`showComments, this`comments, this`isLoading
      ensures showComments == !old(showComments)
      ensures old(showComments) ==> fetch.None? && comments == old(comments) && isLoading == old(isLoading)
      ensures !old(showComments) ==> fetch == Some(CommentQuery(post.id, true)) && !isLoading
      ensures !old(showComments) ==> comments == (if outcome.Success? then outcome.data else old(comments))
    {
      fetch := None;
      if !showComments {
        isLoading := true;
        fetch := Some(CommentQuery(post.id, true));
        if outcome.Success? {
          comments := outcome.data;
        }
        isLoading := false;
      }
      showComments := !showComments;
    }

    /** Submits the draft as a comment by `user`. */
    method HandleAddComment(user: Option<UserId>, outcome: Remote<Comment>) returns (insert: Option<CommentInsert>)
      modifies this`comments, this`newComment, this`commentsCount, this`isLoading, this`postUpdates
      ensures CommentThread() == AddCommentStep(old(CommentThread()), user.Some?, outcome)
      ensures user.None? || Blank(old(newComment)) ==> insert.None? && isLoading == old(isLoading)
      ensures user.Some? && !Blank(old(newComment)) ==>
                insert == Some(CommentInsert(post.id, user.value, Trim(old(newComment)))) && !isLoading
      ensures postUpdates == old(postUpdates) + (if insert.Some? && outcome.Success? then 1 else 0)
    {
      insert := None;
      ghost var before := CommentThread();
      if user.None? {
        return;
      }
      if Blank(newComment) {
        return;
      }
      assert AddCommentStep(before, true, outcome) ==
        if outcome.Failure? then before else Thread([outcome.data] + comments, commentsCount + 1, "");
      isLoading := true;
      insert := Some(CommentInsert(post.id, user.value, Trim(newComment)));
      if outcome.Success? {
        comments := [outcome.data] + comments;
        newComment := "";
        commentsCount := commentsCount + 1;
        postUpdates := postUpdates + 1;
      }
      isLoading := false;
    }

    /** A click on the like button by `user`. */
    method HandleLike(user: Option<UserId>, outcome: Remote<()>) returns (write: Option<LikeWrite>)
      modifies this`isLiked, this`likesCount
      ensures Likes() == LikeStep(old(Likes()), user.Some?, outcome)
      ensures user.None? ==> write.None?
      ensures user.Some? ==> write == Some(LikeWriteFor(old(Likes()), post.id, user.value))
    {
      if user.None? {
        return None;
      }
      if isLiked {
        write := Some(DeleteLike(post.id, user.value));
        if outcome.Success? {
          isLiked := false;
          likesCount := likesCount - 1;
        }
      } else {
        write := Some(InsertLike(post.id, user.value));
        if outcome.Success? {
          isLiked := true;
          likesCount := likesCount + 1;
        }
      }
    }

    /** A click on one of the share menu's entries; the menu closes. */
    method HandleShare(how: ShareMethod, origin: string) returns (action: ShareAction)
      modifies this`showShareMenu
      ensures !showShareMenu
      ensures action == match how
                        case Copy => CopyLink(ShareUrl(origin, post.id))
                        case Twitter => OpenTwitter(ShareText(post.content), ShareUrl(origin, post.id))
                        case Facebook => OpenFacebook(ShareUrl(origin, post.id))
    {
      var postUrl := ShareUrl(origin, post.id);
      var postText := ShareText(post.content);
      match how {
        case Copy => action := CopyLink(postUrl);
        case Twitter => action := OpenTwitter(postText, postUrl);
        case Facebook => action := OpenFacebook(postUrl);
      }
      showShareMenu := false;
    }
  }
}
