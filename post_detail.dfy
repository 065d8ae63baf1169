/** One post of the routing demo, reached through `/posts/:id`: the parsed
    id, whether the post and comment queries run, the view chosen from the
    query state, the previous/next links and the first five comments. */
module PostDetail {
  import opened Text
  import opened Seqs
  import Posts

  datatype Comment = Comment(id: int, name: string, email: string, body: string)

  const LastPostId := 100
  const CommentLimit := 5
  const BackPath := "/posts"

  /** `parseInt(id)`; `None` is `NaN`. */
  function PostId(param: string): Option<int> {
    ParseInt(param)
  }

  /** `enabled: !!postId`: neither `NaN` nor 0 starts a query. */
  predicate QueriesEnabled(postId: Option<int>) {
    postId.Some? && postId.value != 0
  }

  /** A printed non-zero id, as the route parameter, enables both queries
      for that very id; text with no leading digits does not. */
  lemma EnabledForPrintedIds(id: int, param: string)
    ensures id != 0 ==> PostId(IntToString(id)) == Some(id) && QueriesEnabled(PostId(IntToString(id)))
    ensures !QueriesEnabled(PostId("0"))
    ensures param == [] || (!IsDigit(param[0]) && !IsSpace(param[0]) && param[0] != '-' && param[0] != '+') ==>
              !QueriesEnabled(PostId(param))
  {
    ParseIntToString(id);
    ParseIntToString(0);
  }

  /** What the page renders for the state of the post query. */
  datatype View = LoadingView | NotFoundView | PostView(post: Posts.Post)

  function ViewFor(isLoading: bool, isError: bool, post: Option<Posts.Post>): (v: View)
    ensures v == LoadingView <==> isLoading
    ensures v == NotFoundView <==> !isLoading && (isError || post.None?)
    ensures v.PostView? ==> post == Some(v.post)
  {
    if isLoading then LoadingView
    else if isError || post.None? then NotFoundView
    else PostView(post.value)
  }

  /** Both the not-found view and the loaded post lead back to the list. */
  function BackTarget(v: View): (target: Option<string>)
    ensures target.Some? <==> !v.LoadingView?
    ensures target.Some? ==> target.value == BackPath
  {
    if v.LoadingView? then None else Some(BackPath)
  }

  /** "Previous Post" is disabled from post 1 down. */
  predicate PreviousDisabled(id: int) {
    id <= 1
  }

  /** `/posts/${Math.max(1, post.id - 1)}`. */
  function PreviousPath(id: int): string {
    Posts.PostPath(Max(1, id - 1))
  }

  /** "Next Post" is disabled from post 100 up. */
  predicate NextDisabled(id: int) {
    id >= LastPostId
  }

  /** `/posts/${post.id + 1}`. */
  function NextPath(id: int): string {
    Posts.PostPath(id + 1)
  }

  /** An enabled "Previous" leads to the post before, an enabled "Next" to
      the post after; either way the new page parses the id back, queries
      for it, and the id stays within 1..100 when it started there. */
  lemma NeighbourLinks(id: int)
    ensures !PreviousDisabled(id) ==>
              PostId(PreviousPath(id)[|Posts.PostsPrefix|..]) == Some(id - 1)
              && QueriesEnabled(Some(id - 1))
    ensures !NextDisabled(id) ==>
              PostId(NextPath(id)[|Posts.PostsPrefix|..]) == Some(id + 1)
              && (id >= 0 ==> QueriesEnabled(Some(id + 1)))
    ensures 1 <= id <= LastPostId && !PreviousDisabled(id) ==> 1 <= id - 1 <= LastPostId
    ensures 1 <= id <= LastPostId && !NextDisabled(id) ==> 1 <= id + 1 <= LastPostId
  {
    Posts.PostPathParam(Max(1, id - 1));
    Posts.PostPathParam(id + 1);
  }

  /** `comments.slice(0, 5)`: the first five comments, in order. */
  function ShownComments(comments: seq<Comment>): (r: seq<Comment>)
    ensures |r| == Min(CommentLimit, |comments|)
    ensures forall i :: 0 <= i < |r| ==> r[i] == comments[i]
  {
    Take(comments, CommentLimit)
  }
}
