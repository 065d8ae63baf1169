/** The paginated post list of the react-query demo: ten posts a page, the
    five-button page window, previous/next, and the selected post. The posts
    are the loaded list, given to each operation. */
module PostsComponent {
  import opened Text
  import opened Seqs

  const PostsPerPage := 10

  /** `Math.ceil(n / postsPerPage)`. */
  function TotalPages(n: nat): (t: nat)
    ensures t * PostsPerPage >= n
    ensures t == 0 || (t - 1) * PostsPerPage < n
    ensures t == 0 <==> n == 0
  {
    (n + PostsPerPage - 1) / PostsPerPage
  }

  /** `posts.slice(startIndex, startIndex + postsPerPage)` with
      `startIndex = (page - 1) * postsPerPage`. */
  function PageSlice<T>(posts: seq<T>, page: nat): (r: seq<T>)
    requires page >= 1
    ensures |r| <= PostsPerPage
    ensures forall i :: 0 <= i < |r| ==> (page - 1) * PostsPerPage + i < |posts| && r[i] == posts[(page - 1) * PostsPerPage + i]
    ensures page <= TotalPages(|posts|) ==> |r| == Min(PostsPerPage, |posts| - (page - 1) * PostsPerPage)
    ensures page > TotalPages(|posts|) ==> r == []
  {
    var start := (page - 1) * PostsPerPage;
    Slice(posts, start, start + PostsPerPage)
  }

  /** Every post is shown on exactly one page: post `k` is entry `k % 10` of
      page `k / 10 + 1`, which exists, and no other page shows position `k`. */
  lemma PostOnItsPage<T>(posts: seq<T>, k: nat, page: nat)
    requires k < |posts| && page >= 1
    ensures 1 <= k / PostsPerPage + 1 <= TotalPages(|posts|)
    ensures var r := PageSlice(posts, k / PostsPerPage + 1);
            k % PostsPerPage < |r| && r[k % PostsPerPage] == posts[k]
    ensures (page - 1) * PostsPerPage <= k < (page - 1) * PostsPerPage + |PageSlice(posts, page)| ==>
              page == k / PostsPerPage + 1
  {
    var p := k / PostsPerPage + 1;
    assert (p - 1) * PostsPerPage == k - k % PostsPerPage;
    if (page - 1) * PostsPerPage <= k < (page - 1) * PostsPerPage + |PageSlice(posts, page)| {
      DivUnique(k, page - 1, k - (page - 1) * PostsPerPage);
    }
  }

  /** Writing `k` as `q * 10 + r` with `0 <= r < 10` fixes `q` as `k / 10`. */
  lemma DivUnique(k: nat, q: nat, r: nat)
    requires k == q * PostsPerPage + r && r < PostsPerPage
    ensures q == k / PostsPerPage
  {
  }

  /** The page-number buttons: `Math.min(5, totalPages)` of them; pages 1-5
      near the start, the last five near the end, otherwise the current page
      in the middle. */
  function PageWindow(page: int, totalPages: nat): (w: seq<int>)
    ensures |w| == Min(5, totalPages)
    ensures forall i :: 0 <= i < |w| ==> 1 <= w[i] <= totalPages
    ensures forall i :: 0 < i < |w| ==> w[i] == w[i - 1] + 1
    ensures 1 <= page <= totalPages ==> page in w
  {
    var first := if totalPages <= 5 || page <= 3 then 1
                 else if page >= totalPages - 2 then totalPages - 4
                 else page - 2;
    var w := seq(Min(5, totalPages), i => first + i);
    assert 1 <= page <= totalPages ==> w[page - first] == page;
    w
  }

  /** The pagination controls appear only when there is more than one page. */
  predicate ControlsShown(totalPages: nat) {
    totalPages > 1
  }

  class PostList {
    var page: int
    var selectedPostId: Option<int>

    constructor ()
      ensures page == 1 && selectedPostId == None
    {
      page := 1;
      selectedPostId := None;
    }

    /** `handlePostSelect`: the selected post again closes it; any other opens it. */
    method HandlePostSelect(postId: int)
      modifies this
      ensures selectedPostId == if old(selectedPostId) == Some(postId) then None else Some(postId)
      ensures page == old(page)
    {
      selectedPostId := if selectedPostId == Some(postId) then None else Some(postId);
    }

    /** "Previous": disabled on page 1, otherwise one page back. */
    method ClickPrevious(postCount: nat)
      requires ControlsShown(TotalPages(postCount)) && 1 <= page <= TotalPages(postCount)
      modifies this
      ensures 1 <= page <= TotalPages(postCount)
      ensures page == if old(page) == 1 then 1 else old(page) - 1
      ensures selectedPostId == old(selectedPostId)
    {
      if page != 1 {
        page := page - 1;
      }
    }

    /** "Next": disabled on the last page, otherwise one page on. */
    method ClickNext(postCount: nat)
      requires ControlsShown(TotalPages(postCount)) && 1 <= page <= TotalPages(postCount)
      modifies this
      ensures 1 <= page <= TotalPages(postCount)
      ensures page == if old(page) == TotalPages(postCount) then old(page) else old(page) + 1
      ensures selectedPostId == old(selectedPostId)
    {
      if page != TotalPages(postCount) {
        page := page + 1;
      }
    }

    /** A page-number button: go to the page it shows. */
    method ClickPageNumber(postCount: nat, i: nat)
      requires ControlsShown(TotalPages(postCount)) && i < |PageWindow(page, TotalPages(postCount))|
      modifies this
      ensures page == PageWindow(old(page), TotalPages(postCount))[i]
      ensures 1 <= page <= TotalPages(postCount)
      ensures selectedPostId == old(selectedPostId)
    {
      page := PageWindow(page, TotalPages(postCount))[i];
    }

    /** "Reset & Refetch": back to page 1 (the refetch itself is not modelled). */
    method ResetAndRefetch()
      modifies this
      ensures page == 1 && selectedPostId == old(selectedPostId)
    {
      page := 1;
    }
  }
}
