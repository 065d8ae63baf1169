/** The blog post list of the routing demo: the search query kept in the
    URL, the all/short/long filter, the first twenty matches, each with an
    excerpt, a length label and a link to its own route. */
module Posts {
  import opened Text
  import opened Seqs

  datatype Post = Post(id: int, userId: int, title: string, body: string)

  /** The URL query parameters, by name. */
  type SearchParams = map<string, string>

  const SearchKey := "search"
  const ShownLimit := 20
  const ExcerptLength := 100
  const PostsPrefix := "/posts/"

  /** `searchParams.get('search') || ''`. */
  function SearchQuery(params: SearchParams): string {
    if SearchKey in params then params[SearchKey] else ""
  }

  /** `handleSearch`: typed text becomes the only parameter; empty text
      removes every parameter. */
  function SearchParamsFor(value: string): (params: SearchParams)
    ensures value == "" <==> params == map[]
    ensures params.Keys <= {SearchKey}
  {
    if value != "" then
      var params := map[SearchKey := value];
      assert SearchKey in params;
      params
    else map[]
  }

  /** What was typed is what the query reads back. */
  lemma SearchRoundTrip(value: string)
    ensures SearchQuery(SearchParamsFor(value)) == value
  {
  }

  /** The lower-cased title or body contains the lower-cased query. */
  predicate MatchesSearch(post: Post, query: string) {
    var q := Lower(query);
    Contains(Lower(post.title), q) || Contains(Lower(post.body), q)
  }

  /** 'all' keeps every post, 'short' bodies under 100 characters, 'long'
      bodies of 100 or more; any other value keeps none. */
  predicate MatchesFilter(post: Post, filter: string) {
    filter == "all"
    || (filter == "short" && |post.body| < ExcerptLength)
    || (filter == "long" && |post.body| >= ExcerptLength)
  }

  /** `filteredPosts`. */
  function FilteredPosts(posts: seq<Post>, query: string, filter: string): seq<Post> {
    Filter(posts, (p: Post) => MatchesSearch(p, query) && MatchesFilter(p, filter))
  }

  /** The filtered list is the posts that match both, in their order; an
      empty query with 'all' keeps every post. */
  lemma FilteredPostsSpec(posts: seq<Post>, query: string, filter: string)
    ensures var r := FilteredPosts(posts, query, filter);
            IsSubsequence(r, posts)
            && (forall i :: 0 <= i < |r| ==> MatchesSearch(r[i], query) && MatchesFilter(r[i], filter))
            && (forall i :: 0 <= i < |posts| && MatchesSearch(posts[i], query) && MatchesFilter(posts[i], filter) ==>
                  posts[i] in r)
    ensures FilteredPosts(posts, "", "all") == posts
  {
    FilterIsSubsequence(posts, (p: Post) => MatchesSearch(p, query) && MatchesFilter(p, filter));
    forall i | 0 <= i < |posts|
      ensures MatchesSearch(posts[i], "")
    {
      ContainsEmpty(Lower(posts[i].title));
    }
    FilterKeepsAll(posts, (p: Post) => MatchesSearch(p, "") && MatchesFilter(p, "all"));
  }

  /** Under the same query, the 'short' and 'long' lists split the 'all'
      list between them. */
  lemma ShortLongPartition(posts: seq<Post>, query: string)
    ensures |FilteredPosts(posts, query, "short")| + |FilteredPosts(posts, query, "long")|
            == |FilteredPosts(posts, query, "all")|
  {
    var search := (p: Post) => MatchesSearch(p, query);
    var isShort := (p: Post) => MatchesFilter(p, "short");
    var isLong := (p: Post) => MatchesFilter(p, "long");
    var isAll := (p: Post) => MatchesFilter(p, "all");
    var matching := Filter(posts, search);
    FilterFilter(posts, search, isShort, (p: Post) => MatchesSearch(p, query) && MatchesFilter(p, "short"));
    FilterFilter(posts, search, isLong, (p: Post) => MatchesSearch(p, query) && MatchesFilter(p, "long"));
    FilterFilter(posts, search, isAll, (p: Post) => MatchesSearch(p, query) && MatchesFilter(p, "all"));
    FilterKeepsAll(matching, isAll);
    FilterSplit(matching, isShort, isLong);
  }

  /** The cards rendered: the first twenty filtered posts. */
  function ShownPosts(posts: seq<Post>, query: string, filter: string): (r: seq<Post>)
    ensures |r| == Min(ShownLimit, |FilteredPosts(posts, query, filter)|)
    ensures r == FilteredPosts(posts, query, filter)[..|r|]
  {
    Take(FilteredPosts(posts, query, filter), ShownLimit)
  }

  /** The card text: a body over 100 characters is cut to its first 100 and
      "..." is added. */
  function Excerpt(body: string): (r: string)
    ensures |body| <= ExcerptLength ==> r == body
    ensures |body| > ExcerptLength ==> |r| == ExcerptLength + 3 && r[..ExcerptLength] == body[..ExcerptLength]
                                       && r[ExcerptLength..] == "..."
  {
    if |body| > ExcerptLength then body[..ExcerptLength] + "..." else body
  }

  /** The card's length label. */
  function LengthLabel(body: string): string {
    if |body| > ExcerptLength then "Long" else "Short"
  }

  /** The label says "Long" exactly when the 'long' filter keeps the post,
      except for a body of exactly 100 characters: the filter counts it as
      long, the label calls it "Short". */
  lemma LabelAgainstFilter(post: Post)
    ensures LengthLabel(post.body) == "Long" <==> MatchesFilter(post, "long") && |post.body| != ExcerptLength
    ensures |post.body| == ExcerptLength ==> MatchesFilter(post, "long") && LengthLabel(post.body) == "Short"
  {
  }

  /** The route of a post: "/posts/" followed by its id. */
  function PostPath(id: int): (path: string)
    ensures |path| > |PostsPrefix| && path[..|PostsPrefix|] == PostsPrefix
  {
    PostsPrefix + IntToString(id)
  }

  /** The `:id` part of a post route reads back as the post's id. */
  lemma PostPathParam(id: int)
    ensures ParseInt(PostPath(id)[|PostsPrefix|..]) == Some(id)
  {
    assert PostPath(id)[|PostsPrefix|..] == IntToString(id);
    ParseIntToString(id);
  }

  class PostsPage {
    var searchParams: SearchParams
    var filter: string

    constructor (params: SearchParams)
      ensures searchParams == params && filter == "all"
    {
      searchParams := params;
      filter := "all";
    }

    /** Typing in the search box rewrites the URL parameters. */
    method HandleSearch(value: string)
      modifies this
      ensures searchParams == SearchParamsFor(value) && filter == old(filter)
      ensures SearchQuery(searchParams) == value
    {
      searchParams := SearchParamsFor(value);
      SearchRoundTrip(value);
    }

    /** One of the three filter buttons. */
    method SetFilter(f: string)
      modifies this
      ensures filter == f && searchParams == old(searchParams)
    {
      filter := f;
    }

    /** Clicking a card navigates to the post's route. */
    method HandlePostClick(postId: int) returns (navigateTo: string)
      ensures navigateTo == PostPath(postId)
      ensures ParseInt(navigateTo[|PostsPrefix|..]) == Some(postId)
    {
      navigateTo := PostsPrefix + IntToString(postId);
      PostPathParam(postId);
    }
  }
}
