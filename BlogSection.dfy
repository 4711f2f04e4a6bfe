/**
 * The home page's blog section (components/BlogSection.tsx): the three most
 * recent posts as cards, and two archive buttons wired to an optional
 * callback.
 */
module BlogSection {
  import opened Types
  import opened Seqs
  import opened BlogData

  /** How many posts the section shows. */
  const ShownPosts: nat := 3

  /** `recentPosts = BLOG_POSTS.slice(0, 3)`. */
  function RecentPosts(posts: seq<BlogPost>): seq<BlogPost> {
    Take(posts, ShownPosts)
  }

  /** The cards are the first `min(3, |posts|)` posts: a prefix, in the same order. */
  lemma RecentPostsArePrefix(posts: seq<BlogPost>)
    ensures |RecentPosts(posts)| == if |posts| < ShownPosts then |posts| else ShownPosts
    ensures RecentPosts(posts) <= posts
    ensures |posts| <= ShownPosts ==> RecentPosts(posts) == posts
  {
  }

  /** With the three published posts every post gets a card. */
  lemma AllPublishedPostsShown()
    ensures RecentPosts(BlogPosts) == BlogPosts
  {
    RecentPostsArePrefix(BlogPosts);
  }

  /** The callbacks the section can call. */
  datatype Callback = ReadPost(post: BlogPost) | ViewAll

  /** Clicking card `k` asks to read exactly that card's post, one of the first three. */
  function CardClicked(posts: seq<BlogPost>, k: nat): (c: Callback)
    requires k < |RecentPosts(posts)|
    ensures k < ShownPosts && c == ReadPost(posts[k])
  {
    ReadPost(RecentPosts(posts)[k])
  }

  /**
   * Either archive button (the wide-screen `VIEW_ARCHIVES` and the narrow-screen
   * `VIEW_ALL_LOGS()`) calls `onViewAll` when the prop was given and does
   * nothing otherwise.
   */
  function ArchiveClicked(hasViewAll: bool): (c: Option<Callback>)
    ensures c.Some? <==> hasViewAll
    ensures c.Some? ==> c.value == ViewAll
  {
    if hasViewAll then Some(ViewAll) else None
  }
}
