/**
 * The blog archive page (components/AllBlogsView.tsx): a search box over all
 * posts, matching the query against the title and the tags only, and a list
 * of rows that open a post, or a placeholder when nothing matches.
 */
module AllBlogsView {
  import opened Types
  import opened Text
  import opened Seqs
  import opened BlogData

  /** Some tag of the post contains the query, both lower-cased. */
  predicate TagMatches(tags: seq<string>, query: string) {
    exists k | 0 <= k < |tags| :: Includes(ToLower(tags[k]), ToLower(query))
  }

  /** The search predicate: lower-cased title or some lower-cased tag contains the lower-cased query. */
  predicate PostMatches(post: BlogPost, query: string) {
    Includes(ToLower(post.title), ToLower(query)) || TagMatches(post.tags, query)
  }

  /** `filteredPosts`: the posts the search keeps, in their original order. */
  function FilteredPosts(posts: seq<BlogPost>, query: string): seq<BlogPost> {
    Filter(posts, p => PostMatches(p, query))
  }

  /** The archive keeps an ordered selection of the posts: exactly the matching ones. */
  lemma FilteredPostsSpec(posts: seq<BlogPost>, query: string, post: BlogPost)
    ensures IsSubsequence(FilteredPosts(posts, query), posts)
    ensures post in FilteredPosts(posts, query) <==> post in posts && PostMatches(post, query)
  {
    FilterIsSubsequence(posts, p => PostMatches(p, query));
    FilterMembership(posts, p => PostMatches(p, query), post);
  }

  /** The empty string occurs in every string, so the empty query keeps every post. */
  lemma EmptyQueryKeepsAll(posts: seq<BlogPost>)
    ensures FilteredPosts(posts, "") == posts
  {
    assert ToLower("") == "";
    forall k | 0 <= k < |posts|
      ensures PostMatches(posts[k], "")
    {
      assert OccursAt(ToLower(posts[k].title), "", 0);
    }
    FilterAll(posts, p => PostMatches(p, ""));
  }

  /** Whether a post matches depends on its title and tags only, never on its excerpt or body. */
  lemma MatchIgnoresExcerptAndContent(post: BlogPost, query: string, excerpt: string, content: string)
    ensures PostMatches(post.(excerpt := excerpt, content := content), query) == PostMatches(post, query)
  {
  }

  /** A post whose title and tags miss the query is left out, whatever its excerpt says. */
  lemma ExcerptOnlyMatchExcluded(posts: seq<BlogPost>, query: string, post: BlogPost)
    requires !Includes(ToLower(post.title), ToLower(query))
    requires forall k :: 0 <= k < |post.tags| ==> !Includes(ToLower(post.tags[k]), ToLower(query))
    ensures post !in FilteredPosts(posts, query)
  {
    FilteredPostsSpec(posts, query, post);
  }

  /** What the list area shows: the placeholder, or one clickable row per post. */
  datatype Listing = NoLogsFound | Rows(posts: seq<BlogPost>)

  function ListingFor(posts: seq<BlogPost>, query: string): (r: Listing)
    ensures r.NoLogsFound? <==> FilteredPosts(posts, query) == []
    ensures r.Rows? ==> r.posts == FilteredPosts(posts, query) && |r.posts| > 0
  {
    var shown := FilteredPosts(posts, query);
    if |shown| > 0 then Rows(shown) else NoLogsFound
  }

  /** The callbacks the page is given. */
  datatype Callback = Back | ReadPost(post: BlogPost)

  /** Clicking row `k` of the listing asks to read exactly that row's post. */
  function RowClicked(listing: Listing, k: nat): (c: Callback)
    requires listing.Rows? && k < |listing.posts|
    ensures c.ReadPost? && c.post == listing.posts[k]
  {
    ReadPost(listing.posts[k])
  }

  /** A clicked row opens a post the search had kept, and so one of the given posts. */
  lemma RowClickedMatches(posts: seq<BlogPost>, query: string, k: nat)
    requires ListingFor(posts, query).Rows? && k < |ListingFor(posts, query).posts|
    ensures RowClicked(ListingFor(posts, query), k).post in posts
    ensures PostMatches(RowClicked(ListingFor(posts, query), k).post, query)
  {
    var p := ListingFor(posts, query).posts[k];
    FilteredPostsSpec(posts, query, p);
  }

  /** A string without some character of the query cannot contain the query. */
  lemma MissingCharExcludes(s: string, q: string, c: char)
    requires c in q && c !in s
    ensures !Includes(s, q)
  {
  }

  /** Lower-casing creates a lower-case letter only from it or its capital. */
  lemma LowerMissing(s: string, c: char)
    requires 'a' <= c <= 'z'
    requires c !in s && (c as int - 32) as char !in s
    ensures c !in ToLower(s)
  {
  }

  lemma LinuxLowered()
    ensures ToLower("LINUX") == "linux" && ToLower("Linux") == "linux"
  {
  }

  // The first title, in two halves short enough to inspect character by character.

  lemma ReactTitleHalves()
    ensures ReactPost.title == "Optimizing React for Low-End Devices: Wh" + "at No One Tells You"
  {
    assert "Optimizing React for Low-End Devices: Wh" + "at No One Tells You"
        == "Optimizing React for Low-End Devices: What No One Tells You";
  }

  lemma ReactTitleFrontHasNoX()
    ensures 'x' !in "Optimizing React for Low-End Devices: Wh" && 'X' !in "Optimizing React for Low-End Devices: Wh"
  {
  }

  lemma ReactTitleBackHasNoX()
    ensures 'x' !in "at No One Tells You" && 'X' !in "at No One Tells You"
  {
  }

  lemma ReactTitleHasNoX()
    ensures 'x' !in ReactPost.title && 'X' !in ReactPost.title
  {
    ReactTitleHalves();
    ReactTitleFrontHasNoX();
    ReactTitleBackHasNoX();
  }

  lemma ReactTagsHaveNoX(k: nat)
    requires k < |ReactPost.tags|
    ensures 'x' !in ReactPost.tags[k] && 'X' !in ReactPost.tags[k]
  {
    assert ReactPost.tags == ["React", "Performance", "Animation"];
  }

  /** The first post mentions "linux" neither in its title nor in a tag: neither holds an `x`. */
  lemma ReactPostNotLinux()
    ensures !PostMatches(ReactPost, "LINUX")
  {
    LinuxLowered();
    ReactTitleHasNoX();
    LowerMissing(ReactPost.title, 'x');
    MissingCharExcludes(ToLower(ReactPost.title), "linux", 'x');
    forall k | 0 <= k < |ReactPost.tags|
      ensures !Includes(ToLower(ReactPost.tags[k]), "linux")
    {
      ReactTagsHaveNoX(k);
      LowerMissing(ReactPost.tags[k], 'x');
      MissingCharExcludes(ToLower(ReactPost.tags[k]), "linux", 'x');
    }
  }

  /** The second and third posts are tagged "Linux". */
  lemma TaggedLinux(post: BlogPost, k: nat)
    requires k < |post.tags| && post.tags[k] == "Linux"
    ensures PostMatches(post, "LINUX")
  {
    LinuxLowered();
    assert OccursAt(ToLower(post.tags[k]), "linux", 0);
  }

  /** Searching the archive for "LINUX" lists the posts with ids "2" and "4", in that order. */
  lemma LinuxSearch()
    ensures FilteredPosts(BlogPosts, "LINUX") == [NeovimPost, PiPost]
  {
    ReactPostNotLinux();
    TaggedLinux(NeovimPost, 0);
    TaggedLinux(PiPost, 1);
    var m := p => PostMatches(p, "LINUX");
    assert BlogPosts[1..][1..][1..] == [];
    assert Filter(BlogPosts[1..][1..], m) == [PiPost];
    assert Filter(BlogPosts[1..], m) == [NeovimPost, PiPost];
  }
}
