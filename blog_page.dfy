/**
 * The public blog page (frontend/src/components/BlogPage.js): loading the
 * list for the selected filter, the search over title, excerpt and content
 * combined with the filter buttons, and the choice between the single
 * article and the list.
 */
module BlogPage {
  import opened Wrappers
  import opened Text
  import opened Seqs
  import opened BlogFeed

  /** The search half of `filteredBlogs`: the term in the title, the excerpt or the content. */
  predicate MatchesSearch(b: Blog, term: string) {
    OptIncludesCI(b.title, term) || OptIncludesCI(b.excerpt, term) || OptIncludesCI(b.content, term)
  }

  /** The filter half: all posts, published posts, or one category. */
  predicate MatchesFilter(b: Blog, filter: string) {
    || filter == "all"
    || (filter == "published" && b.status == Some("published"))
    || b.category == Some(filter)
  }

  /** `filteredBlogs`. */
  function FilteredBlogs(blogs: seq<Blog>, term: string, filter: string): seq<Blog> {
    Filter((b: Blog) => MatchesSearch(b, term) && MatchesFilter(b, filter), blogs)
  }

  /**
   * The list shows, in their stored order, exactly the blogs that match the
   * search and the filter.
   */
  lemma FilteredBlogsFacts(blogs: seq<Blog>, term: string, filter: string)
    ensures var r := FilteredBlogs(blogs, term, filter);
      && IsSubsequence(r, blogs)
      && (forall b :: b in r <==> b in blogs && MatchesSearch(b, term) && MatchesFilter(b, filter))
  {
    var p := (b: Blog) => MatchesSearch(b, term) && MatchesFilter(b, filter);
    FilterIsSubsequence(p, blogs);
    forall b ensures b in Filter(p, blogs) <==> b in blogs && p(b) {
      FilterMembership(p, blogs, b);
    }
  }

  /**
   * A blog with no title, excerpt and content is never listed, even while
   * the search box is empty.
   */
  lemma TextlessBlogNeverListed(blogs: seq<Blog>, term: string, filter: string, b: Blog)
    requires b.title.None? && b.excerpt.None? && b.content.None?
    ensures b !in FilteredBlogs(blogs, term, filter)
  {
    FilteredBlogsFacts(blogs, term, filter);
  }

  /** With an empty search box and "All Posts", every blog with some text is listed. */
  lemma EmptySearchListsAll(blogs: seq<Blog>, b: Blog)
    requires b in blogs && (b.title.Some? || b.excerpt.Some? || b.content.Some?)
    ensures b in FilteredBlogs(blogs, "", "all")
  {
    FilteredBlogsFacts(blogs, "", "all");
    if b.title.Some? {
      ContainsEmpty(Lower(b.title.value));
    } else if b.excerpt.Some? {
      ContainsEmpty(Lower(b.excerpt.value));
    } else {
      ContainsEmpty(Lower(b.content.value));
    }
  }

  /** What the page renders. */
  datatype View = Article(blog: Blog) | Skeleton | EmptyList | List(shown: seq<Blog>)

  /**
   * The single article is rendered exactly when the route names a blog and
   * that blog has been loaded; otherwise the list view shows the skeleton
   * while loading, then the filtered blogs or the empty-result message.
   */
  function PageView(blogId: Option<string>, selected: Option<Blog>, loading: bool,
                    blogs: seq<Blog>, term: string, filter: string): (v: View)
    ensures v.Article? <==> Truthy(blogId) && selected.Some?
    ensures v.Article? ==> v.blog == selected.value
    ensures v.Skeleton? <==> !(Truthy(blogId) && selected.Some?) && loading
    ensures v.List? ==> v.shown == FilteredBlogs(blogs, term, filter) && v.shown != []
    ensures v.EmptyList? ==> FilteredBlogs(blogs, term, filter) == []
  {
    if Truthy(blogId) && selected.Some? then Article(selected.value)
    else if loading then Skeleton
    else if FilteredBlogs(blogs, term, filter) == [] then EmptyList
    else List(FilteredBlogs(blogs, term, filter))
  }

  /** The component's state. */
  class BlogPageState {
    var blogId: Option<string>
    var blogs: seq<Blog>
    var selectedBlog: Option<Blog>
    var loading: bool
    var filter: string
    var categories: seq<string>
    var searchTerm: string

    constructor(blogId: Option<string>)
      ensures this.blogId == blogId && blogs == [] && selectedBlog.None? && loading
      ensures filter == "all" && categories == [] && searchTerm == ""
    {
      this.blogId := blogId;
      blogs := [];
      selectedBlog := None;
      loading := true;
      filter := "all";
      categories := [];
      searchTerm := "";
    }

    /**
     * `loadBlogs`: requests the list for the current filter (the returned
     * status parameter) and applies the answer; loading is over in every case.
     */
    method LoadBlogs(outcome: Fetch<seq<Blog>>) returns (status: Option<string>)
      modifies this
      ensures status == StatusParam(filter) && !loading
      ensures Listing(blogs, categories) == AfterFetch(Listing(old(blogs), old(categories)), outcome)
      ensures blogId == old(blogId) && selectedBlog == old(selectedBlog)
      ensures filter == old(filter) && searchTerm == old(searchTerm)
    {
      loading := true;
      status := StatusParam(filter);
      match outcome {
        case Failed =>
        case Resolved(None) =>
          blogs := [];
        case Resolved(Some(data)) =>
          blogs := data;
          categories := UniqueCategories(data);
      }
      loading := false;
    }

    /**
     * `loadBlog`: on success the fetched blog becomes the selected one; on
     * failure the selection is kept and the page navigates back to the list
     * (`redirect`).
     */
    method LoadBlog(outcome: Fetch<Blog>) returns (redirect: bool)
      modifies this
      ensures redirect <==> outcome.Failed?
      ensures outcome.Resolved? ==> selectedBlog == outcome.data
      ensures outcome.Failed? ==> selectedBlog == old(selectedBlog)
      ensures blogId == old(blogId) && blogs == old(blogs) && loading == old(loading)
      ensures filter == old(filter) && categories == old(categories) && searchTerm == old(searchTerm)
    {
      match outcome {
        case Failed =>
          redirect := true;
        case Resolved(b) =>
          selectedBlog := b;
          redirect := false;
      }
    }

    /** A filter button; the list is then reloaded for the new filter. */
    method SetFilter(f: string)
      modifies this
      ensures filter == f
      ensures blogId == old(blogId) && blogs == old(blogs) && selectedBlog == old(selectedBlog)
      ensures loading == old(loading) && categories == old(categories) && searchTerm == old(searchTerm)
    {
      filter := f;
    }

    function View(): View
      reads this
    {
      PageView(blogId, selectedBlog, loading, blogs, searchTerm, filter)
    }
  }
}
