/**
 * The blog section of the portfolio page (frontend/src/components/Blog.js):
 * the first six posts as cards with at most three tags each, the filter
 * buttons, and the modal that shows one post.
 */
module BlogGrid {
  import opened Wrappers
  import opened Text
  import opened Seqs
  import opened BlogFeed

  const CardsShown: nat := 6
  const TagsPerCard: nat := 3

  /** `blogs.slice(0, 6)`: the cards, the first six posts in order. */
  function Cards(blogs: seq<Blog>): (cards: seq<Blog>)
    ensures |cards| == if |blogs| < CardsShown then |blogs| else CardsShown
    ensures cards <= blogs
  {
    Take(blogs, CardsShown)
  }

  /** `blog.tags.slice(0, 3)` when the post has tags, nothing otherwise. */
  function CardTags(b: Blog): (tags: seq<string>)
    ensures |tags| <= TagsPerCard
    ensures b.tags.None? ==> tags == []
    ensures b.tags.Some? ==> tags <= b.tags.value
    ensures b.tags.Some? ==> |tags| == if |b.tags.value| < TagsPerCard then |b.tags.value| else TagsPerCard
  {
    if b.tags.Some? && |b.tags.value| > 0 then Take(b.tags.value, TagsPerCard) else []
  }

  /** The component's state. */
  class BlogGridState {
    var blogs: seq<Blog>
    var loading: bool
    var selectedBlog: Option<Blog>
    var showModal: bool
    var filter: string
    var categories: seq<string>

    constructor()
      ensures blogs == [] && loading && selectedBlog.None? && !showModal
      ensures filter == "all" && categories == []
    {
      blogs := [];
      loading := true;
      selectedBlog := None;
      showModal := false;
      filter := "all";
      categories := [];
    }

    /** The modal is drawn only when it is open and a post is selected. */
    predicate ModalShown()
      reads this
    {
      showModal && selectedBlog.Some?
    }

    /** `loadBlogs`: the same request and effect as on the blog page. */
    method LoadBlogs(outcome: Fetch<seq<Blog>>) returns (status: Option<string>)
      modifies this
      ensures status == StatusParam(filter) && !loading
      ensures Listing(blogs, categories) == AfterFetch(Listing(old(blogs), old(categories)), outcome)
      ensures selectedBlog == old(selectedBlog) && showModal == old(showModal) && filter == old(filter)
    {
      loading := true;
      status := StatusParam(filter);
      var next := AfterFetch(Listing(blogs, categories), outcome);
      blogs, categories := next.blogs, next.categories;
      loading := false;
    }

    /**
     * `openBlog`: a fetched post is selected and the modal opens; when the
     * request throws, nothing changes.
     */
    method OpenBlog(outcome: Fetch<Blog>)
      modifies this
      ensures outcome.Resolved? ==> selectedBlog == outcome.data && showModal
      ensures outcome.Failed? ==> selectedBlog == old(selectedBlog) && showModal == old(showModal)
      ensures blogs == old(blogs) && loading == old(loading)
      ensures filter == old(filter) && categories == old(categories)
    {
      if outcome.Resolved? {
        selectedBlog := outcome.data;
        showModal := true;
      }
    }

    /** `closeModal`: the modal closes and the selection is cleared. */
    method CloseModal()
      modifies this
      ensures !showModal && selectedBlog.None? && !ModalShown()
      ensures blogs == old(blogs) && loading == old(loading)
      ensures filter == old(filter) && categories == old(categories)
    {
      showModal := false;
      selectedBlog := None;
    }
  }
}
