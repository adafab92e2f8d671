/**
 * What the public blog page (frontend/src/components/BlogPage.js) and the
 * blog section of the portfolio (frontend/src/components/Blog.js) share: the
 * blog record as the front end receives it, the status parameter of the list
 * request, the category list derived from a fetched list, and the rule for
 * rendering a missing date.
 */
module BlogFeed {
  import opened Wrappers
  import opened Text
  import opened Seqs

  /**
   * A blog post as a JSON object on the front end: any field may be
   * missing. Only the fields the components inspect are kept.
   */
  datatype Blog = Blog(
    id: Option<string>,
    title: Option<string>,
    excerpt: Option<string>,
    content: Option<string>,
    category: Option<string>,
    status: Option<string>,
    tags: Option<seq<string>>,
    publishedDate: Option<string>,
    createdAt: Option<string>)

  /**
   * The outcome of an awaited API call: it threw, or it resolved to a value
   * that may be `null`.
   */
  datatype Fetch<T> = Failed | Resolved(data: Option<T>)

  /** `filter === 'all' ? null : filter`: the status sent with the list request. */
  function StatusParam(filter: string): (status: Option<string>)
    ensures status.None? <==> filter == "all"
    ensures status.Some? ==> status.value == filter
  {
    if filter == "all" then None else Some(filter)
  }

  /** The blog has a category that is not empty (`Boolean(blog.category)`). */
  predicate HasCategory(b: Blog) {
    Truthy(b.category)
  }

  /** The category's text, or "" when there is none. */
  function CategoryText(b: Blog): string {
    if b.category.Some? then b.category.value else ""
  }

  /**
   * `blogs.map(blog => blog.category).filter(Boolean)`: one name per blog
   * with a non-empty category, in list order and with repetitions.
   */
  function CategoryNames(blogs: seq<Blog>): (names: seq<string>)
    ensures names == Map(CategoryText, Filter(HasCategory, blogs))
    ensures forall n :: n in names ==> n != ""
    ensures forall n :: n in names <==> exists b :: b in blogs && b.category == Some(n) && n != ""
    decreases |blogs|
  {
    if blogs == [] then []
    else
      var rest := CategoryNames(blogs[1..]);
      assert forall b :: b in blogs[1..] ==> b in blogs;
      if Truthy(blogs[0].category) then
        assert Filter(HasCategory, blogs) == [blogs[0]] + Filter(HasCategory, blogs[1..]);
        [blogs[0].category.value] + rest
      else rest
  }

  /** `[...new Set(categoryNames)]`: the filter buttons below "All Posts" and "Published". */
  function UniqueCategories(blogs: seq<Blog>): seq<string> {
    Distinct(CategoryNames(blogs))
  }

  /**
   * The category buttons name every category some blog has, each once, never
   * an empty or missing one, in the order in which they first appear among
   * the blogs' categories.
   */
  lemma UniqueCategoriesFacts(blogs: seq<Blog>)
    ensures var cats := UniqueCategories(blogs);
      && NoDuplicates(cats)
      && (forall c :: c in cats <==> c != "" && exists b :: b in blogs && b.category == Some(c))
      && InFirstOccurrenceOrder(cats, Map(CategoryText, Filter(HasCategory, blogs)))
  {
    DistinctFacts(CategoryNames(blogs));
  }

  /** The listing state a `loadBlogs` call writes: the blogs and the derived categories. */
  datatype Listing = Listing(blogs: seq<Blog>, categories: seq<string>)

  /**
   * The effect of `loadBlogs` on the listing. A failed request changes
   * nothing. A `null` answer empties the list, and then `null.map` throws
   * inside the `try`, so the categories keep their old value. A list is
   * stored as is, with its categories.
   */
  function AfterFetch(prev: Listing, outcome: Fetch<seq<Blog>>): (next: Listing)
    ensures outcome.Failed? ==> next == prev
    ensures outcome.Resolved? && outcome.data.None? ==> next.blogs == [] && next.categories == prev.categories
    ensures outcome.Resolved? && outcome.data.Some? ==>
              next.blogs == outcome.data.value && next.categories == UniqueCategories(outcome.data.value)
  {
    match outcome
    case Failed => prev
    case Resolved(None) => Listing([], prev.categories)
    case Resolved(Some(data)) => Listing(data, UniqueCategories(data))
  }

  /** `blog.published_date || blog.created_at`: the date shown on a card. */
  function ShownDate(b: Blog): (date: Option<string>)
    ensures Truthy(b.publishedDate) ==> date == b.publishedDate
    ensures !Truthy(b.publishedDate) ==> date == b.createdAt
  {
    if Truthy(b.publishedDate) then b.publishedDate else b.createdAt
  }

  /**
   * `formatDate`: the empty string for a missing or empty date, otherwise the
   * locale rendering of the date (`toLocaleDateString`, a parameter here).
   */
  function FormatDate(date: Option<string>, localeDate: string -> string): (text: string)
    ensures !Truthy(date) ==> text == ""
    ensures Truthy(date) ==> text == localeDate(date.value)
  {
    if Truthy(date) then localeDate(date.value) else ""
  }
}
