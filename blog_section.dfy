/**
 * The blog section of the admin dashboard (BlogSectionClean.js): the table
 * filter by search term and status, the status badge colours, saving a post
 * as an update or a creation, deleting after confirmation, and drafting a
 * post with the AI generator.
 */
module BlogSection {
  import opened Wrappers
  import opened Text
  import opened Seqs
  import opened BlogFeed

  // ---------------------------------------------------------------------
  // Filtering and display
  // ---------------------------------------------------------------------

  /** The search half of `filteredBlogs`: the term in the title, the excerpt or the category. */
  predicate MatchesSearch(b: Blog, term: string) {
    OptIncludesCI(b.title, term) || OptIncludesCI(b.excerpt, term) || OptIncludesCI(b.category, term)
  }

  /** The status half: every status, or exactly the chosen one. */
  predicate MatchesStatus(b: Blog, filterStatus: string) {
    filterStatus == "all" || b.status == Some(filterStatus)
  }

  /** `filteredBlogs`. */
  function FilteredBlogs(blogs: seq<Blog>, term: string, filterStatus: string): seq<Blog> {
    Filter((b: Blog) => MatchesSearch(b, term) && MatchesStatus(b, filterStatus), blogs)
  }

  /**
   * The table lists, in their stored order, exactly the posts whose title,
   * excerpt or category includes the term and whose status passes the
   * status filter.
   */
  lemma FilteredBlogsFacts(blogs: seq<Blog>, term: string, filterStatus: string)
    ensures var r := FilteredBlogs(blogs, term, filterStatus);
      && IsSubsequence(r, blogs)
      && (forall b :: b in r <==> b in blogs && MatchesSearch(b, term) && MatchesStatus(b, filterStatus))
  {
    var p := (b: Blog) => MatchesSearch(b, term) && MatchesStatus(b, filterStatus);
    FilterIsSubsequence(p, blogs);
    forall b ensures b in Filter(p, blogs) <==> b in blogs && p(b) {
      FilterMembership(p, blogs, b);
    }
  }

  const Green := "bg-green-100 text-green-800"
  const Yellow := "bg-yellow-100 text-yellow-800"
  const Gray := "bg-gray-100 text-gray-800"

  /**
   * `getStatusColor`: green for published posts, yellow for drafts, and the
   * same gray for archived posts and for any other or missing status.
   */
  function StatusColor(status: Option<string>): (color: string)
    ensures color == Green <==> status == Some("published")
    ensures color == Yellow <==> status == Some("draft")
    ensures color == Gray <==> status != Some("published") && status != Some("draft")
  {
    if status == Some("published") then Green
    else if status == Some("draft") then Yellow
    else Gray
  }

  /** `formatDate` of the admin table: "Not set" for a missing date, else the locale rendering. */
  function FormatDate(date: Option<string>, localeDate: string -> string): (text: string)
    ensures !Truthy(date) ==> text == "Not set"
    ensures Truthy(date) ==> text == localeDate(date.value)
  {
    if Truthy(date) then localeDate(date.value) else "Not set"
  }

  // ---------------------------------------------------------------------
  // Saving
  // ---------------------------------------------------------------------

  /** The API call a save makes. */
  datatype BlogCall = UpdateBlog(id: string) | CreateBlog

  /** `editingBlog?.id ? updateBlog(editingBlog.id, …) : createBlog(…)`. */
  function SaveCall(editing: Option<Blog>): (call: BlogCall)
    ensures call.UpdateBlog? <==> editing.Some? && Truthy(editing.value.id)
    ensures call.UpdateBlog? ==> call.id == editing.value.id.value
  {
    if editing.Some? && Truthy(editing.value.id) then UpdateBlog(editing.value.id.value) else CreateBlog
  }

  /** The post the AI modal puts in the editor: the generated fields, with the chosen category and as a draft. */
  function Draft(generated: Option<Blog>, aiCategory: string): (d: Blog)
    ensures d.category == Some(aiCategory) && d.status == Some("draft")
    ensures generated.Some? ==> d == generated.value.(category := Some(aiCategory), status := Some("draft"))
    ensures generated.None? ==> d.id.None? && d.title.None? && d.content.None?
  {
    // Spreading `null` contributes no fields.
    var base := if generated.Some? then generated.value
                else Blog(None, None, None, None, None, None, None, None, None);
    base.(category := Some(aiCategory), status := Some("draft"))
  }

  /** A message passed to the dashboard's `showMessage`. */
  datatype Notice = Notice(text: string, isError: bool)

  // ---------------------------------------------------------------------
  // The component's state
  // ---------------------------------------------------------------------

  class BlogSectionState {
    var blogs: seq<Blog>
    var editingBlog: Option<Blog>
    var showModal: bool
    var loading: bool
    var showAIModal: bool
    var aiTopic: string
    var aiCategory: string
    var generatingAI: bool
    var notice: Option<Notice>

    constructor(blogs: seq<Blog>)
      ensures this.blogs == blogs && editingBlog.None? && !showModal && !loading
      ensures !showAIModal && aiTopic == "" && aiCategory == "" && !generatingAI && notice.None?
    {
      this.blogs := blogs;
      editingBlog := None;
      showModal := false;
      loading := false;
      showAIModal := false;
      aiTopic := "";
      aiCategory := "";
      generatingAI := false;
      notice := None;
    }

    /** `loadBlogs`: stores the fetched list (`data || []`); a failure keeps the old one. */
    method LoadBlogs(outcome: Fetch<seq<Blog>>)
      modifies this
      ensures outcome.Failed? ==> blogs == old(blogs)
      ensures outcome.Resolved? ==> blogs == outcome.data.GetOr([])
      ensures !loading
      ensures editingBlog == old(editingBlog) && showModal == old(showModal) && showAIModal == old(showAIModal)
      ensures aiTopic == old(aiTopic) && aiCategory == old(aiCategory) && generatingAI == old(generatingAI)
      ensures notice == old(notice)
    {
      loading := true;
      if outcome.Resolved? {
        blogs := outcome.data.GetOr([]);
      }
      loading := false;
    }

    /** "New Post" or a row's edit button: the editor opens on `b` (nothing for a new post). */
    method OpenEditor(b: Option<Blog>)
      modifies this
      ensures editingBlog == b && showModal
      ensures blogs == old(blogs) && loading == old(loading) && showAIModal == old(showAIModal)
      ensures aiTopic == old(aiTopic) && aiCategory == old(aiCategory) && generatingAI == old(generatingAI)
      ensures notice == old(notice)
    {
      editingBlog := b;
      showModal := true;
    }

    /**
     * `handleSave`: makes the call `SaveCall` chooses; on success the editor
     * closes, the post is cleared and the list is reloaded (`reload`); on
     * error only the error message appears.
     */
    method HandleSave(apiOk: bool) returns (call: BlogCall, reload: bool)
      modifies this
      ensures call == SaveCall(old(editingBlog)) && reload == apiOk
      ensures apiOk ==> !showModal && editingBlog.None?
      ensures apiOk ==> notice == Some(Notice(if call.UpdateBlog? then "Blog updated successfully!"
                                              else "Blog created successfully!", false))
      ensures !apiOk ==> showModal == old(showModal) && editingBlog == old(editingBlog)
      ensures !apiOk ==> notice == Some(Notice("Error saving blog", true))
      ensures blogs == old(blogs) && loading == old(loading) && showAIModal == old(showAIModal)
      ensures aiTopic == old(aiTopic) && aiCategory == old(aiCategory) && generatingAI == old(generatingAI)
    {
      call := SaveCall(editingBlog);
      if !apiOk {
        notice := Some(Notice("Error saving blog", true));
        reload := false;
        return;
      }
      if call.UpdateBlog? {
        notice := Some(Notice("Blog updated successfully!", false));
      } else {
        notice := Some(Notice("Blog created successfully!", false));
      }
      reload := true;
      showModal := false;
      editingBlog := None;
    }

    /**
     * `handleDelete`: without confirmation nothing is called and nothing
     * changes; otherwise post `id` is deleted (`deleted`) and the outcome
     * reported.
     */
    method HandleDelete(id: string, confirmed: bool, apiOk: bool) returns (deleted: Option<string>, reload: bool)
      modifies this
      ensures deleted.Some? <==> confirmed
      ensures deleted.Some? ==> deleted.value == id
      ensures reload <==> confirmed && apiOk
      ensures !confirmed ==> notice == old(notice)
      ensures confirmed ==> notice == Some(if apiOk then Notice("Blog deleted successfully!", false)
                                           else Notice("Error deleting blog", true))
      ensures blogs == old(blogs) && editingBlog == old(editingBlog) && showModal == old(showModal)
      ensures loading == old(loading) && showAIModal == old(showAIModal)
      ensures aiTopic == old(aiTopic) && aiCategory == old(aiCategory) && generatingAI == old(generatingAI)
    {
      deleted, reload := None, false;
      if confirmed {
        deleted := Some(id);
        if apiOk {
          notice := Some(Notice("Blog deleted successfully!", false));
          reload := true;
        } else {
          notice := Some(Notice("Error deleting blog", true));
        }
      }
    }

    /**
     * `handleGenerateWithAI`. With no topic it reports an error and starts
     * nothing (`requested` is false). Otherwise the generator is asked; its
     * answer, forced into the chosen category and draft status, opens in the
     * editor in place of the AI modal, and a failure only reports an error.
     * The generating flag is down again once the generator has answered.
     */
    method HandleGenerateWithAI(generated: Fetch<Blog>) returns (requested: bool)
      modifies this
      ensures requested <==> aiTopic != ""
      ensures requested ==> !generatingAI
      ensures !requested ==> notice == Some(Notice("Please enter a topic", true))
      ensures !requested || generated.Failed? ==>
                editingBlog == old(editingBlog) && showModal == old(showModal) && showAIModal == old(showAIModal)
      ensures requested && generated.Failed? ==> notice == Some(Notice("Error generating blog with AI", true))
      ensures requested && generated.Resolved? ==>
                && editingBlog == Some(Draft(generated.data, aiCategory))
                && !showAIModal && showModal
                && notice == Some(Notice("Blog content generated! Review and save.", false))
      ensures !requested ==> generatingAI == old(generatingAI)
      ensures blogs == old(blogs) && loading == old(loading)
      ensures aiTopic == old(aiTopic) && aiCategory == old(aiCategory)
    {
      if aiTopic == "" {
        notice := Some(Notice("Please enter a topic", true));
        requested := false;
        return;
      }
      requested := true;
      generatingAI := true;
      match generated {
        case Failed =>
          notice := Some(Notice("Error generating blog with AI", true));
        case Resolved(g) =>
          editingBlog := Some(Draft(g, aiCategory));
          showAIModal := false;
          showModal := true;
          notice := Some(Notice("Blog content generated! Review and save.", false));
      }
      generatingAI := false;
    }
  }
}
