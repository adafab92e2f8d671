/**
 * The back end's record types (pydantic models) and their field defaults.
 * A field declared `Optional[...]` is an `Option`; a field with a default is
 * filled by the `New...` function when the caller leaves it out.
 */
module Models {
  import opened Wrappers

  datatype Profile = Profile(
    name: string,
    title: string,
    location: string,
    summary: string,
    image: string,
    linkedin: Option<string>,
    github: Option<string>,
    email: Option<string>)

  datatype Project = Project(name: string, description: string)

  datatype Experience = Experience(
    id: Option<string>,
    role: string,
    company: string,
    period: string,
    location: string,
    description: seq<string>,
    projects: Option<seq<Project>>)

  datatype Education = Education(
    id: Option<string>,
    degree: string,
    institution: string,
    period: string,
    location: string,
    field: string,
    details: seq<string>)

  /** A skill and its proficiency level (a percentage on the front end). */
  datatype Skill = Skill(name: string, level: int)

  datatype SkillCategory = SkillCategory(id: Option<string>, category: string, skills: seq<Skill>)

  datatype Appointment = Appointment(
    id: Option<string>,
    name: string,
    email: string,
    reason: string,
    date: string,
    time: string,
    status: string,
    createdAt: Option<string>)

  datatype BlogPost = BlogPost(
    id: Option<string>,
    title: string,
    slug: string,
    excerpt: string,
    content: string,
    author: string,
    tags: seq<string>,
    category: string,
    featuredImage: Option<string>,
    images: Option<seq<string>>,
    status: string,
    views: int,
    readingTime: Option<int>,
    publishedDate: Option<string>,
    createdAt: Option<string>,
    updatedAt: Option<string>,
    seoTitle: Option<string>,
    seoDescription: Option<string>,
    aiGenerated: bool)

  const DefaultAuthor := "Ibrahim El Khalil"

  /**
   * The statuses a blog post is meant to take. The record itself types the
   * field as a plain string, so nothing enforces this set.
   */
  predicate IsBlogStatus(s: string) {
    s == "draft" || s == "published" || s == "archived"
  }

  /** A profile built from its five required fields; the links are absent. */
  function NewProfile(name: string, title: string, location: string, summary: string, image: string): (p: Profile)
    ensures p.name == name && p.title == title && p.location == location
    ensures p.summary == summary && p.image == image
    ensures p.linkedin.None? && p.github.None? && p.email.None?
  {
    Profile(name, title, location, summary, image, None, None, None)
  }

  /** An experience entry with no id yet and an empty project list. */
  function NewExperience(role: string, company: string, period: string, location: string, description: seq<string>): (e: Experience)
    ensures e.id.None? && e.projects == Some([])
    ensures e.role == role && e.company == company && e.period == period
    ensures e.location == location && e.description == description
  {
    Experience(None, role, company, period, location, description, Some([]))
  }

  /** A new appointment starts out pending, without id or creation time. */
  function NewAppointment(name: string, email: string, reason: string, date: string, time: string): (a: Appointment)
    ensures a.status == "pending" && a.createdAt.None? && a.id.None?
    ensures a.name == name && a.email == email && a.reason == reason
    ensures a.date == date && a.time == time
  {
    Appointment(None, name, email, reason, date, time, "pending", None)
  }

  /**
   * A new blog post: author "Ibrahim El Khalil", no tags, draft status (one
   * of the three intended statuses), no views, not AI generated; every other
   * optional field absent except `images`, which defaults to the empty list.
   */
  function NewBlogPost(title: string, slug: string, excerpt: string, content: string, category: string): (b: BlogPost)
    ensures b.author == DefaultAuthor && b.tags == [] && b.status == "draft" && IsBlogStatus(b.status)
    ensures b.views == 0 && !b.aiGenerated && b.images == Some([])
    ensures b.id.None? && b.featuredImage.None? && b.readingTime.None? && b.publishedDate.None?
    ensures b.createdAt.None? && b.updatedAt.None? && b.seoTitle.None? && b.seoDescription.None?
    ensures b.title == title && b.slug == slug && b.excerpt == excerpt
    ensures b.content == content && b.category == category
  {
    BlogPost(None, title, slug, excerpt, content, DefaultAuthor, [], category,
             None, Some([]), "draft", 0, None, None, None, None, None, None, false)
  }
}
