/**
 * The skills pop-up (frontend/src/components/SkillsPopup.js): the search
 * filter over skill categories, the proficiency bands with their labels and
 * colours, the icon lookup, and the skill counts shown in the header and the
 * footer.
 */
module SkillsPopup {
  import opened Text
  import opened Seqs
  import opened Models

  // ---------------------------------------------------------------------
  // Search
  // ---------------------------------------------------------------------

  /**
   * A skill survives the search when its own name or the name of its
   * category includes the term, both lower-cased. The term is not trimmed.
   */
  predicate SkillMatches(category: string, skill: Skill, term: string) {
    IncludesCI(skill.name, term) || IncludesCI(category, term)
  }

  /** One category with only its matching skills left (`{...category, skills: ...}`). */
  function NarrowCategory(c: SkillCategory, term: string): SkillCategory {
    c.(skills := Filter((s: Skill) => SkillMatches(c.category, s, term), c.skills))
  }

  /** The narrowed categories, one for each category of `data`. */
  function Narrowed(data: seq<SkillCategory>, term: string): seq<SkillCategory> {
    Map((c: SkillCategory) => NarrowCategory(c, term), data)
  }

  predicate HasSkills(c: SkillCategory) {
    |c.skills| > 0
  }

  /** `filteredSkills`: everything for a blank term, else the narrowed, non-empty categories. */
  function FilteredSkills(data: seq<SkillCategory>, term: string): seq<SkillCategory> {
    if IsBlank(term) then data
    else Filter(HasSkills, Narrowed(data, term))
  }

  /**
   * Narrowing a category keeps its id and name, keeps an order-preserving
   * subsequence of its skills, keeps a skill exactly when it matches, and
   * keeps every skill when the category name itself matches.
   */
  lemma NarrowCategoryFacts(c: SkillCategory, term: string)
    ensures var n := NarrowCategory(c, term);
      && n.id == c.id && n.category == c.category
      && IsSubsequence(n.skills, c.skills)
      && (forall s :: s in n.skills <==> s in c.skills && SkillMatches(c.category, s, term))
      && (IncludesCI(c.category, term) ==> n == c)
  {
    var p := (s: Skill) => SkillMatches(c.category, s, term);
    FilterIsSubsequence(p, c.skills);
    forall s ensures s in Filter(p, c.skills) <==> s in c.skills && p(s) {
      FilterMembership(p, c.skills, s);
    }
    if IncludesCI(c.category, term) {
      FilterAll(p, c.skills);
    }
  }

  /** A blank (empty or white-space only) term shows the full category list unchanged. */
  lemma BlankSearchShowsAll(data: seq<SkillCategory>, term: string)
    requires Trim(term) == ""
    ensures FilteredSkills(data, term) == data
  {
    BlankIffTrimmedEmpty(term);
  }

  /**
   * For a non-blank term the result lists, in their original order, exactly
   * the narrowed categories that still hold a skill: no empty category
   * appears, and a category whose name matches comes back whole.
   */
  lemma {:induction false} FilteredSkillsFacts(data: seq<SkillCategory>, term: string)
    requires !IsBlank(term)
    ensures var r := FilteredSkills(data, term);
      && (forall c :: c in r ==> HasSkills(c))
      && IsSubsequence(r, Narrowed(data, term))
      && (forall d :: d in data && HasSkills(NarrowCategory(d, term)) ==> NarrowCategory(d, term) in r)
      && (forall c :: c in r ==> exists d :: d in data && c == NarrowCategory(d, term))
      && (forall d :: d in data && HasSkills(d) && IncludesCI(d.category, term) ==> d in r)
  {
    var f := (c: SkillCategory) => NarrowCategory(c, term);
    var narrowed := Narrowed(data, term);
    var r := Filter(HasSkills, narrowed);
    FilterIsSubsequence(HasSkills, narrowed);
    forall c ensures c in r <==> c in narrowed && HasSkills(c) {
      FilterMembership(HasSkills, narrowed, c);
    }
    forall d | d in data ensures f(d) in narrowed {
      var k :| 0 <= k < |data| && data[k] == d;
      assert narrowed[k] == f(d);
    }
    forall c | c in r ensures exists d :: d in data && c == f(d) {
      var k :| 0 <= k < |narrowed| && narrowed[k] == c;
      assert data[k] in data;
    }
    forall d | d in data && HasSkills(d) && IncludesCI(d.category, term) ensures d in r {
      NarrowCategoryFacts(d, term);
    }
  }

  /** A matching skill of any category is shown, under a category with the same id and name. */
  lemma SkillKeptWhenMatches(data: seq<SkillCategory>, term: string, d: SkillCategory, s: Skill)
    requires !IsBlank(term) && d in data
    ensures (exists c :: c in FilteredSkills(data, term) && c.category == d.category && c.id == d.id && s in c.skills)
            <== s in d.skills && SkillMatches(d.category, s, term)
  {
    FilteredSkillsFacts(data, term);
    NarrowCategoryFacts(d, term);
    if s in d.skills && SkillMatches(d.category, s, term) {
      assert NarrowCategory(d, term) in FilteredSkills(data, term);
    }
  }

  /** Every skill shown comes, unaltered, from a category of the data and matches the term. */
  lemma ShownSkillsComeFromData(data: seq<SkillCategory>, term: string, c: SkillCategory, s: Skill)
    requires !IsBlank(term) && c in FilteredSkills(data, term) && s in c.skills
    ensures exists d :: d in data && d.category == c.category && d.id == c.id && s in d.skills && SkillMatches(d.category, s, term)
  {
    FilteredSkillsFacts(data, term);
    var d :| d in data && c == NarrowCategory(d, term);
    NarrowCategoryFacts(d, term);
  }

  // ---------------------------------------------------------------------
  // Counts
  // ---------------------------------------------------------------------

  function SkillsIn(c: SkillCategory): nat {
    |c.skills|
  }

  /** The "Found N skills" and "Total: N skills" figures: the summed category sizes. */
  function SkillCount(cats: seq<SkillCategory>): nat {
    SumOf(SkillsIn, cats)
  }

  lemma {:induction false} DroppingEmptyKeepsSum(cats: seq<SkillCategory>)
    ensures SumOf(SkillsIn, Filter(HasSkills, cats)) == SumOf(SkillsIn, cats)
    decreases |cats|
  {
    if cats != [] {
      DroppingEmptyKeepsSum(cats[1..]);
    }
  }

  /** The number of skills of `data` that match `term`, category by category. */
  function MatchingSkills(data: seq<SkillCategory>, term: string): nat
    decreases |data|
  {
    if data == [] then 0 else |NarrowCategory(data[0], term).skills| + MatchingSkills(data[1..], term)
  }

  lemma {:induction false} SumOfNarrowed(data: seq<SkillCategory>, term: string)
    ensures SkillCount(Narrowed(data, term)) == MatchingSkills(data, term)
    decreases |data|
  {
    if data != [] {
      SumOfNarrowed(data[1..], term);
      var n := Narrowed(data, term);
      assert n[0] == NarrowCategory(data[0], term);
      assert n[1..] == Narrowed(data[1..], term);
    }
  }

  /**
   * The "Found" figure counts every matching skill of every category:
   * leaving out the categories that became empty does not change it.
   */
  lemma FoundCountIsMatchingSkills(data: seq<SkillCategory>, term: string)
    requires !IsBlank(term)
    ensures SkillCount(FilteredSkills(data, term)) == MatchingSkills(data, term)
  {
    DroppingEmptyKeepsSum(Narrowed(data, term));
    SumOfNarrowed(data, term);
  }

  // ---------------------------------------------------------------------
  // Proficiency bands
  // ---------------------------------------------------------------------

  datatype Band = Expert | Advanced | Proficient | Intermediate | Beginner

  /** The band of a level: thresholds 90, 80, 70 and 60. */
  function ProficiencyBand(level: int): (b: Band)
    ensures b == Expert <==> 90 <= level
    ensures b == Advanced <==> 80 <= level < 90
    ensures b == Proficient <==> 70 <= level < 80
    ensures b == Intermediate <==> 60 <= level < 70
    ensures b == Beginner <==> level < 60
  {
    if level >= 90 then Expert
    else if level >= 80 then Advanced
    else if level >= 70 then Proficient
    else if level >= 60 then Intermediate
    else Beginner
  }

  function BandLabel(b: Band): string {
    match b
    case Expert => "Expert"
    case Advanced => "Advanced"
    case Proficient => "Proficient"
    case Intermediate => "Intermediate"
    case Beginner => "Beginner"
  }

  function BandColor(b: Band): string {
    match b
    case Expert => "from-green-500 to-emerald-600"
    case Advanced => "from-blue-500 to-cyan-600"
    case Proficient => "from-purple-500 to-indigo-600"
    case Intermediate => "from-yellow-500 to-orange-600"
    case Beginner => "from-gray-500 to-gray-600"
  }

  /** `getProficiencyLabel`: the label of the level's band. */
  function ProficiencyLabel(level: int): (caption: string)
    ensures caption == BandLabel(ProficiencyBand(level))
  {
    if level >= 90 then "Expert"
    else if level >= 80 then "Advanced"
    else if level >= 70 then "Proficient"
    else if level >= 60 then "Intermediate"
    else "Beginner"
  }

  /** `getProficiencyColor`: the colour of the same band, so label and colour never disagree. */
  function ProficiencyColor(level: int): (color: string)
    ensures color == BandColor(ProficiencyBand(level))
  {
    if level >= 90 then "from-green-500 to-emerald-600"
    else if level >= 80 then "from-blue-500 to-cyan-600"
    else if level >= 70 then "from-purple-500 to-indigo-600"
    else if level >= 60 then "from-yellow-500 to-orange-600"
    else "from-gray-500 to-gray-600"
  }

  /** Distinct bands have distinct labels and distinct colours. */
  lemma BandsAreDistinguishable(b1: Band, b2: Band)
    ensures BandLabel(b1) == BandLabel(b2) <==> b1 == b2
    ensures BandColor(b1) == BandColor(b2) <==> b1 == b2
  {
  }

  // ---------------------------------------------------------------------
  // Icons
  // ---------------------------------------------------------------------

  const SkillIcons: map<string, string> := map[
    "Python" := "🐍", "Django" := "🎸", "FastAPI" := "⚡", "Flask" := "🧪", "Node.js" := "🟢",
    "PostgreSQL" := "🐘", "MongoDB" := "🍃", "Redis" := "🔴", "MySQL" := "🐬", "DynamoDB" := "📊",
    "AWS" := "☁️", "Docker" := "🐳", "Kubernetes" := "☸️", "GCP" := "🌩️", "CI/CD" := "🔄",
    "Machine Learning" := "🤖", "TensorFlow" := "🧠", "PyTorch" := "🔥", "NLP" := "💬",
    "Computer Vision" := "👁️"
  ]

  const DefaultIcon := "⚙️"

  /**
   * The properties every plain object literal inherits from
   * `Object.prototype`. Looking one of them up in the icon table gives that
   * inherited member, a function or, for `__proto__`, an object, and each
   * is truthy.
   */
  const InheritedKeys: set<string> := {
    "constructor", "__proto__", "__defineGetter__", "__defineSetter__", "__lookupGetter__",
    "__lookupSetter__", "hasOwnProperty", "isPrototypeOf", "propertyIsEnumerable",
    "toLocaleString", "toString", "valueOf"
  }

  /** What `getSkillIcon` returns: a glyph, or the inherited member named by the key. */
  datatype Icon = Glyph(text: string) | InheritedMember(key: string)

  /**
   * `getSkillIcon`: `icons[skillName] || '⚙️'`. A listed name gets its own
   * glyph, never the gear; a name of an inherited member gets that member,
   * which is truthy, so not the gear either; any other name gets the gear.
   */
  function SkillIcon(name: string): (icon: Icon)
    ensures name in SkillIcons ==> icon == Glyph(SkillIcons[name]) && icon != Glyph(DefaultIcon)
    ensures name !in SkillIcons && name in InheritedKeys ==> icon == InheritedMember(name)
    ensures name !in SkillIcons && name !in InheritedKeys ==> icon == Glyph(DefaultIcon)
  {
    if name in SkillIcons && SkillIcons[name] != "" then Glyph(SkillIcons[name])
    else if name in InheritedKeys then InheritedMember(name)
    else Glyph(DefaultIcon)
  }
}
