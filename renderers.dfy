/**
 * The three section renderers. Each takes the current contents of its
 * container (or `Missing` when the page has no element with that id) and a
 * fragment of the content document, and gives the container's new contents.
 * Markup is kept abstract: the values a template interpolates are kept as
 * they are, in the order the template places them.
 */
module Renderers {
  import opened Wrappers
  import opened JsValues

  const DefaultHeroTitle := "Hello, I'm Someone"
  const DefaultHeroSubtitle := "This is a minimal GitHub Pages skeleton."
  const ExperienceHeading := "Experience"
  const NoExperienceHeading := "No Experience Yet"
  const UntitledRole := "Untitled Role"
  const UnknownInstitution := "Unknown Institution"
  const ProjectsHeading := "Projects"
  const NoProjectsHeading := "No Projects Yet"
  const UntitledProject := "Untitled Project"

  /** One `<article class="card">`. */
  datatype Card =
    | RoleCard(role: JsVal, institution: JsVal, description: JsVal)
    | ProjectCard(name: JsVal, description: JsVal, link: Option<JsVal>)  // link: the href of "View"

  /** The inner markup of a container. */
  datatype Html =
    | Authored(source: string)                       // what the page carried before the script wrote to it
    | HeroHtml(title: JsVal, subtitle: JsVal)        // <h1>title</h1><p>subtitle</p>
    | SectionHtml(heading: string, cards: seq<Card>) // <h1>heading</h1><div class="grid">cards</div>

  /** A container looked up by id: absent, or present with its inner markup. */
  datatype Slot = Missing | Container(html: Html)

  /** `Array.isArray(v) ? v : []` */
  function ListItems(v: JsVal): (items: seq<JsVal>)
    ensures v.Arr? ==> items == v.items
    ensures !v.Arr? ==> items == []
  {
    if v.Arr? then v.items else []
  }

  /** Whether writing the card into the template throws: some interpolated value cannot be turned into text. */
  predicate CardThrows(c: Card) {
    match c
    case RoleCard(role, institution, description) =>
      ToStringThrows(role) || ToStringThrows(institution) || ToStringThrows(description)
    case ProjectCard(name, description, link) =>
      ToStringThrows(name) || ToStringThrows(description) || (link.Some? && ToStringThrows(link.value))
  }

  // ---------------------------------------------------------------- hero

  /**
   * `renderHero(hero)`: nothing changes without a container or with a falsy
   * `hero`. Otherwise it throws (`None`) exactly when the title or the
   * subtitle cannot be turned into text; if not, the default title and
   * subtitle appear only for null or undefined fields, and an empty string,
   * or any other present value, is shown as it is.
   */
  function RenderHero(slot: Slot, hero: JsVal): (r: Option<Slot>)
    ensures slot.Missing? || !IsTruthy(hero) ==> r == Some(slot)
    ensures slot.Container? && IsTruthy(hero) ==>
      (r.None? <==> ToStringThrows(Prop(hero, "title")) || ToStringThrows(Prop(hero, "subtitle")))
    ensures slot.Container? && IsTruthy(hero) && r.Some? ==>
      && r.value.Container? && r.value.html.HeroHtml?
      && (IsNullish(Prop(hero, "title")) ==> r.value.html.title == Str(DefaultHeroTitle))
      && (!IsNullish(Prop(hero, "title")) ==> r.value.html.title == Prop(hero, "title"))
      && (IsNullish(Prop(hero, "subtitle")) ==> r.value.html.subtitle == Str(DefaultHeroSubtitle))
      && (!IsNullish(Prop(hero, "subtitle")) ==> r.value.html.subtitle == Prop(hero, "subtitle"))
  {
    if slot.Missing? || !IsTruthy(hero) then Some(slot)
    else
      var title := Coalesce(Prop(hero, "title"), Str(DefaultHeroTitle));
      var subtitle := Coalesce(Prop(hero, "subtitle"), Str(DefaultHeroSubtitle));
      if ToStringThrows(title) || ToStringThrows(subtitle) then None
      else Some(Container(HeroHtml(title, subtitle)))
  }

  /** Rendering replaces the container's contents: a later truthy hero wipes out what an earlier call wrote. */
  lemma RenderHeroReplaces(slot: Slot, first: JsVal, second: JsVal)
    requires RenderHero(slot, first).Some? && IsTruthy(second)
    ensures RenderHero(RenderHero(slot, first).value, second) == RenderHero(slot, second)
  {
  }

  // ---------------------------------------------------------------- experience

  /** The card of one experience entry. */
  function RoleCardOf(exp: JsVal): Card
    requires !IsNullish(exp)
  {
    RoleCard(Or(Prop(exp, "title"), Str(UntitledRole)),
             Or(Prop(exp, "Institution"), Str(UnknownInstitution)),
             Or(Prop(exp, "description"), Str("")))
  }

  /**
   * Experience fields fall back on every falsy value, the empty string
   * included; a truthy value is shown as it is.
   */
  lemma RoleCardFallbacks(exp: JsVal)
    requires !IsNullish(exp)
    ensures var c := RoleCardOf(exp);
      && (IsTruthy(Prop(exp, "title")) ==> c.role == Prop(exp, "title"))
      && (!IsTruthy(Prop(exp, "title")) ==> c.role == Str(UntitledRole))
      && (IsTruthy(Prop(exp, "Institution")) ==> c.institution == Prop(exp, "Institution"))
      && (!IsTruthy(Prop(exp, "Institution")) ==> c.institution == Str(UnknownInstitution))
      && (IsTruthy(Prop(exp, "description")) ==> c.description == Prop(exp, "description"))
      && (!IsTruthy(Prop(exp, "description")) ==> c.description == Str(""))
  {
  }

  /** Whether rendering the experience entry `exp` throws. */
  predicate RoleItemThrows(exp: JsVal) {
    IsNullish(exp) || CardThrows(RoleCardOf(exp))
  }

  /**
   * An experience entry throws exactly when it is null or undefined, or one
   * of its three fields cannot be turned into text.
   */
  lemma RoleItemThrowsExactly(exp: JsVal)
    ensures RoleItemThrows(exp) <==>
      IsNullish(exp) ||
      ToStringThrows(Prop(exp, "title")) || ToStringThrows(Prop(exp, "Institution")) || ToStringThrows(Prop(exp, "description"))
  {
  }

  /** `items.map(exp => ...)`: one card per entry, in order, or a TypeError at an entry that throws. */
  function RoleCards(items: seq<JsVal>): (r: Option<seq<Card>>)
    ensures r.None? <==> exists i | 0 <= i < |items| :: RoleItemThrows(items[i])
    ensures r.Some? ==> |r.value| == |items|
    ensures r.Some? ==> forall i | 0 <= i < |items| :: !IsNullish(items[i]) && r.value[i] == RoleCardOf(items[i])
  {
    if items == [] then Some([])
    else if RoleItemThrows(items[0]) then None
    else
      match RoleCards(items[1..])
      case None => None
      case Some(rest) => Some([RoleCardOf(items[0])] + rest)
  }

  /** The markup of the experience section for the list `items` (with no entry that throws). */
  ghost predicate IsExperienceSection(items: seq<JsVal>, html: Html) {
    && html.SectionHtml?
    && (html.heading == ExperienceHeading <==> |items| > 0)
    && (html.heading == NoExperienceHeading <==> |items| == 0)
    && |html.cards| == |items|
    && forall i | 0 <= i < |items| :: !IsNullish(items[i]) && html.cards[i] == RoleCardOf(items[i])
  }

  /** `renderExperience(experiences)`: `None` is the TypeError an entry that throws raises. */
  function RenderExperience(slot: Slot, experiences: JsVal): (r: Option<Slot>)
    ensures slot.Missing? ==> r == Some(Missing)
    ensures slot.Container? ==>
      (r.None? <==> exists i | 0 <= i < |ListItems(experiences)| :: RoleItemThrows(ListItems(experiences)[i]))
    ensures slot.Container? && r.Some? ==>
      r.value.Container? && IsExperienceSection(ListItems(experiences), r.value.html)
  {
    if slot.Missing? then Some(Missing)
    else
      var items := ListItems(experiences);
      match RoleCards(items)
      case None => None
      case Some(cards) =>
        Some(Container(SectionHtml(if |items| > 0 then ExperienceHeading else NoExperienceHeading, cards)))
  }

  /** Anything that is not an array renders as the empty experience section. */
  lemma NonArrayExperience(slot: Slot, experiences: JsVal)
    requires slot.Container? && !experiences.Arr?
    ensures RenderExperience(slot, experiences) == Some(Container(SectionHtml(NoExperienceHeading, [])))
  {
  }

  // ---------------------------------------------------------------- projects

  /** The card of one project entry. */
  function ProjectCardOf(p: JsVal): Card
    requires !IsNullish(p)
  {
    ProjectCard(Coalesce(Prop(p, "name"), Str(UntitledProject)),
                Coalesce(Prop(p, "description"), Str("")),
                if IsTruthy(Prop(p, "url")) then Some(Prop(p, "url")) else None)
  }

  /**
   * Project name and description fall back only on null or undefined; the
   * "View" link is there exactly when `url` is truthy, and points at it.
   */
  lemma ProjectCardFields(p: JsVal)
    requires !IsNullish(p)
    ensures var c := ProjectCardOf(p);
      && (IsNullish(Prop(p, "name")) ==> c.name == Str(UntitledProject))
      && (!IsNullish(Prop(p, "name")) ==> c.name == Prop(p, "name"))
      && (IsNullish(Prop(p, "description")) ==> c.description == Str(""))
      && (!IsNullish(Prop(p, "description")) ==> c.description == Prop(p, "description"))
      && (c.link.Some? <==> IsTruthy(Prop(p, "url")))
      && (c.link.Some? ==> c.link.value == Prop(p, "url"))
  {
  }

  /** Whether rendering the project entry `p` throws. */
  predicate ProjectItemThrows(p: JsVal) {
    IsNullish(p) || CardThrows(ProjectCardOf(p))
  }

  /**
   * A project entry throws exactly when it is null or undefined, or its name,
   * description or url cannot be turned into text.
   */
  lemma ProjectItemThrowsExactly(p: JsVal)
    ensures ProjectItemThrows(p) <==>
      IsNullish(p) ||
      ToStringThrows(Prop(p, "name")) || ToStringThrows(Prop(p, "description")) || ToStringThrows(Prop(p, "url"))
  {
  }

  /** `items.map(p => ...)`: one card per project, in order, or a TypeError at an entry that throws. */
  function ProjectCards(items: seq<JsVal>): (r: Option<seq<Card>>)
    ensures r.None? <==> exists i | 0 <= i < |items| :: ProjectItemThrows(items[i])
    ensures r.Some? ==> |r.value| == |items|
    ensures r.Some? ==> forall i | 0 <= i < |items| :: !IsNullish(items[i]) && r.value[i] == ProjectCardOf(items[i])
  {
    if items == [] then Some([])
    else if ProjectItemThrows(items[0]) then None
    else
      match ProjectCards(items[1..])
      case None => None
      case Some(rest) => Some([ProjectCardOf(items[0])] + rest)
  }

  /** The markup of the projects section for the list `items` (with no entry that throws). */
  ghost predicate IsProjectsSection(items: seq<JsVal>, html: Html) {
    && html.SectionHtml?
    && (html.heading == ProjectsHeading <==> |items| > 0)
    && (html.heading == NoProjectsHeading <==> |items| == 0)
    && |html.cards| == |items|
    && forall i | 0 <= i < |items| :: !IsNullish(items[i]) && html.cards[i] == ProjectCardOf(items[i])
  }

  /** `renderProjects(projects)`: `None` is the TypeError an entry that throws raises. */
  function RenderProjects(slot: Slot, projects: JsVal): (r: Option<Slot>)
    ensures slot.Missing? ==> r == Some(Missing)
    ensures slot.Container? ==>
      (r.None? <==> exists i | 0 <= i < |ListItems(projects)| :: ProjectItemThrows(ListItems(projects)[i]))
    ensures slot.Container? && r.Some? ==>
      r.value.Container? && IsProjectsSection(ListItems(projects), r.value.html)
  {
    if slot.Missing? then Some(Missing)
    else
      var items := ListItems(projects);
      match ProjectCards(items)
      case None => None
      case Some(cards) =>
        Some(Container(SectionHtml(if |items| > 0 then ProjectsHeading else NoProjectsHeading, cards)))
  }

  /** Anything that is not an array, the empty array included, renders as the empty projects section. */
  lemma EmptyProjects(slot: Slot, projects: JsVal)
    requires slot.Container? && ListItems(projects) == []
    ensures RenderProjects(slot, projects) == Some(Container(SectionHtml(NoProjectsHeading, [])))
  {
  }

  /** Rendering the projects replaces what an earlier successful call wrote. */
  lemma RenderProjectsReplaces(slot: Slot, first: JsVal, second: JsVal)
    requires RenderProjects(slot, first).Some?
    ensures RenderProjects(RenderProjects(slot, first).value, second) == RenderProjects(slot, second)
  {
  }
}
