/**
 * Loading the content document and dispatching it to the renderers. The
 * network request and the JSON parse are not modelled: their outcome is an
 * input. What is modelled is the effect on the page: the three containers
 * and the document title.
 */
module ContentLoader {
  import opened Wrappers
  import opened JsValues
  import opened Renderers

  /**
   * What `fetch` followed by `res.json()` produced: the parsed document, or
   * a failure (network error, a status that is not OK, malformed JSON).
   */
  datatype FetchOutcome = Ok(data: JsVal) | Err

  /** The parts of the page the loader can change. */
  datatype PageState = PageState(hero: Slot, experience: Slot, projects: Slot, title: JsVal)

  const FallbackTitle := "Welcome"
  const FallbackSubtitle := "Could not load content.json."

  /** The hero fragment rendered when loading fails. */
  const FallbackHero := Obj(map["title" := Str(FallbackTitle), "subtitle" := Str(FallbackSubtitle)])

  /**
   * Whether the try block throws before the document title is reached:
   * reading `data.hero` when `data` is null or undefined, or one of the three
   * renderers (called in the order hero, projects, experience) throwing.
   */
  predicate RenderingThrows(s: PageState, data: JsVal) {
    || IsNullish(data)
    || RenderHero(s.hero, Prop(data, "hero")).None?
    || RenderProjects(s.projects, Prop(data, "projects")).None?
    || RenderExperience(s.experience, Prop(data, "experience")).None?
  }

  /** `data.site && data.site.title`: the new document title, when there is one. */
  function SiteTitle(data: JsVal): (r: Option<JsVal>)
    requires !IsNullish(data)
    ensures r.Some? <==> IsTruthy(Prop(data, "site")) && IsTruthy(Prop(Prop(data, "site"), "title"))
    ensures r.Some? ==> r.value == Prop(Prop(data, "site"), "title") && IsTruthy(r.value)
  {
    var site := Prop(data, "site");
    if IsTruthy(site) && IsTruthy(Prop(site, "title")) then Some(Prop(site, "title")) else None
  }

  /** Whether assigning the new title throws: `document.title` turns the value into text. */
  predicate TitleThrows(data: JsVal)
    requires !IsNullish(data)
  {
    SiteTitle(data).Some? && ToStringThrows(SiteTitle(data).value)
  }

  /** Whether the try block throws anywhere, so that the catch block runs. */
  predicate Throws(s: PageState, data: JsVal) {
    RenderingThrows(s, data) || TitleThrows(data)
  }

  /** The page after the three renderers of the try block returned normally. */
  function Rendered(s: PageState, data: JsVal): PageState
    requires !RenderingThrows(s, data)
  {
    PageState(RenderHero(s.hero, Prop(data, "hero")).value,
              RenderExperience(s.experience, Prop(data, "experience")).value,
              RenderProjects(s.projects, Prop(data, "projects")).value,
              match SiteTitle(data) case Some(t) => t case None => s.title)
  }

  /** The page after the catch block, stated on the page `s` as it was before the load. */
  function Recovered(s: PageState): PageState {
    s.(hero := RenderHero(s.hero, FallbackHero).value,
       projects := RenderProjects(s.projects, Arr([])).value)
  }

  /**
   * The page after `loadContent()` finished with outcome `fetched`. No
   * container of the page state is created or removed.
   */
  function Loaded(s: PageState, fetched: FetchOutcome): (r: PageState)
    ensures r.hero.Missing? == s.hero.Missing?
    ensures r.experience.Missing? == s.experience.Missing?
    ensures r.projects.Missing? == s.projects.Missing?
  {
    match fetched
    case Err => Recovered(s)
    case Ok(data) =>
      if RenderingThrows(s, data) then Recovered(s)
      else if TitleThrows(data) then Recovered(s).(experience := Rendered(s, data).experience)
      else Rendered(s, data)
  }

  /**
   * A failed load shows "Welcome" / "Could not load content.json." in the
   * hero and the empty projects section, each where its container exists;
   * the experience section and the document title are left as they were.
   */
  lemma LoadFailed(s: PageState)
    ensures var r := Loaded(s, Err);
      && r.hero == (if s.hero.Missing? then Missing else Container(HeroHtml(Str(FallbackTitle), Str(FallbackSubtitle))))
      && r.projects == (if s.projects.Missing? then Missing else Container(SectionHtml(NoProjectsHeading, [])))
      && r.experience == s.experience
      && r.title == s.title
  {
  }

  /**
   * A document that makes a renderer throw (or is itself null) leaves the
   * page exactly as a failed fetch does, whatever the try block wrote before
   * throwing.
   */
  lemma LoadThrown(s: PageState, data: JsVal)
    requires RenderingThrows(s, data)
    ensures Loaded(s, Ok(data)) == Loaded(s, Err)
  {
  }

  /**
   * A site title that cannot be turned into text throws after the experience
   * section was written: the page shows the failure's hero and projects next
   * to the document's experience entries, and keeps its old title.
   */
  lemma LoadTitleThrown(s: PageState, data: JsVal)
    requires !RenderingThrows(s, data) && TitleThrows(data)
    ensures Loaded(s, Ok(data)) == Loaded(s, Err).(experience := RenderExperience(s.experience, Prop(data, "experience")).value)
    ensures Loaded(s, Ok(data)).title == s.title
  {
  }

  /**
   * A hero title that is an object with its own `toString` key throws while
   * the hero is written, so the whole page ends as after a failed fetch and
   * the experience section is never rendered.
   */
  lemma ObjectHeroTitleFails(s: PageState)
    requires s.hero.Container?
    ensures var data := Obj(map["hero" := Obj(map["title" := Obj(map["toString" := Num(0)])])]);
      Loaded(s, Ok(data)) == Loaded(s, Err) && Loaded(s, Ok(data)).experience == s.experience
  {
  }

  /**
   * A document that does not make the try block throw is rendered into all
   * three sections, and the title changes exactly when `data.site` and
   * `data.site.title` are both truthy.
   */
  lemma LoadSucceeded(s: PageState, data: JsVal)
    requires !Throws(s, data)
    ensures var r := Loaded(s, Ok(data));
      && Some(r.hero) == RenderHero(s.hero, Prop(data, "hero"))
      && Some(r.projects) == RenderProjects(s.projects, Prop(data, "projects"))
      && Some(r.experience) == RenderExperience(s.experience, Prop(data, "experience"))
      && (IsTruthy(Prop(data, "site")) && IsTruthy(Prop(Prop(data, "site"), "title")) ==> r.title == Prop(Prop(data, "site"), "title"))
      && (!(IsTruthy(Prop(data, "site")) && IsTruthy(Prop(Prop(data, "site"), "title"))) ==> r.title == s.title)
  {
  }

  /**
   * Only a load whose three renderers returned normally touches the
   * experience section, and only a load whose try block ran to its end
   * touches the title.
   */
  lemma ExperienceAndTitleOnlyOnSuccess(s: PageState, fetched: FetchOutcome)
    ensures Loaded(s, fetched).experience != s.experience ==> fetched.Ok? && !RenderingThrows(s, fetched.data)
    ensures Loaded(s, fetched).title != s.title ==> fetched.Ok? && !Throws(s, fetched.data)
  {
  }

  /** The containers the loader writes to, and the document title. */
  class Page {
    var hero: Slot
    var experience: Slot
    var projects: Slot
    /** `document.title`, as last assigned */
    var title: JsVal

    function State(): PageState
      reads this
    {
      PageState(hero, experience, projects, title)
    }

    constructor (s: PageState)
      ensures State() == s
    {
      hero, experience, projects, title := s.hero, s.experience, s.projects, s.title;
    }

    /** `loadContent()` from the point where the fetch and the parse have produced `fetched`. */
    method LoadContent(fetched: FetchOutcome)
      modifies this
      ensures State() == Loaded(old(State()), fetched)
    {
      var thrown := true;
      if fetched.Ok? {
        var data := fetched.data;
        var heroData := Field(data, "hero");
        if heroData.Some? {
          var rendered := RenderHero(hero, heroData.value);
          if rendered.Some? {
            hero := rendered.value;
            rendered := RenderProjects(projects, Prop(data, "projects"));
            if rendered.Some? {
              projects := rendered.value;
              rendered := RenderExperience(experience, Prop(data, "experience"));
              if rendered.Some? {
                experience := rendered.value;
                var site := Prop(data, "site");
                if IsTruthy(site) && IsTruthy(Prop(site, "title")) {
                  // the assignment turns the value into text, which may throw
                  thrown := ToStringThrows(Prop(site, "title"));
                  if !thrown {
                    title := Prop(site, "title");
                  }
                } else {
                  thrown := false;
                }
              }
            }
          }
        }
      }
      if thrown {
        hero := RenderHero(hero, FallbackHero).value;
        projects := RenderProjects(projects, Arr([])).value;
      }
    }
  }
}
