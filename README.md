# Personal site script: theme, renderers and content loading

A Dafny model of `assets/app.js`, the one script of a small static personal
web site. The script does three things, and the model has one module for each:

- **ThemeManager** (`theme.dfy`). The page's theme lives in the root element's
  `data-theme` attribute and in a `theme` entry of the browser's local storage.
  Start-up applies the saved value, or else the operating system's dark-mode
  preference. The toggle button switches to "light" after "dark" and to "dark"
  after anything else. The model is a class `Theme` with those two fields and the
  methods `Apply`, `Init` and `Toggle`. Their results are described by the pure
  functions `InitialTheme` and `Toggled`. Every method leaves attribute and
  storage in agreement (`Synced`).
- **Renderers** (`renderers.dfy`). `renderHero`, `renderExperience` and
  `renderProjects` turn a fragment of the content document into the markup of
  one container. Markup is kept abstract: a hero heading and line, or a section
  heading and a list of cards holding the interpolated values. A container
  missing from the page is the slot `Missing`. The renderers return `None`
  where the script throws a TypeError: at a null or undefined list entry, and
  at an interpolated value that cannot be turned into text.
- **ContentLoader** (`content_loader.dfy`). Once the fetch has produced a
  parsed document or failed, `loadContent` renders the three sections, or the
  fallback hero and empty projects section. It may also replace the document
  title. `Loaded` states the resulting page state, and the class method
  `Page.LoadContent` runs the try/catch step by step and is proved to reach it.

The JavaScript value model (`js_values.dfy`) gives the loosely typed data:
`undefined`, `null`, booleans, integers, strings, arrays and objects. It also
defines truthiness, `??`, `||` and property access, which throws on null and
undefined. `ToStringThrows` says when turning a value into text throws, as a
template literal or the `document.title` assignment does. A parsed object throws
exactly when it has its own `toString` key, and an array throws when one of its
entries does.

Behaviours of the code worth noting:
- A saved theme is applied whatever string it is, not only "light" or "dark".
  An empty saved string counts as no saved theme.
- Toggling twice restores the theme only when it was "light" or "dark"
  (`ToggleTwice`).
- A project link appears when `url` is truthy, not merely present. An empty
  `url` gives no link.
- The try block can throw before the title is reached. For a null document it
  throws at the property read `data.hero`. Inside a renderer it throws for a
  null or undefined list entry, or for a value that cannot be turned into text.
  The page then ends exactly as after a failed fetch (`LoadThrown`).
- The title assignment comes last and can throw too. The page then shows the
  failure's hero and projects beside the document's experience entries, and
  keeps its old title (`LoadTitleThrown`).

## Model

| member | source | states |
|---|---|---|
| JsValues.Field | assets/app.js:43-45 | property access throws (None) exactly on null or undefined; otherwise it gives the object's own property, or undefined |
| JsValues.OrVersusCoalesce | assets/app.js:27-45 | the hero's `??` and the experience cards' `||` disagree exactly on a present falsy value (false, 0 or ""), unless it equals the fallback |
| ThemeManager.SavedTheme | assets/app.js:15 | the stored preference is present exactly when the `theme` key is stored, and then it is that value |
| ThemeManager.InitialTheme | assets/app.js:14-20 | a non-empty saved value is used verbatim; with none or an empty one, the theme is "dark" exactly when the OS prefers dark, else "light" |
| ThemeManager.SavedOverridesSystem | assets/app.js:15-16 | a non-empty saved preference decides the theme whatever the OS preference |
| ThemeManager.Toggled | assets/app.js:105-106 | the toggle yields "light" or "dark", and "light" exactly when the attribute was "dark" |
| ThemeManager.ToggleTwice | assets/app.js:104-107 | two toggles restore the attribute exactly when it started as "light" or "dark"; from anything other than "dark" they end at "light" |
| ThemeManager.Theme.Apply | assets/app.js:8-11 | the attribute becomes the given string and storage maps `theme` to it, nothing else in storage changes; attribute and storage agree |
| ThemeManager.Theme.Init | assets/app.js:14-20 | the attribute becomes InitialTheme of the stored value and the OS preference, stored under `theme`; attribute and storage agree |
| ThemeManager.Theme.Toggle | assets/app.js:104-107 | the attribute becomes Toggled of the old attribute, stored under `theme`; attribute and storage agree |
| Renderers.ListItems | assets/app.js:37 | an array yields its entries, anything else the empty list |
| Renderers.RenderHero | assets/app.js:23-30 | no change without a container or with a falsy hero; otherwise a TypeError exactly when title or subtitle cannot be turned into text, and else title and subtitle fall back to the defaults only for null/undefined and keep any other value, the empty string included |
| Renderers.RenderHeroReplaces | assets/app.js:26-29 | after a call that returned normally, a truthy hero replaces whatever that call wrote |
| Renderers.RoleCardFallbacks | assets/app.js:43-45 | role, institution and description fall back to "Untitled Role", "Unknown Institution" and "" on any falsy value; truthy values are kept verbatim |
| Renderers.RoleItemThrowsExactly | assets/app.js:43-45 | an experience entry throws exactly when it is null/undefined or its title, Institution or description cannot be turned into text |
| Renderers.RoleCards | assets/app.js:41-47 | one card per entry, in order, or a TypeError exactly when some entry throws (null, undefined, or a field that cannot be turned into text) |
| Renderers.RenderExperience | assets/app.js:33-50 | no change without a container; otherwise a TypeError exactly when some entry throws, else heading "Experience" exactly when the list is non-empty ("No Experience Yet" otherwise) and one card per entry in order |
| Renderers.NonArrayExperience | assets/app.js:37-39 | any non-array value renders the empty "No Experience Yet" section |
| Renderers.ProjectCardFields | assets/app.js:63-65 | name and description fall back to "Untitled Project" and "" only for null/undefined; the link is present exactly when `url` is truthy and points at it |
| Renderers.ProjectItemThrowsExactly | assets/app.js:63-65 | a project entry throws exactly when it is null/undefined or its name, description or url cannot be turned into text |
| Renderers.ProjectCards | assets/app.js:61-67 | one card per project, in order, or a TypeError exactly when some entry throws (null, undefined, or a field that cannot be turned into text) |
| Renderers.RenderProjects | assets/app.js:53-70 | no change without a container; otherwise a TypeError exactly when some entry throws, else heading "Projects" exactly when the list is non-empty ("No Projects Yet" otherwise) and one card per project in order |
| Renderers.EmptyProjects | assets/app.js:57-59 | an empty array or a non-array renders the empty "No Projects Yet" section |
| Renderers.RenderProjectsReplaces | assets/app.js:58-69 | rendering projects replaces whatever an earlier call wrote |
| ContentLoader.SiteTitle | assets/app.js:83 | a new title exists exactly when `site` and `site.title` are truthy, and it is `site.title` |
| ContentLoader.Loaded | assets/app.js:73-90 | no container of the model's page state is created or removed |
| ContentLoader.LoadFailed | assets/app.js:84-89 | a failed fetch shows "Welcome" / "Could not load content.json." and the empty projects section where those containers exist, and leaves experience and title unchanged |
| ContentLoader.LoadThrown | assets/app.js:74-89 | a document that is null or makes a renderer throw leaves the page exactly as a failed fetch does |
| ContentLoader.LoadTitleThrown | assets/app.js:83-88 | a site title that cannot be turned into text throws after experience was written: fallback hero and projects, the document's experience, the old title |
| ContentLoader.ObjectHeroTitleFails | assets/app.js:27 | a hero title object with its own `toString` key makes the load end as a failed fetch, with experience untouched |
| ContentLoader.LoadSucceeded | assets/app.js:79-83 | when nothing throws, hero, projects and experience are rendered from the document, and the title changes exactly when `site` and `site.title` are truthy |
| ContentLoader.ExperienceAndTitleOnlyOnSuccess | assets/app.js:79-89 | the experience section changes only when all three renderers returned normally, and the title only when the try block ran to its end |
| ContentLoader.Page.LoadContent | assets/app.js:73-90 | running the try block and then the catch block step by step gives exactly the page state Loaded states |

## Left out

- The request itself is not modelled: `fetch`, `res.ok`, `res.json()` and `await` (network I/O). `LoadContent` takes the outcome as a parameter.
- `console.error` (a diagnostic side effect only).
- Event binding (`DOMContentLoaded`, `addEventListener`). The click handler is `Theme.Toggle`, and `Theme.Init` and `Page.LoadContent` are called directly.
- The footer year: it reads the wall clock.
- Two loads racing each other: concurrency, and the script loads once per page.
- `window.matchMedia(...)`: the OS preference is the boolean parameter `prefersDark` of `Theme.Init`.
- The text of the markup: template whitespace, tags and attributes such as `target="_blank" rel="noreferrer"`. The model keeps the interpolated values themselves. It states when turning them into text throws (`ToStringThrows`), but not the text a number, array or object gives. `document.title` likewise holds the value assigned to it.
- Non-integer numbers in the document: `JsVal` numbers are integers. Fractions only affect truthiness (0.5 is truthy like any non-zero number) and printing, which is not modelled.
- ContentLoader.Loaded: the renderers write document strings into `innerHTML` without escaping, and each renderer looks its container up by id only when it runs. A string such as `<div id="experience"></div>` can therefore create an element that a later renderer finds and writes into. The model assumes no interpolated string creates an element with id hero, experience or projects, so each slot stays the container the page started with.
- JsValues.Field: does not model built-in and inherited properties (`length`, `constructor`, ...). A missing own property always reads as undefined. None of the keys the script reads names such a property.
- Storage write failures (quota, disabled storage): the script does not handle them either.
