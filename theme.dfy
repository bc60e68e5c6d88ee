/**
 * The theme manager: the root element's `data-theme` attribute and the
 * browser's local storage, read at start-up and written on every toggle.
 */
module ThemeManager {
  import opened Wrappers

  /** The storage key the preference is kept under. */
  const ThemeKey := "theme"
  const Dark := "dark"
  const Light := "light"

  /** `localStorage.getItem(ThemeKey)`: null when nothing was stored. */
  function SavedTheme(storage: map<string, string>): (r: Option<string>)
    ensures r.Some? <==> ThemeKey in storage
    ensures r.Some? ==> r.value == storage[ThemeKey]
  {
    if ThemeKey in storage then Some(storage[ThemeKey]) else None
  }

  /**
   * The theme chosen at start-up: a saved value that is a non-empty string
   * is used as it is, without validation; otherwise the operating system's
   * dark-mode preference decides between "dark" and "light".
   */
  function InitialTheme(saved: Option<string>, prefersDark: bool): (t: string)
    ensures saved.Some? && saved.value != "" ==> t == saved.value
    ensures saved.None? || saved.value == "" ==> (t == Dark || t == Light) && (t == Dark <==> prefersDark)
  {
    if saved.Some? && saved.value != "" then saved.value
    else if prefersDark then Dark else Light
  }

  /** A saved preference wins over the operating system's preference. */
  lemma SavedOverridesSystem(saved: string, prefersDark: bool)
    requires saved != ""
    ensures InitialTheme(Some(saved), prefersDark) == InitialTheme(Some(saved), !prefersDark) == saved
  {
  }

  /** The theme the toggle applies: "light" after "dark", "dark" after anything else, including no attribute. */
  function Toggled(current: Option<string>): (t: string)
    ensures t == Dark || t == Light
    ensures t == Light <==> current == Some(Dark)
  {
    if current == Some(Dark) then Light else Dark
  }

  /**
   * Two toggles bring the attribute back exactly when it started as "light"
   * or "dark"; any other start (absent, empty, unrecognised) ends at "light".
   */
  lemma ToggleTwice(current: Option<string>)
    ensures Some(Toggled(Some(Toggled(current)))) == current <==> current == Some(Light) || current == Some(Dark)
    ensures current != Some(Dark) ==> Toggled(Some(Toggled(current))) == Light
  {
  }

  /** The document's theme attribute and the persisted preference. */
  class Theme {
    /** `document.documentElement.getAttribute("data-theme")` */
    var dataTheme: Option<string>
    /** `localStorage`, as a string-keyed map */
    var storage: map<string, string>

    /** The applied theme and the persisted one agree. */
    ghost predicate Synced()
      reads this
    {
      dataTheme.Some? && SavedTheme(storage) == dataTheme
    }

    /** A page as loaded: whatever attribute the markup carries and whatever was stored on earlier visits. */
    constructor (attribute: Option<string>, stored: map<string, string>)
      ensures dataTheme == attribute && storage == stored
    {
      dataTheme := attribute;
      storage := stored;
    }

    /** `applyTheme(theme)`: sets the attribute and stores the value, whatever string it is. */
    method Apply(theme: string)
      modifies this
      ensures dataTheme == Some(theme)
      ensures storage == old(storage)[ThemeKey := theme]
      ensures Synced()
    {
      dataTheme := Some(theme);
      storage := storage[ThemeKey := theme];
    }

    /** `initTheme()`, with `matchMedia("(prefers-color-scheme: dark)").matches` as the input `prefersDark`. */
    method Init(prefersDark: bool)
      modifies this
      ensures dataTheme == Some(InitialTheme(SavedTheme(old(storage)), prefersDark))
      ensures storage == old(storage)[ThemeKey := dataTheme.value]
      ensures Synced()
    {
      var saved := SavedTheme(storage);
      if saved.Some? && saved.value != "" {
        Apply(saved.value);
        return;
      }
      Apply(if prefersDark then Dark else Light);
    }

    /** The toggle button's click handler. */
    method Toggle()
      modifies this
      ensures dataTheme == Some(Toggled(old(dataTheme)))
      ensures storage == old(storage)[ThemeKey := dataTheme.value]
      ensures Synced()
    {
      Apply(Toggled(dataTheme));
    }
  }
}
