/** The colour theme: `'dark'` or `'light'`, restored from storage and flipped by a toggle. */
module Theme {
  import opened Catalog

  const Dark := "dark"
  const Light := "light"

  /** The updater of `toggleTheme`: `'dark'` becomes `'light'`, anything else `'dark'`. */
  function Toggled(theme: string): (r: string)
    ensures r == Dark <==> theme != Dark
    ensures theme == Dark ==> r == Light
  {
    if theme == Dark then Light else Dark
  }

  /** `isDark`. */
  predicate IsDark(theme: string)
  {
    theme == Dark
  }

  /** From either real theme, toggling twice returns to it. */
  lemma ToggleTwice(theme: string)
    requires theme == Dark || theme == Light
    ensures Toggled(Toggled(theme)) == theme
  {
  }

  /** Any other stored value is not restored: two toggles from it end on `'light'`. */
  lemma ToggleTwiceOther(theme: string)
    requires theme != Dark && theme != Light
    ensures Toggled(theme) == Dark && Toggled(Toggled(theme)) == Light
  {
  }

  /**
   * `getInitialTheme`: a non-empty stored theme wins; otherwise the system
   * preference (`prefersDark`) picks `'dark'` or `'light'`.
   */
  function InitialTheme(stored: Option<string>, prefersDark: bool): (r: string)
    ensures stored.Some? && stored.value != [] ==> r == stored.value
    ensures stored.None? || stored.value == [] ==> (IsDark(r) <==> prefersDark) && (r == Dark || r == Light)
  {
    if stored.Some? && stored.value != [] then stored.value
    else if prefersDark then Dark else Light
  }

  /** The theme provider's state. Writing the theme to storage and to the page's classes is not modelled. */
  class ThemeStore {
    var theme: string

    constructor (stored: Option<string>, prefersDark: bool)
      ensures theme == InitialTheme(stored, prefersDark)
    {
      theme := InitialTheme(stored, prefersDark);
    }

    function IsDarkTheme(): (b: bool)
      reads this
      ensures b <==> theme == Dark
    {
      IsDark(theme)
    }

    /** `toggleTheme`: flips between dark and light; any other value becomes dark. */
    method ToggleTheme()
      modifies this
      ensures theme == Toggled(old(theme))
      ensures IsDarkTheme() <==> !old(IsDarkTheme())
    {
      theme := Toggled(theme);
    }
  }
}
