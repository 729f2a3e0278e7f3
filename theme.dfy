/** `frontend/src/context/ThemeContext.jsx`: choosing the initial theme, toggling it, and the
    effect that persists it and writes it onto the page. Storage and the colour-scheme media
    query are inputs; either may throw. */
module Theme {
  import opened Wrappers

  /** Reading `toptube_theme` from storage: it throws, or yields the item (missing as `None`). */
  datatype StorageRead = Throws | Item(value: Option<string>)

  /** `window.matchMedia('(prefers-color-scheme: light)')`: unavailable, throwing, or a match. */
  datatype MediaQuery = NoMatchMedia | MediaThrows | Matches(light: bool)

  const Dark: string := "dark"
  const Light: string := "light"

  /** A stored non-empty string wins, unvalidated. Otherwise the theme is light exactly when
      the system prefers light; a throwing read and every other case give dark. */
  function InitialTheme(stored: StorageRead, media: MediaQuery): (r: string)
    ensures stored.Item? && stored.value.Some? && stored.value.value != "" ==> r == stored.value.value
    ensures !(stored.Item? && stored.value.Some? && stored.value.value != "") ==>
      (r == Light <==> stored.Item? && media == Matches(true))
    ensures !(stored.Item? && stored.value.Some? && stored.value.value != "") ==> r in {Light, Dark}
  {
    match stored
    case Throws => Dark
    case Item(v) =>
      if v.Some? && v.value != "" then v.value
      else if media.Matches? && media.light then Light
      else Dark
  }

  /** `prev === 'dark' ? 'light' : 'dark'`. */
  function Toggle(theme: string): (r: string)
    ensures r in {Light, Dark}
    ensures r == Light <==> theme == Dark
  {
    if theme == Dark then Light else Dark
  }

  /** Toggling twice restores "dark" and "light", but maps any other stored string to "light". */
  lemma ToggleTwice(theme: string)
    ensures theme in {Light, Dark} ==> Toggle(Toggle(theme)) == theme
    ensures theme !in {Light, Dark} ==> Toggle(Toggle(theme)) == Light != theme
  {
  }

  /** The `theme-color` meta content for a theme. */
  function ThemeColor(theme: string): (r: string)
    ensures r == "#0a0a0a" <==> theme == Dark
    ensures r in {"#0a0a0a", "#ffffff"}
  {
    if theme == Dark then "#0a0a0a" else "#ffffff"
  }

  /** The provider's state and the places its effect writes to. */
  class ThemeProvider {
    var theme: string
    var storedTheme: Option<string>
    var dataTheme: Option<string>
    /** The `theme-color` meta element's content, when the page has that element. */
    var metaColor: Option<string>

    /** The persistence effect: storage, `data-theme`, and `theme-color` when present. */
    predicate Persisted()
      reads this
    {
      storedTheme == Some(theme) && dataTheme == Some(theme)
      && (metaColor.Some? ==> metaColor.value == ThemeColor(theme))
    }

    /** `useState(getInitialTheme)` followed by the first run of the effect. */
    constructor (stored: StorageRead, media: MediaQuery, hasThemeMeta: bool)
      ensures theme == InitialTheme(stored, media)
      ensures Persisted() && metaColor.Some? == hasThemeMeta
    {
      theme := InitialTheme(stored, media);
      storedTheme := Some(InitialTheme(stored, media));
      dataTheme := Some(InitialTheme(stored, media));
      metaColor := if hasThemeMeta then Some(ThemeColor(InitialTheme(stored, media))) else None;
    }

    /** The effect that runs after every theme change. */
    method Persist()
      modifies this
      ensures theme == old(theme) && Persisted()
      ensures metaColor.Some? == old(metaColor).Some?
    {
      storedTheme := Some(theme);
      dataTheme := Some(theme);
      if metaColor.Some? {
        metaColor := Some(ThemeColor(theme));
      }
    }

    /** `toggleTheme`, then the effect. */
    method ToggleTheme()
      modifies this
      ensures theme == Toggle(old(theme))
      ensures Persisted() && metaColor.Some? == old(metaColor).Some?
    {
      theme := Toggle(theme);
      Persist();
    }
  }
}
