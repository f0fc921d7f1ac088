/** The light/dark theme of src/contexts/ThemeContext.tsx: the initial theme
    read from localStorage, the toggle, and the effect that persists the theme
    and sets the document's 'dark' class. */
module ThemeContext {
  import opened Js

  const ThemeKey := "theme"
  const Light := "light"
  const Dark := "dark"
  const OutsideProviderMessage := "useTheme must be used within a ThemeProvider"

  /** The lazy initial state: a stored value is cast to the theme type as it
      is, so any non-empty string is taken; otherwise, and whenever storage is
      unavailable, 'dark'. */
  function InitialTheme(available: bool, stored: Option<string>): (t: string)
    ensures t != ""
    ensures available && Truthy(stored) ==> t == stored.value
    ensures !available || !Truthy(stored) ==> t == Dark
  {
    if available then (if Truthy(stored) then stored.value else Dark) else Dark
  }

  /** The updater passed to `setTheme` by `toggleTheme`. */
  function Toggle(t: string): (r: string)
    ensures r == Light || r == Dark
    ensures r == Dark <==> t == Light
  {
    if t == Light then Dark else Light
  }

  /** Toggling twice restores 'light' and 'dark'; any other stored string
      becomes 'light' and then 'dark'. */
  lemma ToggleTwice(t: string)
    ensures t == Light || t == Dark ==> Toggle(Toggle(t)) == t
    ensures t != Light && t != Dark ==> Toggle(t) == Light && Toggle(Toggle(t)) == Dark
  {
    assert Light != Dark by { assert Light[0] != Dark[0]; }
  }

  /** The context value handed to consumers; the toggle function is left out. */
  datatype ThemeValue = ThemeValue(theme: string, isDark: bool)

  /** `useTheme`: the provider's value, or the error thrown outside a provider. */
  function UseTheme(context: Option<ThemeValue>): (r: Result<ThemeValue, string>)
    ensures r.Ok? <==> context.Some?
    ensures r.Ok? ==> r.value == context.value
    ensures r.Err? ==> r.error == OutsideProviderMessage
  {
    match context
    case Some(v) => Ok(v)
    case None => Err(OutsideProviderMessage)
  }

  class ThemeProvider {
    /** Whether `window.localStorage` exists. */
    const available: bool
    var theme: string
    /** Whether the document element's class list holds 'dark'. */
    var darkClass: bool

    /** The first render, before the effect has run. */
    constructor (available: bool, local: Storage)
      ensures this.available == available
      ensures theme == InitialTheme(available, local.GetItem(ThemeKey))
      ensures !darkClass
    {
      this.available := available;
      theme := if available then InitialTheme(available, local.GetItem(ThemeKey)) else Dark;
      darkClass := false;
    }

    function IsDark(): (b: bool)
      reads this
      ensures b <==> theme == Dark
    {
      theme == Dark
    }

    function Value(): (v: ThemeValue)
      reads this
      ensures v.theme == theme && (v.isDark <==> theme == Dark)
    {
      ThemeValue(theme, IsDark())
    }

    /** What the effect establishes: storage, when there is one, holds the
        theme, and the 'dark' class is present exactly for the dark theme. */
    predicate Synced(local: Storage)
      reads this, local
    {
      (available ==> local.GetItem(ThemeKey) == Some(theme)) && (darkClass <==> theme == Dark)
    }

    /** The effect on `[theme, isLocalStorageAvailable]`. */
    method Effect(local: Storage)
      modifies this, local
      ensures theme == old(theme)
      ensures available ==> local.items == old(local.items)[ThemeKey := theme]
      ensures !available ==> local.items == old(local.items)
      ensures Synced(local)
    {
      if available {
        local.SetItem(ThemeKey, theme);
      }
      darkClass := theme == Dark;
    }

    /** `toggleTheme`, followed by the effect the change triggers. */
    method ToggleTheme(local: Storage)
      modifies this, local
      ensures theme == Toggle(old(theme))
      ensures available ==> local.items == old(local.items)[ThemeKey := theme]
      ensures !available ==> local.items == old(local.items)
      ensures Synced(local)
    {
      theme := Toggle(theme);
      Effect(local);
    }
  }

  /** Mounting: the first render and then the effect. */
  method Mount(available: bool, local: Storage) returns (p: ThemeProvider)
    modifies local
    ensures fresh(p) && p.available == available
    ensures p.theme == InitialTheme(available, old(local.GetItem(ThemeKey)))
    ensures p.Synced(local)
  {
    p := new ThemeProvider(available, local);
    p.Effect(local);
  }

  /** The chosen theme survives a reload: a provider mounted on the storage a
      toggled provider wrote starts with the theme it left. */
  method ThemeSurvivesReload(local: Storage) returns (before: ThemeProvider, after: ThemeProvider)
    modifies local
    ensures after.theme == before.theme && after.Synced(local)
    ensures before.theme == Dark <==> old(local.GetItem(ThemeKey)) == Some(Light)
  {
    before := Mount(true, local);
    before.ToggleTheme(local);
    after := Mount(true, local);
  }
}
