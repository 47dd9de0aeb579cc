/**
 * The theme context: a light/dark flag that starts light, is read back from
 * the key-value store under "app_theme" on start-up, and is flipped and
 * written back as "dark" or "light" by the toggle. The palette on screen is
 * chosen from the flag.
 */
module Theme {
  import opened Wrappers
  import opened AsyncStorage

  const ThemeKey := "app_theme"

  datatype Palette = Palette(
    primary: string,
    background: string,
    surface: string,
    text: string,
    textSecondary: string,
    textLight: string,
    border: string,
    danger: string,
    error: string,
    warning: string,
    success: string)

  const LightTheme := Palette("#0a7ea4", "#fff", "#f8f9fa", "#11181C", "#687076", "#9BA1A6",
                              "#e1e5e9", "#dc3545", "#dc3545", "#ffc107", "#28a745")

  const DarkTheme := Palette("#0a7ea4", "#121212", "#1e1e1e", "#ffffff", "#b0b0b0", "#808080",
                             "#2d2d2d", "#ff6b6b", "#ff6b6b", "#ffd93d", "#6bcf7f")

  /** The mode a start-up load leaves: unchanged when nothing is saved, otherwise dark exactly for "dark". */
  function ModeFromSaved(saved: Option<string>, current: bool): (dark: bool)
    ensures saved.None? ==> dark == current
    ensures saved.Some? ==> (dark <==> saved.value == "dark")
    ensures saved == Some("light") ==> !dark
  {
    match saved
    case None => current
    case Some(name) => name == "dark"
  }

  /** The string the toggle saves for a mode; loading it back gives that mode. */
  function ThemeName(dark: bool): (name: string)
    ensures name == "dark" || name == "light"
    ensures forall current :: ModeFromSaved(Some(name), current) == dark
  {
    if dark then "dark" else "light"
  }

  /** The palette on screen: the dark one exactly in dark mode. */
  function ColorsFor(dark: bool): (p: Palette)
    ensures p == DarkTheme <==> dark
    ensures p == LightTheme <==> !dark
  {
    if dark then DarkTheme else LightTheme
  }

  /** The theme provider's state and the store it saves to. */
  class ThemeProvider {
    var isDarkMode: bool
    const store: KeyValueStore

    /** The mode before anything is loaded is light. */
    constructor (store: KeyValueStore)
      ensures !isDarkMode && this.store == store
    {
      isDarkMode := false;
      this.store := store;
    }

    /** `loadTheme`: adopts the saved mode when one is saved; the store is only read. */
    method LoadTheme()
      modifies this
      ensures isDarkMode == ModeFromSaved(Lookup(store.entries, ThemeKey), old(isDarkMode))
    {
      var saved := store.GetItem(ThemeKey);
      if saved.Some? {
        isDarkMode := saved.value == "dark";
      }
    }

    /** `toggleTheme`: flips the mode and saves its name under "app_theme"; other keys are untouched. */
    method ToggleTheme()
      modifies this, store
      ensures isDarkMode == !old(isDarkMode)
      ensures store.entries == Put(old(store.entries), ThemeKey, Some(ThemeName(isDarkMode)))
    {
      var newTheme := !isDarkMode;
      isDarkMode := newTheme;
      store.SetItem(ThemeKey, Some(if newTheme then "dark" else "light"));
    }

    /** A toggle followed by a reload (as on the next start-up) keeps the toggled mode. */
    method ToggleThenReload()
      modifies this, store
      ensures isDarkMode == !old(isDarkMode)
      ensures Lookup(store.entries, ThemeKey) == Some(ThemeName(isDarkMode))
    {
      ToggleTheme();
      LoadTheme();
    }
  }
}
