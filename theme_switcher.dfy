/**
 * `useThemeSwitcher`: the theme atom (persisted, default `system`), `toggleTheme`, the
 * handler for changes of the dark colour-scheme query, and the effect that sets the root
 * element's classes from the theme.
 */
module ThemeSwitchers {
  import opened Wrappers
  import opened ThemeRules
  import opened ThemeDom

  class ThemeSwitcher {
    /** The atom's value. */
    var theme: string
    /** The storage the atom persists to. */
    const storage: Storage

    /** The atom starts from the stored theme, or `system` when none is stored. */
    constructor (stored: Option<string>, storage: Storage)
      ensures theme == stored.GetOr(SYSTEM)
      ensures this.storage == storage
    {
      theme := stored.GetOr(SYSTEM);
      this.storage := storage;
    }

    /** `setTheme(t)`: the atom takes the theme and persists it as JSON. */
    method SetTheme(t: string)
      modifies this, storage
      ensures theme == t
      ensures storage.items == old(storage.items)[ThemeStorageKey := Stringify(t)]
    {
      theme := t;
      storage.SetItem(ThemeStorageKey, Stringify(t));
    }

    /** `toggleTheme()`: switches to the theme `Toggle` chooses, which flips the `dark` class shown. */
    method ToggleTheme(prefersDark: bool)
      modifies this, storage
      ensures theme == Toggle(old(theme), prefersDark)
      ensures theme != SYSTEM
      ensures IsTheme(old(theme)) ==> DarkClass(theme, prefersDark) == !DarkClass(old(theme), prefersDark)
      ensures storage.items == old(storage.items)[ThemeStorageKey := Stringify(theme)]
    {
      if IsTheme(theme) {
        ToggleFlipsDarkClass(theme, prefersDark);
      }
      SetTheme(Toggle(theme, prefersDark));
    }

    /** The `change` listener of the dark colour-scheme query: the theme becomes what the event reports. */
    method HandleSystemThemeChange(matches: bool)
      modifies this, storage
      ensures theme == SystemTheme(matches)
      ensures DarkClass(theme, true) == matches && DarkClass(theme, false) == matches
      ensures storage.items == old(storage.items)[ThemeStorageKey := Stringify(theme)]
    {
      SetTheme(SystemTheme(matches));
    }

    /** The effect run on every theme change: `dark` and `light` are toggled by the class rules. */
    method ApplyClasses(root: ClassList, prefersDark: bool, prefersLight: bool)
      modifies root
      ensures root.classes ==
        Toggled(Toggled(old(root.classes), "dark", DarkClass(theme, prefersDark)), "light", LightClass(theme, prefersLight))
      ensures ("dark" in root.classes) == DarkClass(theme, prefersDark)
      ensures ("light" in root.classes) == LightClass(theme, prefersLight)
    {
      root.Toggle("dark", DarkClass(theme, prefersDark));
      root.Toggle("light", LightClass(theme, prefersLight));
    }
  }
}
