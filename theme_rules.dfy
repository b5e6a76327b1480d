/**
 * The theme rules shared by the theme hooks and the boot script. A theme is the string the
 * atom or the storage holds; the three known ones are `light`, `dark` and `system`. The
 * browser's colour-scheme preferences come in as two booleans.
 */
module ThemeRules {
  const LIGHT: string := "light"
  const DARK: string := "dark"
  const SYSTEM: string := "system"

  /** One of the three `ApplicationTheme` values. */
  predicate IsTheme(t: string) {
    t == LIGHT || t == DARK || t == SYSTEM
  }

  /**
   * `toggleTheme`'s choice: from `system`, the opposite of what the system shows; from `light`,
   * `dark`; from anything else, `light`.
   */
  function Toggle(t: string, prefersDark: bool): (n: string)
    ensures IsTheme(n) && n != SYSTEM
    ensures t == LIGHT ==> n == DARK
    ensures t == DARK ==> n == LIGHT
    ensures t == SYSTEM ==> (n == DARK <==> !prefersDark)
  {
    if t == SYSTEM then (if prefersDark then LIGHT else DARK)
    else if t == LIGHT then DARK
    else LIGHT
  }

  /** The theme a `change` event of the dark colour-scheme query sets. */
  function SystemTheme(matches: bool): (n: string)
    ensures IsTheme(n) && n != SYSTEM
    ensures n == DARK <==> matches
  {
    if matches then DARK else LIGHT
  }

  /** Whether the root element carries the `dark` class. */
  predicate DarkClass(t: string, prefersDark: bool)
    ensures DarkClass(t, prefersDark) ==> IsTheme(t) && t != LIGHT
    ensures t == SYSTEM ==> (DarkClass(t, prefersDark) <==> prefersDark)
  {
    t == DARK || (t == SYSTEM && prefersDark)
  }

  /** Whether the root element carries the `light` class. */
  predicate LightClass(t: string, prefersLight: bool)
    ensures LightClass(t, prefersLight) ==> IsTheme(t) && t != DARK
    ensures t == SYSTEM ==> (LightClass(t, prefersLight) <==> prefersLight)
  {
    t == LIGHT || (t == SYSTEM && prefersLight)
  }

  /** The boot script's default: dark if preferred, else light if preferred, else `system`. */
  function PreferredTheme(prefersDark: bool, prefersLight: bool): (n: string)
    ensures IsTheme(n)
    ensures n == DARK <==> prefersDark
    ensures n == LIGHT <==> !prefersDark && prefersLight
  {
    if prefersDark then DARK else if prefersLight then LIGHT else SYSTEM
  }

  /** Toggling a known theme always flips the `dark` class the page shows. */
  lemma ToggleFlipsDarkClass(t: string, prefersDark: bool)
    requires IsTheme(t)
    ensures DarkClass(Toggle(t, prefersDark), prefersDark) == !DarkClass(t, prefersDark)
  {
  }

  /** Toggling twice returns to an explicit theme, and leaves `system` for good. */
  lemma ToggleTwice(t: string, prefersDark: bool)
    ensures t == LIGHT || t == DARK ==> Toggle(Toggle(t, prefersDark), prefersDark) == t
    ensures Toggle(Toggle(t, prefersDark), prefersDark) != SYSTEM
  {
  }

  /** An unknown theme shows no class and toggles to `light`. */
  lemma UnknownThemeShowsNoClass(t: string, prefersDark: bool, prefersLight: bool)
    requires !IsTheme(t)
    ensures !DarkClass(t, prefersDark) && !LightClass(t, prefersLight)
    ensures Toggle(t, prefersDark) == LIGHT
  {
  }

  /** After a system change the `dark` class follows the event, and exactly one class is on. */
  lemma SystemChangeShowsEvent(matches: bool, prefersDark: bool, prefersLight: bool)
    ensures DarkClass(SystemTheme(matches), prefersDark) == matches
    ensures LightClass(SystemTheme(matches), prefersLight) == !matches
  {
  }

  /** Both classes are on only for `system` with both preferences reported. */
  lemma BothClassesOnlyForSystem(t: string, prefersDark: bool, prefersLight: bool)
    ensures DarkClass(t, prefersDark) && LightClass(t, prefersLight) <==>
      t == SYSTEM && prefersDark && prefersLight
  {
  }

  /**
   * The preferred theme shows the dark class iff dark is preferred, the light class iff only
   * light is, and never both.
   */
  lemma PreferredThemeShowsPreference(prefersDark: bool, prefersLight: bool)
    ensures DarkClass(PreferredTheme(prefersDark, prefersLight), prefersDark) == prefersDark
    ensures LightClass(PreferredTheme(prefersDark, prefersLight), prefersLight) == (!prefersDark && prefersLight)
  {
  }
}
