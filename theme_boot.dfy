/**
 * The boot script that runs before the application: it settles the theme from storage or the
 * colour-scheme preferences, stores a resolved default, and sets the root element's classes.
 */
module ThemeBoot {
  import opened Wrappers
  import opened ThemeRules
  import opened ThemeDom

  /** `getItem(key) ? JSON.parse(getItem(key)) : undefined`: a missing or empty item is undefined. */
  function StoredTheme(item: Option<string>): (r: Option<Json>)
    ensures r.None? <==> item.None? || item.value == ""
  {
    if item.Some? && item.value != "" then Some(Parse(item.value)) else None
  }

  /** The stored theme is resolved afresh when it is undefined or `null`. */
  predicate NeedsDefault(item: Option<string>) {
    StoredTheme(item).None? || StoredTheme(item) == Some(JNull)
  }

  /** The theme the script settles on: the stored one as it is, or the preferred theme. */
  function InitialTheme(item: Option<string>, prefersDark: bool, prefersLight: bool): (t: Json)
    ensures NeedsDefault(item) ==> t == JString(PreferredTheme(prefersDark, prefersLight))
    ensures !NeedsDefault(item) ==> Some(t) == StoredTheme(item)
    ensures t != JNull
  {
    if NeedsDefault(item) then JString(PreferredTheme(prefersDark, prefersLight)) else StoredTheme(item).value
  }

  /** `theme === 'dark' || (theme === 'system' && prefersDark)`, for any parsed value. */
  predicate ShowsDark(t: Json, prefersDark: bool) {
    t.JString? && DarkClass(t.s, prefersDark)
  }

  predicate ShowsLight(t: Json, prefersLight: bool) {
    t.JString? && LightClass(t.s, prefersLight)
  }

  /** The script: read, resolve and store the default if needed, then toggle the two classes. */
  method Boot(storage: Storage, root: ClassList, prefersDark: bool, prefersLight: bool) returns (theme: Json)
    modifies storage, root
    ensures theme == InitialTheme(old(storage.GetItem(ThemeStorageKey)), prefersDark, prefersLight)
    ensures NeedsDefault(old(storage.GetItem(ThemeStorageKey))) ==>
      storage.items == old(storage.items)[ThemeStorageKey := Stringify(PreferredTheme(prefersDark, prefersLight))]
    ensures !NeedsDefault(old(storage.GetItem(ThemeStorageKey))) ==> storage.items == old(storage.items)
    ensures root.classes ==
      Toggled(Toggled(old(root.classes), "dark", ShowsDark(theme, prefersDark)), "light", ShowsLight(theme, prefersLight))
  {
    var item := storage.GetItem(ThemeStorageKey);
    var stored := StoredTheme(item);
    if stored.None? || stored == Some(JNull) {
      var preferred := PreferredTheme(prefersDark, prefersLight);
      storage.SetItem(ThemeStorageKey, Stringify(preferred));
      theme := JString(preferred);
    } else {
      theme := stored.value;
    }
    root.Toggle("dark", ShowsDark(theme, prefersDark));
    root.Toggle("light", ShowsLight(theme, prefersLight));
  }

  /** On a first visit the classes show the preference: `dark` iff dark is preferred, `light` iff only light is. */
  lemma FirstVisitShowsPreference(prefersDark: bool, prefersLight: bool)
    ensures ShowsDark(InitialTheme(None, prefersDark, prefersLight), prefersDark) == prefersDark
    ensures ShowsLight(InitialTheme(None, prefersDark, prefersLight), prefersLight) == (!prefersDark && prefersLight)
  {
    PreferredThemeShowsPreference(prefersDark, prefersLight);
  }

  /** The default written on a first visit is read back on the next, whatever the preferences are then. */
  lemma {:induction false} StoredDefaultSticks(prefersDark: bool, prefersLight: bool, laterDark: bool, laterLight: bool)
    ensures var written := Stringify(PreferredTheme(prefersDark, prefersLight));
      InitialTheme(Some(written), laterDark, laterLight) == JString(PreferredTheme(prefersDark, prefersLight))
  {
    var theme := PreferredTheme(prefersDark, prefersLight);
    ParseStringify(theme);
  }

  /** A theme the hooks stored is taken as it is, so the boot classes agree with the hooks' class rules. */
  lemma StoredThemeAgreesWithHooks(t: string, prefersDark: bool, prefersLight: bool)
    ensures InitialTheme(Some(Stringify(t)), prefersDark, prefersLight) == JString(t)
    ensures ShowsDark(InitialTheme(Some(Stringify(t)), prefersDark, prefersLight), prefersDark) == DarkClass(t, prefersDark)
    ensures ShowsLight(InitialTheme(Some(Stringify(t)), prefersDark, prefersLight), prefersLight) == LightClass(t, prefersLight)
  {
    ParseStringify(t);
  }
}
