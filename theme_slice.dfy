/** The theme store: the current colour mode, initialised from the browser's
    saved theme and written back on every change. */
module ThemeSlice {
  import opened Common

  /** The browser's key-value storage; `None` when there is no window or no
      `localStorage`. */
  type Storage = Option<map<string, string>>

  const ThemeKey := "theme"
  const Light := "light"
  const Dark := "dark"

  /** `getInitialTheme`: the saved theme when there is a non-empty one,
      otherwise "light". */
  function InitialTheme(storage: Storage): (mode: string)
    ensures mode != ""
    ensures storage.Some? && ThemeKey in storage.value && storage.value[ThemeKey] != ""
            ==> mode == storage.value[ThemeKey]
    ensures !(storage.Some? && ThemeKey in storage.value && storage.value[ThemeKey] != "")
            ==> mode == Light
  {
    if storage.Some? && ThemeKey in storage.value && storage.value[ThemeKey] != "" then storage.value[ThemeKey]
    else Light
  }

  /** The mode after `toggleTheme`: "light" becomes "dark", anything else
      "light". */
  function Toggled(mode: string): (m: string)
    ensures m == Dark <==> mode == Light
    ensures m == Light <==> mode != Light
  {
    if mode == Light then Dark else Light
  }

  /** Toggling twice restores "light" and "dark", and turns any other mode
      into "dark". */
  lemma ToggleTwice(mode: string)
    ensures mode == Light || mode == Dark ==> Toggled(Toggled(mode)) == mode
    ensures mode != Light && mode != Dark ==> Toggled(Toggled(mode)) == Dark
  {
  }

  /** The write-back: the theme key is set, the other keys stay. */
  function Saved(storage: Storage, mode: string): (s: Storage)
    ensures s.Some? <==> storage.Some?
    ensures s.Some? ==> ThemeKey in s.value && s.value[ThemeKey] == mode
    ensures s.Some? ==> forall k :: k in storage.value && k != ThemeKey ==> k in s.value && s.value[k] == storage.value[k]
  {
    match storage
    case Some(m) => Some(m[ThemeKey := mode])
    case None => None
  }

  /** After a reload the saved mode comes back, unless it was empty. */
  lemma ReloadRestoresMode(storage: Storage, mode: string)
    requires storage.Some? && mode != ""
    ensures InitialTheme(Saved(storage, mode)) == mode
  {
  }

  class ThemeStore {
    var mode: string
    var storage: Storage

    /** Where there is storage, it holds the current mode. */
    ghost predicate Persisted()
      reads this
    {
      storage.Some? ==> ThemeKey in storage.value && storage.value[ThemeKey] == mode
    }

    constructor (browser: Storage)
      ensures mode == InitialTheme(browser) && storage == browser
    {
      mode := InitialTheme(browser);
      storage := browser;
    }

    /** `toggleTheme`. */
    method ToggleTheme()
      modifies this
      ensures mode == Toggled(old(mode))
      ensures storage == Saved(old(storage), mode)
      ensures Persisted()
    {
      var newTheme := Toggled(mode);
      mode := newTheme;
      if storage.Some? {
        storage := Some(storage.value[ThemeKey := newTheme]);
      }
    }

    /** `setTheme`: the payload is taken as it is. */
    method SetTheme(payload: string)
      modifies this
      ensures mode == payload
      ensures storage == Saved(old(storage), payload)
      ensures Persisted()
    {
      mode := payload;
      if storage.Some? {
        storage := Some(storage.value[ThemeKey := payload]);
      }
    }
  }
}
