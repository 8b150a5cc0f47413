/** The theme provider: a dark/light flag read once from the device's
    key-value storage, flipped and written back on every toggle, and the
    app rendered only once the stored theme has been read. Whether a storage
    call fails is an input here. */
module ThemeContext {
  import opened Wrappers

  const ThemeKey := "theme"
  const Dark := "dark"
  const Light := "light"

  /** `savedTheme === 'dark'`: a missing value and any other text read as
      light. */
  function IsDarkValue(saved: Option<string>): (dark: bool)
    ensures dark <==> saved == Some(Dark)
  {
    saved.Some? && saved.value == Dark
  }

  /** `newTheme ? 'dark' : 'light'` */
  function StoredValue(dark: bool): (value: string)
    ensures value == Dark || value == Light
  {
    if dark then Dark else Light
  }

  /** Reading the theme back from what was written gives the same flag. */
  lemma StoredValueRoundTrip(dark: bool)
    ensures IsDarkValue(Some(StoredValue(dark))) == dark
  {
  }

  /** `getItem('theme')` on the storage. */
  function Get(storage: map<string, string>): (saved: Option<string>)
    ensures saved.Some? <==> ThemeKey in storage
    ensures saved.Some? ==> saved.value == storage[ThemeKey]
  {
    if ThemeKey in storage then Some(storage[ThemeKey]) else None
  }

  /** The storage after a successful `setItem('theme', …)` for the flag. */
  function Saved(storage: map<string, string>, dark: bool): (s: map<string, string>)
    ensures ThemeKey in s && s[ThemeKey] == StoredValue(dark)
    ensures forall k :: k in storage && k != ThemeKey ==> k in s && s[k] == storage[k]
    ensures s.Keys == storage.Keys + {ThemeKey}
  {
    storage[ThemeKey := StoredValue(dark)]
  }

  /** A load after a saved toggle yields the toggled flag, whatever was
      stored before; a store never written to loads as light. */
  lemma LoadAfterSave(storage: map<string, string>, dark: bool)
    ensures IsDarkValue(Get(Saved(storage, dark))) == dark
    ensures ThemeKey !in storage ==> !IsDarkValue(Get(storage))
  {
    StoredValueRoundTrip(dark);
  }

  class ThemeProvider {
    var isDark: bool
    var isReady: bool
    /** The device's key-value storage. */
    var storage: map<string, string>

    /** The first render, over whatever the storage holds: light, and not
      ready. */
    constructor (stored: map<string, string>)
      ensures !isDark && !isReady && storage == stored
      ensures !ChildrenShown()
    {
      isDark, isReady := false, false;
      storage := stored;
    }

    /** The provider renders its children only once ready. */
    predicate ChildrenShown()
      reads this
    {
      isReady
    }

    /** `loadTheme`: a read that succeeds sets the flag from the stored
      value; a failed read keeps it. Ready either way. */
    method LoadTheme(readFails: bool)
      modifies this
      ensures !readFails ==> isDark == IsDarkValue(Get(storage))
      ensures readFails ==> isDark == old(isDark)
      ensures isReady && ChildrenShown()
      ensures storage == old(storage)
    {
      if !readFails {
        var saved := Get(storage);
        isDark := IsDarkValue(saved);
      }
      isReady := true;
    }

    /** `toggleTheme`: the flag flips at once; the new value is written
      unless the write fails, and a failed write does not undo the flip. */
    method ToggleTheme(writeFails: bool)
      modifies this
      ensures isDark == !old(isDark)
      ensures !writeFails ==> storage == Saved(old(storage), isDark)
      ensures writeFails ==> storage == old(storage)
      ensures isReady == old(isReady)
    {
      var newTheme := !isDark;
      isDark := newTheme;
      if !writeFails {
        storage := Saved(storage, newTheme);
      }
    }
  }
}
