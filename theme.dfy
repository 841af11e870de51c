/**
 * The theme provider: a theme value initialised from local storage or the
 * system colour-scheme preference, applied to the document root's class list
 * and written back to storage, and toggled by the theme button.
 *
 * Local storage is a `map<string, string>`, the root element's class list a
 * `set<string>`, and the `prefers-color-scheme: light` media query a boolean.
 * The stored value is read back without validation, so the theme is any
 * string, as in the component.
 */
module Theme {
  import opened Wrappers

  const StorageKey: string := "portfolio-theme"
  const Light: string := "light"
  const Dark: string := "dark"

  /** The theme before the initialisation effect has run. */
  const DefaultTheme: string := Dark

  /** The stored theme when `getItem` returns a truthy string, that is a non-empty one. */
  function SavedTheme(storage: map<string, string>): (r: Option<string>)
    ensures r.Some? <==> StorageKey in storage && storage[StorageKey] != []
    ensures r.Some? ==> r.value == storage[StorageKey] && r.value != []
  {
    if StorageKey in storage && storage[StorageKey] != [] then Some(storage[StorageKey]) else None
  }

  /** The theme after the initialisation effect, starting from `current`. */
  function Initialised(storage: map<string, string>, prefersLight: bool, current: string): (t: string)
    ensures SavedTheme(storage).Some? ==> t == storage[StorageKey]
    ensures SavedTheme(storage).None? && prefersLight ==> t == Light
    ensures SavedTheme(storage).None? && !prefersLight ==> t == current
  {
    match SavedTheme(storage)
    case Some(saved) => saved
    case None => if prefersLight then Light else current
  }

  /** The toggle's functional state update. */
  function Toggled(t: string): (r: string)
    ensures r == Light || r == Dark
    ensures r != t
    ensures r == Light <==> t == Dark
  {
    if t == Dark then Light else Dark
  }

  /** The root class list after the apply effect for theme `t`. */
  function AppliedClasses(classes: set<string>, t: string): (r: set<string>)
    ensures t == Light ==> Light in r && Dark !in r
    ensures t != Light ==> Dark in r && Light !in r
    ensures forall c :: c != Light && c != Dark ==> (c in r <==> c in classes)
  {
    if t == Light then classes + {Light} - {Dark} else classes + {Dark} - {Light}
  }

  /** Toggling twice restores either of the two themes. */
  lemma ToggleTwice(t: string)
    requires t == Light || t == Dark
    ensures Toggled(Toggled(t)) == t
  {
  }

  /** An unvalidated stored value toggles to dark. */
  lemma ToggleUnknown(t: string)
    requires t != Light && t != Dark
    ensures Toggled(t) == Dark && Toggled(Toggled(t)) == Light
  {
  }

  /**
   * The last apply decides the class list: a second apply with `t2` gives the
   * same classes as applying `t2` alone. So the apply for the first render's
   * dark theme, which runs before the initialised theme is rendered, leaves no
   * trace.
   */
  lemma LastApplyWins(classes: set<string>, t1: string, t2: string)
    ensures AppliedClasses(AppliedClasses(classes, t1), t2) == AppliedClasses(classes, t2)
  {
  }

  /**
   * Persisting a non-empty theme and initialising from that storage gives the
   * same theme back, whatever the system preference and the current value.
   */
  lemma PersistRoundTrip(storage: map<string, string>, t: string, prefersLight: bool, current: string)
    requires t != []
    ensures Initialised(storage[StorageKey := t], prefersLight, current) == t
  {
  }

  /** Both themes survive a reload. */
  lemma ReloadKeepsTheme(storage: map<string, string>, prefersLight: bool)
    ensures Initialised(storage[StorageKey := Dark], prefersLight, DefaultTheme) == Dark
    ensures Initialised(storage[StorageKey := Light], prefersLight, DefaultTheme) == Light
  {
  }

  /** What the provider hands to its consumers. */
  datatype ThemeContext = ThemeContext(theme: string)

  const OutsideProvider: string := "useTheme must be used within a ThemeProvider"

  /** The `useTheme` hook: the context, or the error thrown outside a provider. */
  function UseTheme(context: Option<ThemeContext>): (r: Result<ThemeContext, string>)
    ensures r.Err? <==> context.None?
    ensures r.Err? ==> r.error == OutsideProvider
    ensures r.Ok? ==> r.value == context.value
  {
    match context
    case None => Err(OutsideProvider)
    case Some(c) => Ok(c)
  }

  /** The provider's state together with the browser state it reads and writes. */
  class ThemeStore {
    var theme: string
    var storage: map<string, string>
    var rootClasses: set<string>

    /** Every value the theme takes is non-empty: the default, "light", or a truthy stored string. */
    predicate Valid()
      reads this
    {
      theme != []
    }

    /** The provider's first render, before any effect has run. */
    constructor (storage: map<string, string>, rootClasses: set<string>)
      ensures Valid() && theme == DefaultTheme
      ensures this.storage == storage && this.rootClasses == rootClasses
    {
      theme := DefaultTheme;
      this.storage := storage;
      this.rootClasses := rootClasses;
    }

    /** The initialisation effect. */
    method Init(prefersLight: bool)
      requires Valid()
      modifies this`theme
      ensures Valid() && theme == Initialised(storage, prefersLight, old(theme))
    {
      var savedTheme := if StorageKey in storage then storage[StorageKey] else [];
      if savedTheme != [] {
        theme := savedTheme;
      } else if prefersLight {
        theme := Light;
      }
    }

    /** The apply effect: set exactly one of the two root classes and persist the theme. */
    method Apply()
      requires Valid()
      modifies this`rootClasses, this`storage
      ensures Valid()
      ensures rootClasses == AppliedClasses(old(rootClasses), theme)
      ensures storage == old(storage)[StorageKey := theme]
    {
      if theme == Light {
        rootClasses := rootClasses + {Light};
        rootClasses := rootClasses - {Dark};
      } else {
        rootClasses := rootClasses + {Dark};
        rootClasses := rootClasses - {Light};
      }
      storage := storage[StorageKey := theme];
    }

    /** The theme button's handler. */
    method Toggle()
      requires Valid()
      modifies this`theme
      ensures Valid() && theme == Toggled(old(theme))
    {
      theme := if theme == Dark then Light else Dark;
    }
  }

  /**
   * Mounting and one toggle: the stored or preferred theme is applied and
   * persisted, the toggle then applies and persists the flipped value, and a
   * reload from the final storage comes back to that value.
   */
  method MountThenToggle(storage: map<string, string>, rootClasses: set<string>, prefersLight: bool)
    returns (mounted: string, toggled: string, finalStorage: map<string, string>, finalClasses: set<string>)
    ensures mounted == Initialised(storage, prefersLight, DefaultTheme)
    ensures toggled == Toggled(mounted) && toggled != mounted
    ensures finalStorage == storage[StorageKey := toggled]
    ensures finalClasses == AppliedClasses(rootClasses, toggled)
    ensures Initialised(finalStorage, prefersLight, DefaultTheme) == toggled
  {
    var store := new ThemeStore(storage, rootClasses);
    store.Init(prefersLight);
    store.Apply();
    mounted := store.theme;
    store.Toggle();
    store.Apply();
    toggled := store.theme;
    finalStorage, finalClasses := store.storage, store.rootClasses;
    LastApplyWins(rootClasses, mounted, toggled);
    PersistRoundTrip(storage, toggled, prefersLight, DefaultTheme);
  }
}
