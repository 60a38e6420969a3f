/**
 * The page's theme: the shared configuration object (a singleton whose
 * theme is read from the browser's key/value store when it is first
 * created), the two theme strategies and the manager that toggles between
 * them and writes the choice back to the store.
 *
 * Theme names stay strings, as in the store: any non-empty stored value is
 * taken as the current theme, and only "dark" and "light" have a strategy.
 */
module Themes {

  datatype Option<T> = None | Some(value: T)

  const ThemeKey: string := "theme"
  const Dark: string := "dark"
  const Light: string := "light"

  /** What `getItem` returns for `key`: its entry, or None (JavaScript's null) when it has none. */
  function GetItem(items: map<string, string>, key: string): (r: Option<string>)
    ensures r.Some? <==> key in items
    ensures r.Some? ==> r.value == items[key]
  {
    if key in items then Some(items[key]) else None
  }

  /** The browser's local key/value store. */
  class Storage {
    var items: map<string, string>

    constructor (items: map<string, string>)
      ensures this.items == items
    {
      this.items := items;
    }

    method SetItem(key: string, value: string)
      modifies this
      ensures items == old(items)[key := value]
    {
      items := items[key := value];
    }
  }

  /**
   * The theme a new configuration starts with: the stored entry, or dark
   * when the entry is missing or empty (both are falsy for `||`).
   */
  function InitialTheme(stored: Option<string>): (theme: string)
    ensures theme != ""
    ensures stored.Some? && stored.value != "" ==> theme == stored.value
    ensures stored == None || stored == Some("") ==> theme == Dark
  {
    match stored
    case Some(t) => if t != "" then t else Dark
    case None => Dark
  }

  /** The shared configuration: playback volume and the current theme name. */
  class AppConfig {
    var volume: real
    var theme: string

    constructor (storage: Storage)
      ensures volume == 1.0
      ensures theme == InitialTheme(GetItem(storage.items, ThemeKey))
    {
      volume := 1.0;
      theme := InitialTheme(GetItem(storage.items, ThemeKey));
    }
  }

  /** The class-level slot that holds the one configuration instance, once there is one. */
  class AppConfigSlot {
    var instance: AppConfig?

    constructor ()
      ensures instance == null
    {
      instance := null;
    }
  }

  /**
   * `new AppConfig()`: the first call builds the configuration from the
   * store and records it; every later call returns that same instance,
   * untouched, without reading the store again.
   */
  method NewAppConfig(slot: AppConfigSlot, storage: Storage) returns (config: AppConfig)
    modifies slot
    ensures slot.instance == config
    ensures old(slot.instance) != null ==> config == old(slot.instance) && unchanged(config)
    ensures old(slot.instance) == null ==> fresh(config) && config.volume == 1.0
                                           && config.theme == InitialTheme(GetItem(storage.items, ThemeKey))
  {
    if slot.instance != null {
      config := slot.instance;
    } else {
      config := new AppConfig(storage);
      slot.instance := config;
    }
  }

  /** The two theme strategies. */
  datatype ThemeStrategy = DarkTheme | LightTheme

  /** The manager's table of strategies, keyed by theme name. */
  const Strategies: map<string, ThemeStrategy> := map[Dark := DarkTheme, Light := LightTheme]

  /** The document body; `lightTheme` says whether it carries the `light-theme` class. */
  class Body {
    var lightTheme: bool

    constructor (lightTheme: bool)
      ensures this.lightTheme == lightTheme
    {
      this.lightTheme := lightTheme;
    }
  }

  /** A strategy's `apply`: the dark theme removes the class, the light theme adds it. */
  method Apply(strategy: ThemeStrategy, body: Body)
    modifies body
    ensures body.lightTheme <==> strategy == LightTheme
  {
    match strategy
    case DarkTheme => body.lightTheme := false;
    case LightTheme => body.lightTheme := true;
  }

  /** The theme `toggle` switches to: light after dark, dark after anything else. */
  function Toggled(theme: string): (next: string)
    ensures next in Strategies
    ensures next == Light <==> theme == Dark
  {
    if theme == Dark then Light else Dark
  }

  /** From either of the two themes, toggling twice gives back the theme toggling started from. */
  lemma ToggleTwiceRestores(theme: string)
    requires theme in Strategies
    ensures Toggled(theme) != theme
    ensures Toggled(Toggled(theme)) == theme
  {
  }

  /** From any other stored name, toggling twice ends on light, not on the name it started from. */
  lemma ToggleTwiceFromUnknown(theme: string)
    requires theme !in Strategies
    ensures Toggled(Toggled(theme)) == Light != theme
  {
  }

  /** A configuration built after a toggle reads back the theme the toggle wrote. */
  lemma ToggledThemeReloads(items: map<string, string>, theme: string)
    ensures InitialTheme(GetItem(items[ThemeKey := Toggled(theme)], ThemeKey)) == Toggled(theme)
  {
  }

  class ThemeManager {
    const config: AppConfig
    const storage: Storage
    const body: Body

    /** Obtains the shared configuration; the strategy table is `Strategies`. */
    constructor (slot: AppConfigSlot, storage: Storage, body: Body)
      modifies slot
      ensures this.storage == storage && this.body == body
      ensures slot.instance == config
      ensures old(slot.instance) != null ==> config == old(slot.instance)
      ensures old(slot.instance) == null ==> fresh(config)
                                             && config.theme == InitialTheme(GetItem(storage.items, ThemeKey))
    {
      var c := NewAppConfig(slot, storage);
      config := c;
      this.storage := storage;
      this.body := body;
    }

    /**
     * Applies the strategy of the current theme. A theme name without a
     * strategy makes `this.themes[...]` undefined and the call throws a
     * TypeError: `ok` is false then and the body is left as it was.
     */
    method ApplyCurrentTheme() returns (ok: bool)
      modifies body
      ensures ok <==> config.theme in Strategies
      ensures ok ==> (body.lightTheme <==> config.theme == Light)
      ensures !ok ==> body.lightTheme == old(body.lightTheme)
    {
      if config.theme in Strategies {
        Apply(Strategies[config.theme], body);
        ok := true;
      } else {
        ok := false;
      }
    }

    /** Switches theme, applies the new one and stores its name under "theme". */
    method Toggle()
      modifies config, storage, body
      ensures config.theme == Toggled(old(config.theme))
      ensures config.volume == old(config.volume)
      ensures body.lightTheme <==> config.theme == Light
      ensures storage.items == old(storage.items)[ThemeKey := config.theme]
      ensures InitialTheme(GetItem(storage.items, ThemeKey)) == config.theme
    {
      var newTheme := if config.theme == Dark then Light else Dark;
      Apply(Strategies[newTheme], body);
      config.theme := newTheme;
      storage.SetItem(ThemeKey, newTheme);
    }
  }
}
