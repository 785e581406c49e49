/**
 * The `useTheme` hook: how the first theme is chosen, the toggle, the
 * effect that mirrors the theme onto the document root and into storage,
 * and the live reduced-motion preference.
 */
module ThemeHook {
  import opened Wrappers

  const Dark := "dark"
  const Light := "light"

  /** What `localStorage.getItem('theme')` does: throw, or return a string
      or `null`. */
  datatype StorageRead = StorageThrows | StorageValue(value: Option<string>)

  /** What `matchMedia('(prefers-color-scheme: dark)').matches` does. */
  datatype MediaRead = MediaThrows | MediaMatches(matches: bool)

  /** The browser as the initializer sees it. */
  datatype Environment =
    | NoWindow  // `typeof window === 'undefined'`
    | Browser(stored: StorageRead, prefersDark: MediaRead)

  /** JavaScript truthiness of a `string | null`. */
  predicate Truthy(v: Option<string>) {
    v.Some? && v.value != ""
  }

  /** The initial theme: dark without a window; else any truthy stored
      string, unchecked; else the system preference; dark if anything
      throws on the way. */
  function InitialTheme(env: Environment): (t: string)
    ensures env.NoWindow? ==> t == Dark
    ensures env.Browser? && env.stored.StorageValue? && Truthy(env.stored.value) ==> t == env.stored.value.value
    ensures env.Browser? && env.stored.StorageThrows? ==> t == Dark
    ensures env.Browser? && env.stored.StorageValue? && !Truthy(env.stored.value) ==>
              t == (if env.prefersDark == MediaMatches(false) then Light else Dark)
  {
    match env
    case NoWindow => Dark
    case Browser(stored, prefersDark) =>
      match stored
      case StorageThrows => Dark
      case StorageValue(v) =>
        if Truthy(v) then v.value
        else match prefersDark
          case MediaThrows => Dark
          case MediaMatches(m) => if m then Dark else Light
  }

  /** The initial theme is dark, light, or a non-empty string found in
      storage; nothing else can appear. */
  lemma InitialThemeOrigin(env: Environment)
    ensures var t := InitialTheme(env);
            t == Dark || t == Light || (t != "" && env.Browser? && env.stored == StorageValue(Some(t)))
  {
  }

  /** A stored value is used without consulting the media query. */
  lemma StoredValueShortCircuits(v: string, m1: MediaRead, m2: MediaRead)
    requires v != ""
    ensures InitialTheme(Browser(StorageValue(Some(v)), m1)) == InitialTheme(Browser(StorageValue(Some(v)), m2)) == v
  {
  }

  /** `toggleTheme`'s updater: dark becomes light, anything else dark. */
  function Toggle(t: string): (r: string)
    ensures r == Dark || r == Light
    ensures r == Light <==> t == Dark
  {
    if t == Dark then Light else Dark
  }

  /** Toggling twice restores a dark or light theme. */
  lemma ToggleTwiceRestores(t: string)
    requires t == Dark || t == Light
    ensures Toggle(Toggle(t)) == t
  {
  }

  /** Toggling twice turns any other stored string into light: the stored
      value is not validated, so the round trip fails for it. */
  lemma ToggleTwiceNormalisesOthers(t: string)
    requires t != Dark && t != Light
    ensures Toggle(Toggle(t)) == Light != t
  {
  }

  /** The `useTheme` state of one component instance, together with the
      parts of the browser its effects write: the `dark` class on the
      document root and the persisted `theme` entry. */
  class ThemeComponent {
    var theme: string
    var reducedMotion: bool
    var rootHasDarkClass: bool
    var persisted: Option<string>
    var motionSubscribed: bool

    /** First render: `theme` from the initializer, `reducedMotion` false;
        the root class and storage are as the page left them, and storage
        holds what the initializer read whenever the read succeeded. */
    constructor (env: Environment, rootDark: bool, stored: Option<string>)
      requires env.Browser? && env.stored.StorageValue? ==> stored == env.stored.value
      ensures theme == InitialTheme(env) && !reducedMotion && !motionSubscribed
      ensures rootHasDarkClass == rootDark && persisted == stored
    {
      theme := InitialTheme(env);
      reducedMotion := false;
      rootHasDarkClass := rootDark;
      persisted := stored;
      motionSubscribed := false;
    }

    /** The effect keyed on `theme`: sync the root's `dark` class, then try
        to persist; a failed write is swallowed. */
    method SyncTheme(persistSucceeds: bool)
      modifies this`rootHasDarkClass, this`persisted
      ensures rootHasDarkClass <==> theme == Dark
      ensures persisted == if persistSucceeds then Some(theme) else old(persisted)
    {
      if theme == Dark {
        rootHasDarkClass := true;
      } else {
        rootHasDarkClass := false;
      }
      if persistSucceeds {
        persisted := Some(theme);
      }
    }

    /** `toggleTheme()`. */
    method ToggleTheme()
      modifies this`theme
      ensures theme == Toggle(old(theme))
    {
      theme := if theme == Dark then Light else Dark;
    }

    /** The mount effect for motion: `matchMedia` is called outside any
        `try`, then the current answer is stored, then the change listener
        is added. A throwing `matchMedia`, or a query object without
        `addEventListener`, makes the effect throw at that point; `threw`
        reports it and the writes made before it stay. */
    method MountMotion(media: MediaRead, listenerSupported: bool) returns (threw: bool)
      modifies this`reducedMotion, this`motionSubscribed
      ensures threw <==> media.MediaThrows? || !listenerSupported
      ensures reducedMotion == if media.MediaMatches? then media.matches else old(reducedMotion)
      ensures motionSubscribed == if media.MediaMatches? && listenerSupported then true else old(motionSubscribed)
    {
      match media {
        case MediaThrows =>
          return true;
        case MediaMatches(m) =>
          reducedMotion := m;
          if !listenerSupported {
            return true;
          }
          motionSubscribed := true;
          return false;
      }
    }

    /** A `change` event of the reduced-motion query. */
    method OnMotionChange(matches: bool)
      modifies this`reducedMotion
      ensures reducedMotion == if motionSubscribed then matches else old(reducedMotion)
    {
      if motionSubscribed {
        reducedMotion := matches;
      }
    }

    /** The cleanup of the motion effect: the listener is removed. */
    method UnmountMotion()
      modifies this`motionSubscribed
      ensures !motionSubscribed
    {
      motionSubscribed := false;
    }
  }
}
