/**
 * The theme provider (`ThemeProvider`): a light or dark theme chosen from the
 * system scheme, overridden by the value saved under 'user_theme', and
 * toggled by the user.
 */
module Theme {
  import opened Common

  const Light := "light"
  const Dark := "dark"

  /** The system colour scheme `useColorScheme()` reports. */
  datatype Scheme = LightScheme | DarkScheme {
    function Name(): string {
      match this
      case LightScheme => Light
      case DarkScheme => Dark
    }
  }

  /** The result of `AsyncStorage.getItem('user_theme')`: the stored string (null when unset), or a thrown error. */
  datatype StorageRead = Stored(value: Option<string>) | ReadFailed

  /** The context's value; with no provider above a screen it is the default `DefaultContext`. */
  datatype ThemeContextValue = ThemeContextValue(theme: string, isLoadingTheme: bool)

  const DefaultContext := ThemeContextValue(Light, true)

  /** The starting theme: dark exactly when the system scheme is dark. */
  function InitialTheme(system: Option<Scheme>): (r: string)
    ensures r == Dark <==> system == Some(DarkScheme)
    ensures r == Light || r == Dark
  {
    if system == Some(DarkScheme) then Dark else Light
  }

  /**
   * The theme after `loadTheme`: a saved non-empty value wins (taken as it is,
   * even if it is neither "light" nor "dark"); otherwise a known system
   * scheme; otherwise, and when the read fails, the current theme stays.
   */
  function LoadedTheme(current: string, system: Option<Scheme>, read: StorageRead): (r: string)
    ensures read.Stored? && read.value.Some? && read.value.value != "" ==> r == read.value.value
    ensures !(read.Stored? && read.value.Some? && read.value.value != "") && read.Stored? && system.Some? ==> r == system.value.Name()
    ensures read.ReadFailed? || (!(read.value.Some? && read.value.value != "") && system.None?) ==> r == current
  {
    match read
    case ReadFailed => current
    case Stored(saved) =>
      if saved.Some? && saved.value != "" then saved.value
      else if system.Some? then system.value.Name()
      else current
  }

  /** `theme === 'light' ? 'dark' : 'light'`. */
  function Toggled(theme: string): (r: string)
    ensures r == Light || r == Dark
    ensures r == Dark <==> theme == Light
  {
    if theme == Light then Dark else Light
  }

  /** Toggling twice restores the theme exactly when it is "light" or "dark"; from any other saved string two toggles reach "dark". */
  lemma ToggleTwice(theme: string)
    ensures Toggled(Toggled(theme)) == theme <==> theme == Light || theme == Dark
    ensures theme != Light && theme != Dark ==> Toggled(theme) == Light && Toggled(Toggled(theme)) == Dark
  {
  }

  class ThemeProvider {
    var theme: string
    var isLoadingTheme: bool
    const systemScheme: Option<Scheme>

    /** The provider as it mounts: the theme follows the system scheme, loading. */
    constructor (systemScheme: Option<Scheme>)
      ensures this.systemScheme == systemScheme
      ensures theme == InitialTheme(systemScheme) && isLoadingTheme
    {
      this.systemScheme := systemScheme;
      theme := InitialTheme(systemScheme);
      isLoadingTheme := true;
    }

    /** `loadTheme`: applies the saved or system theme and ends loading, whether or not the read failed. */
    method LoadTheme(read: StorageRead)
      modifies this
      ensures theme == LoadedTheme(old(theme), systemScheme, read)
      ensures !isLoadingTheme
    {
      match read {
        case ReadFailed =>
        case Stored(saved) =>
          if saved.Some? && saved.value != "" {
            theme := saved.value;
          } else if systemScheme.Some? {
            theme := systemScheme.value.Name();
          }
      }
      isLoadingTheme := false;
    }

    /**
     * `toggleTheme`: flips the theme in memory first and returns the value to
     * save under 'user_theme'. `saveError` is the error the save threw, if one
     * did; it is only logged, so it never reverts the flip.
     */
    method ToggleTheme(saveError: Option<string>) returns (saved: string)
      modifies this`theme
      ensures theme == Toggled(old(theme))
      ensures saved == theme
    {
      theme := Toggled(theme);
      saved := theme;
    }
  }
}
