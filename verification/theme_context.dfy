/** The theme store: the current theme, its `data-theme` attribute on the
    document root, and its copy under the `endgame-theme` storage key. */
module ThemeContext {
  import opened Wrappers

  /** The theme values that reach the store at run time. The `Theme` type
      declares the first five; the world selector injects the last four with an
      unchecked cast, so the store holds nine distinct strings in practice. */
  datatype Theme = Grid | Sol | Flux | Terra | Glacis | Light | Dark | Neon | Zen

  function Name(t: Theme): string {
    match t
    case Grid => "grid"
    case Sol => "sol"
    case Flux => "flux"
    case Terra => "terra"
    case Glacis => "glacis"
    case Light => "light"
    case Dark => "dark"
    case Neon => "neon"
    case Zen => "zen"
  }

  /** The whitelist a stored value must belong to in order to be adopted. */
  const Persistable: seq<string> := ["grid", "sol", "flux", "terra", "glacis"]

  /** One of the five themes the type declares. */
  predicate IsDeclared(t: Theme) {
    t.Grid? || t.Sol? || t.Flux? || t.Terra? || t.Glacis?
  }

  /** The theme the provider starts with. */
  const DefaultTheme: Theme := Grid

  /** Distinct themes have distinct names, so a name identifies its theme. */
  lemma NameInjective(a: Theme, b: Theme)
    ensures Name(a) == Name(b) <==> a == b
  {
  }

  /** A whitelisted name read back as the theme it names. */
  function FromName(s: string): (t: Theme)
    requires s in Persistable
    ensures Name(t) == s && IsDeclared(t)
  {
    if s == "grid" then Grid
    else if s == "sol" then Sol
    else if s == "flux" then Flux
    else if s == "terra" then Terra
    else Glacis
  }

  /** The mount-time load: a stored value (`null` when the key is missing) is
      adopted only when it is non-empty and whitelisted; otherwise the theme
      stays at the default. */
  function LoadTheme(stored: Option<string>): (t: Theme)
    ensures stored.Some? && stored.value in Persistable ==> Name(t) == stored.value
    ensures !(stored.Some? && stored.value in Persistable) ==> t == DefaultTheme
    ensures IsDeclared(t)
  {
    match stored
    case Some(s) => if s != "" && s in Persistable then FromName(s) else DefaultTheme
    case None => DefaultTheme
  }

  /** The provider's observable state: the theme, the `data-theme` attribute
      (absent before the first effect), and the stored string. */
  datatype Provider = Provider(theme: Theme, dataTheme: Option<string>, stored: Option<string>)

  /** The change effect has run: attribute and storage both hold the theme. */
  predicate Synced(p: Provider) {
    p.dataTheme == Some(Name(p.theme)) && p.stored == Some(Name(p.theme))
  }

  /** The theme-change effect: write the attribute and the storage key. */
  function Publish(t: Theme): (p: Provider)
    ensures p.theme == t && Synced(p)
  {
    Provider(t, Some(Name(t)), Some(Name(t)))
  }

  /** Mounting the provider over whatever storage holds: load, then publish. */
  function Mount(stored: Option<string>): (p: Provider)
    ensures Synced(p) && IsDeclared(p.theme)
    ensures p.theme == DefaultTheme <==> !(stored.Some? && stored.value in Persistable) || stored == Some("grid")
  {
    Publish(LoadTheme(stored))
  }

  /** `setTheme`: any theme value is accepted and published, whitelisted or not. */
  function SetTheme(p: Provider, t: Theme): (q: Provider)
    ensures q.theme == t && Synced(q)
  {
    Publish(t)
  }

  /** Reloading the page after a theme change keeps the theme exactly when it
      is one of the five declared themes, and falls back to the default
      otherwise: the four selector ids live only for the session. */
  lemma SaveLoadRoundTrip(p: Provider, t: Theme)
    ensures Mount(SetTheme(p, t).stored).theme == (if IsDeclared(t) then t else DefaultTheme)
  {
    var s := Name(t);
    if IsDeclared(t) {
      assert s in Persistable;
      NameInjective(LoadTheme(Some(s)), t);
    } else {
      assert s !in Persistable;
    }
  }

  const ProviderMissing: string := "useTheme must be used within a ThemeProvider"

  /** `useTheme`: the provider's value, or the error thrown outside a provider. */
  function UseTheme(context: Option<Provider>): (r: Result<Provider, string>)
    ensures r.Success? <==> context.Some?
    ensures r.Success? ==> r.value == context.value
    ensures r.Failure? ==> r.error == ProviderMissing
  {
    match context
    case Some(p) => Success(p)
    case None => Failure(ProviderMissing)
  }
}
