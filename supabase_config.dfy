/** Build-time configuration of the hosted backend client (`utils/supabase.ts`). */
module SupabaseConfig {
  import opened Wrappers

  const PlaceholderUrl := "https://demo.supabase.co"
  const PlaceholderKey := "demo-key"

  /** The three environment variables; `None` when a variable is unset. */
  datatype Env = Env(url: Option<string>, anonKey: Option<string>, demoMode: Option<string>)

  /** JavaScript truthiness of a variable that is unset or a string. */
  predicate Truthy(v: Option<string>) {
    v.Some? && v.value != ""
  }

  /** `v || fallback` */
  function OrElse(v: Option<string>, fallback: string): string {
    if Truthy(v) then v.value else fallback
  }

  /** The URL the client is created with. */
  function ClientUrl(env: Env): (url: string)
    ensures url != ""
    ensures Truthy(env.url) ==> url == env.url.value
    ensures !Truthy(env.url) ==> url == PlaceholderUrl
  {
    OrElse(env.url, PlaceholderUrl)
  }

  /** The anonymous key the client is created with. */
  function ClientKey(env: Env): (key: string)
    ensures key != ""
    ensures Truthy(env.anonKey) ==> key == env.anonKey.value
    ensures !Truthy(env.anonKey) ==> key == PlaceholderKey
  {
    OrElse(env.anonKey, PlaceholderKey)
  }

  /** `isSupabaseConfigured()`: both values set, non-empty and not placeholders. */
  function IsSupabaseConfigured(env: Env): (configured: bool)
    ensures configured ==> Truthy(env.url) && ClientUrl(env) == env.url.value
    ensures configured ==> Truthy(env.anonKey) && ClientKey(env) == env.anonKey.value
  {
    && Truthy(env.url)
    && Truthy(env.anonKey)
    && env.url.value != PlaceholderUrl
    && env.anonKey.value != PlaceholderKey
  }

  /** `isDemoMode`: the flag variable is exactly the text "true". */
  function IsDemoMode(env: Env): (demo: bool)
    ensures demo ==> Truthy(env.demoMode)
    ensures env.demoMode == Some("false") || env.demoMode == Some("1") ==> !demo
  {
    env.demoMode == Some("true")
  }

  /** The backend counts as configured exactly when the client is created
      with neither placeholder. */
  lemma ConfiguredIffNoPlaceholder(env: Env)
    ensures IsSupabaseConfigured(env) <==> ClientUrl(env) != PlaceholderUrl && ClientKey(env) != PlaceholderKey
  {
  }

  /** Each way of failing the configuration test. */
  lemma UnconfiguredCases(env: Env)
    ensures !Truthy(env.url) ==> !IsSupabaseConfigured(env)
    ensures !Truthy(env.anonKey) ==> !IsSupabaseConfigured(env)
    ensures env.url == Some(PlaceholderUrl) ==> !IsSupabaseConfigured(env)
    ensures env.anonKey == Some(PlaceholderKey) ==> !IsSupabaseConfigured(env)
  {
  }

  /** The demo flag reads only its own variable, and the configuration test
      never reads the demo flag. */
  lemma DemoModeIndependent(env: Env, env': Env)
    ensures env.demoMode == env'.demoMode ==> IsDemoMode(env) == IsDemoMode(env')
    ensures env.url == env'.url && env.anonKey == env'.anonKey ==> IsSupabaseConfigured(env) == IsSupabaseConfigured(env')
  {
  }

  /** All four combinations of the two flags occur; in particular an
      unconfigured client without the demo flag is not in demo mode. */
  lemma DemoModeAndConfigurationCombine(demo: bool, configured: bool)
    ensures exists env: Env :: IsDemoMode(env) == demo && IsSupabaseConfigured(env) == configured
  {
    var flag := if demo then Some("true") else None;
    var url := if configured then Some("https://example.supabase.co") else None;
    var env := Env(url, Some("anon"), flag);
    assert IsDemoMode(env) == demo && IsSupabaseConfigured(env) == configured;
  }
}
