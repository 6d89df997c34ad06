/**
 * The API base URL chosen at module initialisation, the URL builder and the
 * Basic authorisation header (src/lib/api.js).
 */
module Api {
  import opened Wrappers
  import opened JsString

  /** The build-time environment: two optional variables and the DEV flag. */
  datatype Env = Env(kuraApiBase: Option<string>, apiBaseUrl: Option<string>, dev: bool)

  const DevDefault: string := "http://localhost:8000"
  const ProdDefault: string := "https://api.blazerdigital.com"

  /** An environment variable as `||` sees it: set and non-empty. */
  predicate IsSet(v: Option<string>) {
    v.Some? && v.value != ""
  }

  /** `(VITE_KURA_API_BASE || VITE_API_BASE_URL || "").trim()`. */
  function ConfiguredBase(env: Env): (r: string)
    ensures Trimmed(r)
    ensures IsSet(env.kuraApiBase) ==> r == Trim(env.kuraApiBase.value)
    ensures !IsSet(env.kuraApiBase) && IsSet(env.apiBaseUrl) ==> r == Trim(env.apiBaseUrl.value)
    ensures r == "" <==> (if IsSet(env.kuraApiBase) then AllSpace(env.kuraApiBase.value)
                          else !IsSet(env.apiBaseUrl) || AllSpace(env.apiBaseUrl.value))
  {
    if IsSet(env.kuraApiBase) then Trim(env.kuraApiBase.value)
    else if IsSet(env.apiBaseUrl) then Trim(env.apiBaseUrl.value)
    else ""
  }

  /**
   * The second variable is consulted only when the first is unset or empty:
   * a first variable of spaces only yields "" (hence the default), whatever
   * the second holds.
   */
  lemma BlankKuraBaseHidesApiBaseUrl(env: Env)
    requires IsSet(env.kuraApiBase) && AllSpace(env.kuraApiBase.value)
    ensures ConfiguredBase(env) == ""
  {
  }

  /** `base.replace(/^http:\/\//i, "https://")`. */
  function ForceHttps(base: string): (r: string)
    ensures StartsWithIgnoringCase(base, "http://") ==> r == "https://" + base[7..]
    ensures !StartsWithIgnoringCase(base, "http://") ==> r == base
  {
    if StartsWithIgnoringCase(base, "http://") then "https://" + base[7..] else base
  }

  /** An `https://` prefix never matches `^http://`, in any letter case. */
  lemma HttpsIsNotHttp(s: string)
    requires StartsWith(s, "https://")
    ensures !StartsWithIgnoringCase(s, "http://")
  {
    assert s[4] == 's' && AsciiLower(s[4]) != AsciiLower("http://"[4]);
  }

  /** Rewriting to HTTPS is idempotent. */
  lemma ForceHttpsIdempotent(base: string)
    ensures ForceHttps(ForceHttps(base)) == ForceHttps(base)
  {
    if StartsWithIgnoringCase(base, "http://") {
      HttpsIsNotHttp(ForceHttps(base));
    }
  }

  /** `base.endsWith("/") ? base.slice(0, -1) : base`: at most one trailing "/" removed, nothing else changed. */
  function StripTrailingSlash(base: string): (r: string)
    ensures r == base || r + "/" == base
    ensures r != base <==> (|base| > 0 && base[|base| - 1] == '/')
  {
    if |base| > 0 && base[|base| - 1] == '/' then base[..|base| - 1] else base
  }

  /** The defaults pass through the HTTPS rewrite and the slash trimming unchanged. */
  lemma DefaultsAreFinal()
    ensures ForceHttps(ProdDefault) == ProdDefault
    ensures StripTrailingSlash(ProdDefault) == ProdDefault && StripTrailingSlash(DevDefault) == DevDefault
  {
    HttpsIsNotHttp(ProdDefault);
  }

  /**
   * API_BASE as module initialisation computes it, reassigning `base` step
   * by step: the configured base or the build's default, forced to HTTPS
   * outside DEV, then one trailing "/" dropped.
   */
  method ResolveApiBase(env: Env) returns (apiBase: string)
    ensures ConfiguredBase(env) == "" && env.dev ==> apiBase == DevDefault
    ensures ConfiguredBase(env) == "" && !env.dev ==> apiBase == ProdDefault
    ensures ConfiguredBase(env) != "" && env.dev ==> apiBase == StripTrailingSlash(ConfiguredBase(env))
    ensures ConfiguredBase(env) != "" && !env.dev ==> apiBase == StripTrailingSlash(ForceHttps(ConfiguredBase(env)))
  {
    var base := ConfiguredBase(env);
    if base == "" {
      DefaultsAreFinal();
      base := if env.dev then DevDefault else ProdDefault;
    }
    if !env.dev {
      base := ForceHttps(base);
    }
    apiBase := StripTrailingSlash(base);
  }

  /**
   * `buildApiUrl(path)`: API_BASE, then the path with a "/" put in front of
   * it when it does not already start with one.
   */
  method BuildApiUrl(apiBase: string, path: string) returns (url: string)
    ensures |apiBase| < |url| && url[..|apiBase|] == apiBase && url[|apiBase|] == '/'
    ensures StartsWith(path, "/") ==> url[|apiBase|..] == path
    ensures !StartsWith(path, "/") ==> url[|apiBase| + 1..] == path
  {
    var p := path;
    if !StartsWith(p, "/") {
      p := "/" + p;
    }
    url := apiBase + p;
  }

  /** `buildApiUrl("x")` and `buildApiUrl("/x")` are the same URL. */
  method BuildApiUrlLeadingSlashOptional(apiBase: string, path: string) returns (bare: string, slashed: string)
    requires !StartsWith(path, "/")
    ensures bare == slashed == apiBase + "/" + path
  {
    bare := BuildApiUrl(apiBase, path);
    slashed := BuildApiUrl(apiBase, "/" + path);
    assert bare == bare[..|apiBase| + 1] + bare[|apiBase| + 1..];
    assert slashed == slashed[..|apiBase|] + slashed[|apiBase|..];
  }

  /** `apiHeaders(token)`: undefined for an empty token, else exactly the Basic authorisation header. */
  function ApiHeaders(token: string): (h: Option<map<string, string>>)
    ensures h.None? <==> token == ""
    ensures h.Some? ==> h.value == map["Authorization" := "Basic " + token]
  {
    if token == "" then None else Some(map["Authorization" := "Basic " + token])
  }
}
