/**
 * The application URL helpers (src/lib/utils/app-url.ts). Whether the code
 * runs in a browser, the browser's origin and the `NEXT_PUBLIC_APP_URL`
 * variable are not read from the environment: they are a parameter.
 */
module AppUrl {
  import opened Wrappers
  import opened Text

  /** Where `getAppUrl` runs: in a browser with its `window.location.origin`,
      or on the server with the variable's value if it is set. */
  datatype Environment = Browser(origin: string) | Server(appUrlVariable: Option<string>)

  const DefaultAppUrl := "http://localhost:3000"

  /** `getAppUrl`: the browser's origin, or the variable on the server unless
      it is missing or empty, in which case the local default. */
  function GetAppUrl(env: Environment): (appUrl: string)
    ensures env.Browser? ==> appUrl == env.origin
    ensures env.Server? && Truthy(env.appUrlVariable) ==> appUrl == env.appUrlVariable.value
    ensures env.Server? && !Truthy(env.appUrlVariable) ==> appUrl == DefaultAppUrl
    ensures env.Server? ==> appUrl != ""
  {
    match env
    case Browser(origin) => origin
    case Server(variable) => Or(variable, DefaultAppUrl)
  }

  predicate StartsWithSlash(path: string) {
    path != [] && path[0] == '/'
  }

  /** The path with a '/' put in front unless it already starts with one. */
  function NormalizePath(path: string): (normalized: string)
    ensures StartsWithSlash(normalized)
    ensures StartsWithSlash(path) ==> normalized == path
    ensures !StartsWithSlash(path) ==> |normalized| == |path| + 1 && normalized[1..] == path
  {
    if StartsWithSlash(path) then path else "/" + path
  }

  /** Normalising twice is normalising once. */
  lemma NormalizeIdempotent(path: string)
    ensures NormalizePath(NormalizePath(path)) == NormalizePath(path)
  {
  }

  /** `getFullUrl`: the application URL followed by the normalised path. */
  function GetFullUrl(env: Environment, path: string): (url: string)
  {
    GetAppUrl(env) + NormalizePath(path)
  }

  /** The full URL begins with the application URL, then a '/', and ends
      with the path itself. */
  lemma FullUrlShape(env: Environment, path: string)
    ensures var url := GetFullUrl(env, path);
      GetAppUrl(env) <= url
      && url[|GetAppUrl(env)|] == '/'
      && |path| <= |url| && url[|url| - |path|..] == path
  {
    var app := GetAppUrl(env);
    var n := NormalizePath(path);
    var url := app + n;
    assert url == GetFullUrl(env, path);
    assert url[..|app|] == app;
    assert url[|app|] == n[0] == '/';
    if StartsWithSlash(path) {
      assert n == path;
    } else {
      assert n[|n| - |path|..] == n[1..] == path;
    }
    assert url[|url| - |path|..] == n[|n| - |path|..];
  }

  /** Writing the leading '/' or leaving it out gives the same URL, and only
      then: a path that already starts with '/' gets a second one. */
  lemma LeadingSlashOptional(env: Environment, path: string)
    ensures GetFullUrl(env, "/" + path) == GetFullUrl(env, path) <==> !StartsWithSlash(path)
  {
    var app := GetAppUrl(env);
    if StartsWithSlash(path) {
      assert |GetFullUrl(env, "/" + path)| == |app| + |path| + 1;
      assert |GetFullUrl(env, path)| == |app| + |path|;
    }
  }
}
