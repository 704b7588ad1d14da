/** Where the extension finds its backend: the configured base URL with its
    trailing slashes removed, and the REST prefix derived from it. */
module ServerConfig {
  import opened Wrappers

  /** Used when the build environment leaves the base URL unset. */
  const DEFAULT_SERVER_BASE_URL: string := "http://localhost:3001"

  /** `raw.replace(/\/+$/, "")`: the longest prefix of `raw` that does not
      end in `/`, every character cut off being a `/`. */
  function StripTrailingSlashes(raw: string): (r: string)
    ensures |r| <= |raw| && r == raw[..|r|]
    ensures r == [] || r[|r| - 1] != '/'
    ensures forall k :: |r| <= k < |raw| ==> raw[k] == '/'
  {
    if raw != [] && raw[|raw| - 1] == '/' then StripTrailingSlashes(raw[..|raw| - 1])
    else raw
  }

  /** `SERVER_BASE_URL`, given the build-time environment value. */
  function ServerBaseUrl(env: Option<string>): (r: string)
    ensures r == [] || r[|r| - 1] != '/'
  {
    StripTrailingSlashes(env.GetOr(DEFAULT_SERVER_BASE_URL))
  }

  /** `API_BASE_URL`: the server base followed by `/api`, joined by exactly
      one slash. */
  function ApiBaseUrl(env: Option<string>): (r: string)
    ensures |r| >= 4 && r[|r| - 4..] == "/api"
    ensures r[..|r| - 4] == ServerBaseUrl(env)
    ensures |r| > 4 ==> r[|r| - 5] != '/'
  {
    ServerBaseUrl(env) + "/api"
  }

  /** A URL without a trailing slash is left as it is. */
  lemma NoTrailingSlashUnchanged(raw: string)
    requires raw == [] || raw[|raw| - 1] != '/'
    ensures StripTrailingSlashes(raw) == raw
  {
  }

  /** Normalising twice is normalising once. */
  lemma StripIdempotent(raw: string)
    ensures StripTrailingSlashes(StripTrailingSlashes(raw)) == StripTrailingSlashes(raw)
  {
    NoTrailingSlashUnchanged(StripTrailingSlashes(raw));
  }

  /** Only the trailing run of slashes goes: appending slashes to a URL that
      does not end in one normalises back to that URL. */
  lemma {:induction false} StripRemovesOnlyTrailingSlashes(base: string, n: nat)
    requires base == [] || base[|base| - 1] != '/'
    ensures StripTrailingSlashes(base + seq(n, _ => '/')) == base
    decreases n
  {
    if n > 0 {
      var slashes := seq(n, _ => '/');
      assert (base + slashes)[..|base + slashes| - 1] == base + seq(n - 1, _ => '/');
      StripRemovesOnlyTrailingSlashes(base, n - 1);
    }
  }

  /** With no environment value the base is the local development server. */
  lemma DefaultBase()
    ensures ServerBaseUrl(None) == "http://localhost:3001"
    ensures ApiBaseUrl(None) == "http://localhost:3001/api"
  {
    NoTrailingSlashUnchanged(DEFAULT_SERVER_BASE_URL);
  }
}
