/**
 * The source-selection logic of the autopkg processor `OnePasswordURLProvider`:
 * from a decoded 1Password update manifest, pick the first download source whose
 * name equals the requested label and yield its URL, or one of two errors.
 */
module OnePasswordURLProvider {
  import opened Wrappers

  /** Default update-check endpoint (`UPDATE_URL`). */
  const UpdateUrl: string := "https://app-updates.agilebits.com/check/1/13.0.0/OPM4/en/400600"

  /** Default download source (`DEFAULT_SOURCE`). */
  const DefaultSource: string := "Amazon CloudFront"

  /** One entry of the manifest's `sources` list; `name` is required, `url` may be missing. */
  datatype Source = Source(name: string, url: Option<string>)

  /** The decoded manifest; both keys may be missing, unknown keys are dropped. */
  datatype Manifest = Manifest(version: Option<string>, sources: Option<seq<Source>>)

  /** The three `ProcessorError`s the processor can raise. */
  datatype Error =
    | FetchError(baseUrl: string, cause: string)
    | NoUrlFound(source: string)
    | NoDownloadSource(source: string)

  /**
   * The text of the `ProcessorError` raised for each error: a lookup error's
   * message ends with the requested source, a fetch error's names the URL.
   */
  function Message(e: Error): (m: string)
    ensures !e.FetchError? ==> |m| > |e.source| && m[|m| - |e.source|..] == e.source
    ensures e.FetchError? ==> |m| > 15 + |e.baseUrl| && m[15..15 + |e.baseUrl|] == e.baseUrl
  {
    match e
    case FetchError(baseUrl, cause) => "Can't download " + baseUrl + ": " + cause
    case NoUrlFound(source) => "No URL found for " + source
    case NoDownloadSource(source) => "No download source for " + source
  }

  /** `info_plist.get('sources', [])`: a manifest without `sources` has none. */
  function SourceList(m: Manifest): seq<Source> {
    m.sources.GetOr([])
  }

  /** Python truthiness of `found_source.get('url', None)`: present and non-empty. */
  predicate UsableUrl(u: Option<string>) {
    u.Some? && u.value != ""
  }

  /**
   * `next((s for s in sources if s['name'] == preferred), None)`, as the index
   * of the first source whose name equals `preferred` exactly.
   */
  function FirstMatch(ss: seq<Source>, preferred: string): (r: Option<nat>)
    ensures r.Some? ==> r.value < |ss| && ss[r.value].name == preferred
    ensures r.Some? ==> forall j :: 0 <= j < r.value ==> ss[j].name != preferred
    ensures r.None? <==> forall j :: 0 <= j < |ss| ==> ss[j].name != preferred
  {
    if |ss| == 0 then None
    else if ss[0].name == preferred then Some(0)
    else match FirstMatch(ss[1..], preferred)
      case None => None
      case Some(i) => Some(i + 1)
  }

  /**
   * The lookup half of `get_1Password_dmg_url`, on an already decoded manifest.
   * A success is the non-empty URL of a source carrying the requested name; a
   * failure names the requested source.
   */
  function DmgUrl(m: Manifest, preferred: string): (r: Result<string, Error>)
    ensures r.Success? ==> r.value != ""
    ensures r.Success? ==> exists i :: 0 <= i < |SourceList(m)| && SourceList(m)[i].name == preferred
                                         && SourceList(m)[i].url == Some(r.value)
    ensures r.Failure? ==> r.error == NoUrlFound(preferred) || r.error == NoDownloadSource(preferred)
  {
    var ss := SourceList(m);
    match FirstMatch(ss, preferred)
    case None => Failure(NoDownloadSource(preferred))
    case Some(i) =>
      if UsableUrl(ss[i].url) then Success(ss[i].url.value) else Failure(NoUrlFound(preferred))
  }

  /**
   * `download_update_info`: the outcome of fetching and decoding `baseUrl`
   * (a decoded manifest, or the text of the exception) with any failure
   * turned into a `ProcessorError` that names the URL.
   */
  function DownloadUpdateInfo(baseUrl: string, fetched: Result<Manifest, string>): (r: Result<Manifest, Error>)
    ensures r.Failure? <==> fetched.Failure?
    ensures fetched.Success? ==> r.value == fetched.value
    ensures fetched.Failure? ==> r.error == FetchError(baseUrl, fetched.error)
  {
    match fetched
    case Success(m) => Success(m)
    case Failure(cause) => Failure(FetchError(baseUrl, cause))
  }

  /**
   * `get_1Password_dmg_url`: download, then look up. A fetch error is reported
   * exactly when the fetch failed, and the lookup runs only on a fetched manifest.
   */
  function Get1PasswordDmgUrl(baseUrl: string, preferred: string, fetched: Result<Manifest, string>)
    : (r: Result<string, Error>)
    ensures (r.Failure? && r.error.FetchError?) <==> fetched.Failure?
    ensures fetched.Failure? ==> r == Failure(FetchError(baseUrl, fetched.error))
    ensures fetched.Success? ==> r == DmgUrl(fetched.value, preferred)
  {
    match DownloadUpdateInfo(baseUrl, fetched)
    case Failure(e) => Failure(e)
    case Success(m) => DmgUrl(m, preferred)
  }

  /** `self.env.get(key, default)`. */
  function EnvGet(env: map<string, string>, key: string, default: string): string {
    if key in env then env[key] else default
  }

  /** The processor, holding the host framework's shared variables. */
  class Provider {
    var env: map<string, string>

    constructor (env0: map<string, string>)
      ensures env == env0
    {
      env := env0;
    }

    /**
     * `main` (the processor entry point): resolve `base_url` and `source` from `env` (with their defaults),
     * fetch the manifest with `fetch` and store the found URL under `url`.
     * On any failure nothing in `env` changes and the error is returned,
     * standing for the raised `ProcessorError`.
     */
    method Run(fetch: string -> Result<Manifest, string>) returns (outcome: Result<string, Error>)
      modifies this
      ensures var baseUrl := EnvGet(old(env), "base_url", UpdateUrl);
              outcome == Get1PasswordDmgUrl(baseUrl, EnvGet(old(env), "source", DefaultSource), fetch(baseUrl))
      ensures "base_url" !in old(env) ==> outcome == Get1PasswordDmgUrl(UpdateUrl, EnvGet(old(env), "source", DefaultSource), fetch(UpdateUrl))
      ensures "source" !in old(env) ==> outcome == Get1PasswordDmgUrl(EnvGet(old(env), "base_url", UpdateUrl), DefaultSource, fetch(EnvGet(old(env), "base_url", UpdateUrl)))
      ensures outcome.Success? ==> env == old(env)["url" := outcome.value] && env["url"] != ""
      ensures outcome.Failure? ==> env == old(env)
    {
      var baseUrl := EnvGet(env, "base_url", UpdateUrl);
      var source := EnvGet(env, "source", DefaultSource);
      outcome := Get1PasswordDmgUrl(baseUrl, source, fetch(baseUrl));
      if outcome.Success? {
        env := env["url" := outcome.value];
      }
    }
  }
}
