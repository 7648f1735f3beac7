# 1Password URL provider: source selection

A model of the autopkg processor `OnePasswordURLProvider`. The processor downloads
the 1Password update manifest, which holds an optional `version` and an optional
list of `sources`, each with a `name` and possibly a `url`. It picks the first
source whose name equals the requested label, exactly and case-sensitively, and
returns that source's url. It fails with "No download source for X" when no source
has that name. It fails with "No URL found for X" when the first such source has a
missing or empty url. Its `main` method reads `base_url` and `source` from the
framework's environment, falling back to `UPDATE_URL` and `DEFAULT_SOURCE`, and
writes the result under `url`.

Files:
- `wrappers.dfy`: `Option` and `Result`.
- `one_password_url_provider.dfy`: the manifest datatypes, the errors and their
  messages, the first-match search, the lookup, the fetch wrapping, and the
  `Provider` class whose `Run` method, the processor's `main`, updates `env`.
- `properties.dfy`: lemmas stating the selection rules, the error cases and the
  example manifests.

The network fetch and JSON decoding happen in `download_update_info`, which
`get_1Password_dmg_url` calls. In the model, `Run` takes the fetch as a parameter
`fetch: string -> Result<Manifest, string>` and applies it to the resolved base URL.
For each URL, `fetch` gives either the decoded manifest or the text of the exception.
A raised `ProcessorError` is modelled as a `Failure` result. `Run` returns that
result and leaves `env` untouched when it is a failure.

## Model

| member | source | states |
|---|---|---|
| OnePasswordURLProvider.FirstMatch | AgileBits/OnePasswordURLProvider.py:72 | the index returned holds a source whose name equals the label and no earlier source has that name; no index is returned exactly when no source has that name |
| OnePasswordURLProvider.DmgUrl | AgileBits/OnePasswordURLProvider.py:67-79 | a success is a non-empty url of a source carrying the requested name; every failure is one of the two lookup errors and names the requested source |
| OnePasswordURLProvider.Get1PasswordDmgUrl | AgileBits/OnePasswordURLProvider.py:50-79 | a fetch error is reported exactly when the fetch failed, and it names the URL; on a fetched manifest the result is the lookup result |
| OnePasswordURLProvider.Provider.Run | AgileBits/OnePasswordURLProvider.py:81-84 | missing `base_url` and `source` default to the update URL and "Amazon CloudFront"; the manifest fetched is the one at the resolved base URL; on success only `env["url"]` changes and it holds the non-empty url; on failure `env` is unchanged |
| OnePasswordURLProvider.Message | AgileBits/OnePasswordURLProvider.py:56-79 | a lookup error's message ends with the requested source name; a fetch error's message contains the URL right after "Can't download " |
| OnePasswordURLProvider.DownloadUpdateInfo | AgileBits/OnePasswordURLProvider.py:50-58 | the result is a failure exactly when the fetch failed; a decoded manifest passes through unchanged; a failure becomes a fetch error carrying the URL and the cause |
| Properties.FirstMatchAt | AgileBits/OnePasswordURLProvider.py:72 | the first source carrying the label is the one the search finds |
| Properties.FirstUsableMatchIsReturned | AgileBits/OnePasswordURLProvider.py:72-77 | if the first source named the label has a non-empty url, the result is exactly that url |
| Properties.FirstMatchWins | AgileBits/OnePasswordURLProvider.py:72-77 | the sources after the first match have no effect, including later sources with the same name |
| Properties.ShadowedUrlIsIgnored | AgileBits/OnePasswordURLProvider.py:72-76 | a first match with a missing or empty url fails with "No URL found" even if a later source of that name has a url |
| Properties.NoDownloadSourceIff | AgileBits/OnePasswordURLProvider.py:78-79 | "No download source" is the outcome if and only if no source has the requested name |
| Properties.NoUrlFoundIff | AgileBits/OnePasswordURLProvider.py:73-76 | "No URL found" is the outcome if and only if the first source with the name has a missing or empty url |
| Properties.MissingSourcesKey | AgileBits/OnePasswordURLProvider.py:71 | a manifest without `sources` behaves as an empty list and always fails with "No download source" |
| Properties.VersionIsIrrelevant | AgileBits/OnePasswordURLProvider.py:68-69 | the `version` value, or its absence, never changes the outcome |
| Properties.MatchIsCaseSensitive | AgileBits/OnePasswordURLProvider.py:72 | a source named "amazon cloudfront" does not satisfy a request for "Amazon CloudFront" |
| Properties.LookupMessagesDiffer | AgileBits/OnePasswordURLProvider.py:76-79 | the two lookup error messages differ from each other, and each ends with the requested source name |
| Properties.FetchFailureStopsLookup | AgileBits/OnePasswordURLProvider.py:52-56 | a failed download becomes an error with the message "Can't download <url>: <cause>", and no lookup happens |
| Properties.SecondSourceSelected | AgileBits/OnePasswordURLProvider.py:72-77 | with sources Amazon CloudFront and CacheFly, requesting CacheFly returns the CacheFly url |
| Properties.AbsentSourceRejected | AgileBits/OnePasswordURLProvider.py:78-79 | in the same manifest, requesting AgileBits fails with "No download source" |
| Properties.DefaultRequestEmptyUrl | AgileBits/OnePasswordURLProvider.py:82-84 | on an empty environment the update URL is fetched and "Amazon CloudFront" requested; when that source's url is empty the run fails with "No URL found" and the environment stays empty |
| Properties.EmptyDefaultUrlRejected | AgileBits/OnePasswordURLProvider.py:74-76 | a default source with an empty url fails with "No URL found" |

## Left out

- The HTTP request and the JSON decoding (`urllib2.urlopen`, `json.load`) are network I/O and a foreign library. They are the `fetch` parameter, and the exception's text is an opaque string.
- Log lines written through `self.output` are diagnostics only: the preferred source, the version found and the final URL.
- The processor framework is host plumbing: input and output variable declarations, `execute_shell`, and the base class.
- A source record without a `name` key makes Python raise an uncaught `KeyError` when the search reaches it. That happens if the record comes before the first match, or if nothing matches. A nameless record after the first match is never read, and the call succeeds. In the model `name` is a required field, so neither case is represented.
- Manifests whose `sources`, `name` or `url` are not JSON strings or lists are not modelled. Examples are `null` sources or a numeric url. The model's types admit only well-typed manifests.
- A decoded document that is not a JSON object, such as a list or a number, is not modelled. There `info_plist.get` raises `AttributeError` outside the `try` of `download_update_info`. That failure is neither a "Can't download" error nor a lookup error, and `Result<Manifest, string>` cannot express it.
- The check `if found_source:` is always true for a matched record, because that record has a `name` key and so is a non-empty dict. The model treats a match as found.
