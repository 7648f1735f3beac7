/** What the processor promises about source selection, stated over the model. */
module Properties {
  import opened Wrappers
  import opened OnePasswordURLProvider

  /** The first source carrying the requested name is the one `FirstMatch` finds. */
  lemma FirstMatchAt(ss: seq<Source>, preferred: string, i: nat)
    requires i < |ss| && ss[i].name == preferred
    requires forall j :: 0 <= j < i ==> ss[j].name != preferred
    ensures FirstMatch(ss, preferred) == Some(i)
  {
  }

  /** If the first source named `preferred` has a non-empty url, that url is the result. */
  lemma FirstUsableMatchIsReturned(m: Manifest, preferred: string, i: nat)
    requires i < |SourceList(m)| && SourceList(m)[i].name == preferred
    requires forall j :: 0 <= j < i ==> SourceList(m)[j].name != preferred
    requires UsableUrl(SourceList(m)[i].url)
    ensures DmgUrl(m, preferred) == Success(SourceList(m)[i].url.value)
  {
  }

  /**
   * First match wins: whatever follows the first source named `preferred`
   * (including other sources of that name, usable or not) has no effect.
   */
  lemma FirstMatchWins(version: Option<string>, before: seq<Source>, found: Source, after: seq<Source>, preferred: string)
    requires forall j :: 0 <= j < |before| ==> before[j].name != preferred
    requires found.name == preferred
    ensures var ss := before + [found] + after;
            DmgUrl(Manifest(version, Some(ss)), preferred)
            == if UsableUrl(found.url) then Success(found.url.value) else Failure(NoUrlFound(preferred))
  {
    var ss := before + [found] + after;
    forall j | 0 <= j < |before| ensures ss[j].name != preferred {
      assert ss[j] == before[j];
    }
    assert ss[|before|] == found;
    FirstMatchAt(ss, preferred, |before|);
  }

  /** A first match without a usable url fails, even when a later one of that name has a url. */
  lemma ShadowedUrlIsIgnored(version: Option<string>, before: seq<Source>, emptyUrl: Option<string>, later: string, preferred: string)
    requires forall j :: 0 <= j < |before| ==> before[j].name != preferred
    requires !UsableUrl(emptyUrl) && later != ""
    ensures DmgUrl(Manifest(version, Some(before + [Source(preferred, emptyUrl)] + [Source(preferred, Some(later))])), preferred)
            == Failure(NoUrlFound(preferred))
  {
    FirstMatchWins(version, before, Source(preferred, emptyUrl), [Source(preferred, Some(later))], preferred);
  }

  /** "No download source" is reported exactly when no source carries the requested name. */
  lemma NoDownloadSourceIff(m: Manifest, preferred: string)
    ensures DmgUrl(m, preferred) == Failure(NoDownloadSource(preferred))
            <==> forall j :: 0 <= j < |SourceList(m)| ==> SourceList(m)[j].name != preferred
  {
  }

  /** "No URL found" is reported exactly when the first source with the name has no usable url. */
  lemma NoUrlFoundIff(m: Manifest, preferred: string)
    ensures DmgUrl(m, preferred) == Failure(NoUrlFound(preferred))
            <==> exists i :: 0 <= i < |SourceList(m)| && SourceList(m)[i].name == preferred
                             && (forall j :: 0 <= j < i ==> SourceList(m)[j].name != preferred)
                             && !UsableUrl(SourceList(m)[i].url)
  {
  }

  /** A manifest without a `sources` key always fails with "No download source". */
  lemma MissingSourcesKey(version: Option<string>, preferred: string)
    ensures DmgUrl(Manifest(version, None), preferred) == Failure(NoDownloadSource(preferred))
  {
  }

  /** The `version` key, present or not, never changes the outcome. */
  lemma VersionIsIrrelevant(m: Manifest, version: Option<string>, preferred: string)
    ensures DmgUrl(m.(version := version), preferred) == DmgUrl(m, preferred)
  {
  }

  /** Matching is case-sensitive: a lower-case name does not match the default source. */
  lemma MatchIsCaseSensitive()
    ensures DmgUrl(Manifest(None, Some([Source("amazon cloudfront", Some("https://cdn.example/a.dmg"))])), DefaultSource)
            == Failure(NoDownloadSource(DefaultSource))
  {
  }

  /** The two lookup errors have different messages, and each message names the requested source. */
  lemma LookupMessagesDiffer(a: string, b: string)
    ensures Message(NoUrlFound(a)) != Message(NoDownloadSource(b))
    ensures Message(NoUrlFound(a))[|"No URL found for "|..] == a
    ensures Message(NoDownloadSource(b))[|"No download source for "|..] == b
  {
    assert Message(NoUrlFound(a))[3] == 'U';
    assert Message(NoDownloadSource(b))[3] == 'd';
  }

  /** A failed fetch is reported as such, naming the URL, and the lookup never runs. */
  lemma FetchFailureStopsLookup(baseUrl: string, preferred: string, cause: string)
    ensures Get1PasswordDmgUrl(baseUrl, preferred, Failure(cause)) == Failure(FetchError(baseUrl, cause))
    ensures Message(Get1PasswordDmgUrl(baseUrl, preferred, Failure(cause)).error)
            == "Can't download " + baseUrl + ": " + cause
  {
  }

  /** The example manifest with two sources. */
  function TwoSourceManifest(): Manifest {
    Manifest(Some("4.6.2"), Some([Source("Amazon CloudFront", Some("https://cdn.example/a.dmg")),
                                  Source("CacheFly", Some("https://cf.example/a.dmg"))]))
  }

  /** Requesting the second source yields its url. */
  lemma SecondSourceSelected()
    ensures DmgUrl(TwoSourceManifest(), "CacheFly") == Success("https://cf.example/a.dmg")
  {
  }

  /** Requesting a source the manifest does not list fails with "No download source". */
  lemma AbsentSourceRejected()
    ensures DmgUrl(TwoSourceManifest(), "AgileBits") == Failure(NoDownloadSource("AgileBits"))
  {
  }

  /** An empty url for the default source fails with "No URL found". */
  lemma EmptyDefaultUrlRejected()
    ensures DmgUrl(Manifest(None, Some([Source(DefaultSource, Some(""))])), DefaultSource)
            == Failure(NoUrlFound(DefaultSource))
  {
  }

  /**
   * The default request on an empty environment: the update URL is fetched,
   * its manifest lists the default source with an empty url, and the run fails
   * with "No URL found" for "Amazon CloudFront".
   */
  method DefaultRequestEmptyUrl() returns (outcome: Result<string, Error>, env: map<string, string>)
    ensures outcome == Failure(NoUrlFound("Amazon CloudFront"))
    ensures env == map[]
  {
    var p := new Provider(map[]);
    var fetch := (u: string) =>
      if u == UpdateUrl then Success(Manifest(None, Some([Source("Amazon CloudFront", Some(""))])))
      else Failure("unreachable host");
    outcome := p.Run(fetch);
    env := p.env;
  }
}
