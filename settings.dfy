/** The connection settings the importer is constructed with: which CRITs
    instance to talk to and how far back to ask the feed. */
module Settings {
  import opened Collections

  /** The values read from the configuration file. */
  datatype ConfigFile = ConfigFile(
    otxApiKey: string,
    otxUrl: string,
    critsProdUrl: string,
    critsDevUrl: string,
    critsUsername: string,
    critsProdApiKey: string,
    critsDevApiKey: string,
    critsSource: string)

  /** The resolved settings of one run. `modifiedSince` is the already
      formatted cut-off timestamp, when the run filters by age. */
  datatype Config = Config(
    otxApiKey: string,
    otxUrl: string,
    critsUrl: string,
    critsUsername: string,
    critsApiKey: string,
    critsSource: string,
    modifiedSince: Option<string>)

  /** Drops one trailing '/' from a non-empty URL. */
  function StripTrailingSlash(url: string): (r: string)
    requires url != []
    ensures r == url || r + "/" == url
    ensures url[|url| - 1] == '/' <==> r != url
  {
    if url[|url| - 1] == '/' then url[..|url| - 1] else url
  }

  /** Only one slash goes: a URL given with a doubled trailing slash keeps
      the second one. */
  lemma StripTrailingSlashOnce(base: string)
    ensures StripTrailingSlash(base + "/") == base
    ensures StripTrailingSlash(base + "//") == base + "/"
  {
  }

  /** The constructor: the dev flag swaps in the dev URL and key together,
      one trailing slash is removed from the chosen URL (an empty URL makes
      the source fail on `crits_url[-1]`, modelled as None), and a non-zero
      age in days turns into a `modified_since` filter at `cutoff`. */
  function NewConfig(file: ConfigFile, dev: bool, days: Option<int>, cutoff: string): (r: Option<Config>)
    ensures r.None? <==> (if dev then file.critsDevUrl else file.critsProdUrl) == ""
    ensures r.Some? ==>
      && (dev ==> r.value.critsApiKey == file.critsDevApiKey && r.value.critsUrl == StripTrailingSlash(file.critsDevUrl))
      && (!dev ==> r.value.critsApiKey == file.critsProdApiKey && r.value.critsUrl == StripTrailingSlash(file.critsProdUrl))
      && (r.value.modifiedSince.Some? <==> days.Some? && days.value != 0)
      && (r.value.modifiedSince.Some? ==> r.value.modifiedSince.value == cutoff)
    ensures r.Some? ==>
      && r.value.otxApiKey == file.otxApiKey && r.value.otxUrl == file.otxUrl
      && r.value.critsUsername == file.critsUsername && r.value.critsSource == file.critsSource
  {
    var url := if dev then file.critsDevUrl else file.critsProdUrl;
    var key := if dev then file.critsDevApiKey else file.critsProdApiKey;
    if url == "" then None
    else
      var since := if days.Some? && days.value != 0 then Some(cutoff) else None;
      Some(Config(file.otxApiKey, file.otxUrl, StripTrailingSlash(url), file.critsUsername,
                  key, file.critsSource, since))
  }
}
