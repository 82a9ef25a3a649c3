/** The configuration the emitter reads and the library calls it makes,
    passed in explicitly. */
module Config {
  import opened Wrappers
  import Strings

  /** The document's syntax tree (a hast `Root`); only `toHtml` looks inside. */
  type Tree

  /** The library functions the emitter calls and whose code is not part of
      this model; a date is its `getTime()` value in milliseconds. */
  datatype Lib = Lib(
    escapeHTML: string -> string,
    simplifySlug: string -> string,
    encodeURI: string -> string,
    joinSegments: (string, string) -> string,
    toHtml: Tree -> string,
    toISOString: int -> string,
    toUTCString: int -> string)

  /** The fields of Quartz's global configuration that the emitter reads. */
  datatype GlobalConfiguration = GlobalConfiguration(
    baseUrl: Option<string>,
    pageTitle: Option<string>,
    defaultDateType: Option<string>)

  /** The plugin options, after defaults have been merged in. */
  datatype Options = Options(
    enableSiteMap: bool,
    enableRSS: bool,
    rssLimit: Option<int>,
    rssFullHtml: bool,
    rssSlug: Option<string>,
    includeEmptyFiles: bool,
    rssRecentNotesText: Option<string>,
    rssLastFewNotesText: Option<int -> string>)

  /** The default "last few notes" phrase for a count. */
  function DefaultLastFewNotesText(count: int): (r: string)
    ensures |r| > |"Last  notes"|
    ensures r[..5] == "Last " && r[|r| - 6..] == " notes"
    ensures r[5..|r| - 6] == Strings.IntToString(count)
  {
    "Last " + Strings.IntToString(count) + " notes"
  }

  const DefaultOptions: Options := Options(
    true, true, Some(10), false, Some("index"), true,
    Some("Recent notes"), Some(DefaultLastFewNotesText))

  /** The defaults: sitemap and feed on, ten feed items, plain descriptions,
      the feed at `index`, empty files included, and the two phrases. */
  lemma DefaultOptionsValues()
    ensures DefaultOptions.enableSiteMap && DefaultOptions.enableRSS
    ensures DefaultOptions.rssLimit == Some(10)
    ensures !DefaultOptions.rssFullHtml
    ensures DefaultOptions.rssSlug == Some("index")
    ensures DefaultOptions.includeEmptyFiles
    ensures DefaultOptions.rssRecentNotesText == Some("Recent notes")
    ensures DefaultOptions.rssLastFewNotesText.Some? &&
            DefaultOptions.rssLastFewNotesText.value(10) == "Last 10 notes"
  {
    assert Strings.NatToString(10) == Strings.NatToString(1) + "0";
  }

  /** The configured base URL, or the empty string. */
  function Base(cfg: GlobalConfiguration): string
  {
    cfg.baseUrl.GetOr("")
  }

  /** The absolute address of a page: the sitemap `loc` and the feed
      `link` and `guid` all use this. */
  function PageUrl(lib: Lib, base: string, slug: string): (r: string)
    ensures |r| >= 8 && r[..8] == "https://"
    ensures r[8..] == lib.joinSegments(base, lib.encodeURI(lib.simplifySlug(slug)))
  {
    "https://" + lib.joinSegments(base, lib.encodeURI(lib.simplifySlug(slug)))
  }
}
