/** `generateSiteMap`: one `<url>` record per index entry, in index order. */
module SiteMap {
  import opened Wrappers
  import opened Strings
  import opened Config
  import opened IndexMap

  /** One `<url>` element: its `<loc>` and, when the entry has a date, its
      `<lastmod>` text. */
  datatype UrlRecord = UrlRecord(loc: string, lastmod: Option<string>)

  /** The record the sitemap template builds for one index entry. */
  function UrlEntry(lib: Lib, base: string, slug: string, e: Entry): (u: UrlRecord)
    ensures u.loc == PageUrl(lib, base, slug)
    ensures u.lastmod.Some? <==> e.date.Some?
    ensures e.date.Some? ==> u.lastmod == Some(lib.toISOString(e.date.value))
  {
    UrlRecord(
      PageUrl(lib, base, slug),
      if e.date.Some? then Some(lib.toISOString(e.date.value)) else None)
  }

  /** The records of `Array.from(idx).map(...)`, one per entry, in insertion
      order. */
  function UrlRecords(lib: Lib, cfg: GlobalConfiguration, idx: Index): (r: seq<UrlRecord>)
    ensures |r| == |idx|
    ensures forall i :: 0 <= i < |idx| ==>
      && r[i].loc == PageUrl(lib, Base(cfg), idx[i].0)
      && (r[i].lastmod.Some? <==> idx[i].1.date.Some?)
      && (idx[i].1.date.Some? ==> r[i].lastmod.value == lib.toISOString(idx[i].1.date.value))
  {
    seq(|idx|, i requires 0 <= i < |idx| => UrlEntry(lib, Base(cfg), idx[i].0, idx[i].1))
  }

  /** The template text of one record. A missing date renders as the text
      `undefined`, as `${content.date && ...}` does. */
  function RenderUrl(u: UrlRecord): (r: string)
    ensures |r| > |"<url><loc>" + u.loc + "</loc>"| + |"</url>"|
    ensures r[..|"<url><loc>" + u.loc + "</loc>"|] == "<url><loc>" + u.loc + "</loc>"
    ensures r[|r| - |"</url>"|..] == "</url>"
    ensures u.lastmod.Some? ==>
      r[|"<url><loc>" + u.loc + "</loc>"|..|r| - |"</url>"|] == "<lastmod>" + u.lastmod.value + "</lastmod>"
    ensures u.lastmod.None? ==> r[|"<url><loc>" + u.loc + "</loc>"|..|r| - |"</url>"|] == "undefined"
  {
    "<url><loc>" + u.loc + "</loc>"
    + (match u.lastmod
       case Some(iso) => "<lastmod>" + iso + "</lastmod>"
       case None => "undefined")
    + "</url>"
  }

  const UrlsetOpen: string :=
    "<urlset xmlns=\"http://www.sitemaps.org/schemas/sitemap/0.9\" xmlns:xhtml=\"http://www.w3.org/1999/xhtml\">"
  const UrlsetClose: string := "</urlset>"

  function RenderUrls(us: seq<UrlRecord>): seq<string>
  {
    seq(|us|, i requires 0 <= i < |us| => RenderUrl(us[i]))
  }

  /** The joined `<url>` elements. */
  function SiteMapBody(lib: Lib, cfg: GlobalConfiguration, idx: Index): string
  {
    Concat(RenderUrls(UrlRecords(lib, cfg, idx)))
  }

  /** The sitemap document. */
  function GenerateSiteMap(lib: Lib, cfg: GlobalConfiguration, idx: Index): (r: string)
    ensures |r| == |UrlsetOpen| + |SiteMapBody(lib, cfg, idx)| + |UrlsetClose|
    ensures r[..|UrlsetOpen|] == UrlsetOpen
    ensures r[|UrlsetOpen|..|r| - |UrlsetClose|] == SiteMapBody(lib, cfg, idx)
    ensures r[|r| - |UrlsetClose|..] == UrlsetClose
  {
    UrlsetOpen + SiteMapBody(lib, cfg, idx) + UrlsetClose
  }

  /** The sitemap text of an index is the text of its first part followed by
      that of the rest: each entry is rendered on its own and in place. */
  lemma SiteMapBodyAppend(lib: Lib, cfg: GlobalConfiguration, a: Index, b: Index)
    ensures SiteMapBody(lib, cfg, a + b) == SiteMapBody(lib, cfg, a) + SiteMapBody(lib, cfg, b)
    ensures GenerateSiteMap(lib, cfg, a + b) ==
            UrlsetOpen + SiteMapBody(lib, cfg, a) + SiteMapBody(lib, cfg, b) + UrlsetClose
  {
    BodyAppend(lib, cfg, a, b);
    Wrapped(lib, cfg, a + b);
    Regroup3(UrlsetOpen, SiteMapBody(lib, cfg, a), SiteMapBody(lib, cfg, b), UrlsetClose);
  }

  lemma Regroup3(o: string, x: string, y: string, c: string)
    ensures o + (x + y) + c == o + x + y + c
  {
  }

  lemma Regroup5(o: string, a: string, p: string, b: string, l: string, c: string, z: string)
    ensures o + (a + p + b + l + c) + z == o + a + p + b + l + c + z
  {
  }

  lemma BodyAppend(lib: Lib, cfg: GlobalConfiguration, a: Index, b: Index)
    ensures SiteMapBody(lib, cfg, a + b) == SiteMapBody(lib, cfg, a) + SiteMapBody(lib, cfg, b)
  {
    var ra, rb := UrlRecords(lib, cfg, a), UrlRecords(lib, cfg, b);
    UrlRecordsAppend(lib, cfg, a, b);
    RenderUrlsAppend(ra, rb);
    ConcatAppend(RenderUrls(ra), RenderUrls(rb));
  }

  lemma Wrapped(lib: Lib, cfg: GlobalConfiguration, idx: Index)
    ensures GenerateSiteMap(lib, cfg, idx) == UrlsetOpen + SiteMapBody(lib, cfg, idx) + UrlsetClose
  {
  }

  lemma UrlRecordsAppend(lib: Lib, cfg: GlobalConfiguration, a: Index, b: Index)
    ensures UrlRecords(lib, cfg, a + b) == UrlRecords(lib, cfg, a) + UrlRecords(lib, cfg, b)
  {
  }

  lemma RenderUrlsAppend(a: seq<UrlRecord>, b: seq<UrlRecord>)
    ensures RenderUrls(a + b) == RenderUrls(a) + RenderUrls(b)
  {
  }

  lemma SingleBody(lib: Lib, cfg: GlobalConfiguration, slug: string, e: Entry)
    ensures SiteMapBody(lib, cfg, [(slug, e)]) == RenderUrl(UrlEntry(lib, Base(cfg), slug, e))
  {
    var u := UrlEntry(lib, Base(cfg), slug, e);
    assert UrlRecords(lib, cfg, [(slug, e)]) == [u];
    assert RenderUrls([u]) == [RenderUrl(u)];
    assert Concat([RenderUrl(u)]) == RenderUrl(u) + Concat([]);
  }

  /** A one-entry sitemap, written out. */
  lemma SiteMapSingle(lib: Lib, cfg: GlobalConfiguration, slug: string, e: Entry)
    ensures GenerateSiteMap(lib, cfg, [(slug, e)]) ==
      UrlsetOpen + "<url><loc>" + PageUrl(lib, Base(cfg), slug) + "</loc>"
      + (if e.date.Some? then "<lastmod>" + lib.toISOString(e.date.value) + "</lastmod>" else "undefined")
      + "</url>" + UrlsetClose
  {
    SingleBody(lib, cfg, slug, e);
    Wrapped(lib, cfg, [(slug, e)]);
    var u := UrlEntry(lib, Base(cfg), slug, e);
    var l := match u.lastmod
             case Some(iso) => "<lastmod>" + iso + "</lastmod>"
             case None => "undefined";
    assert RenderUrl(u) == "<url><loc>" + u.loc + "</loc>" + l + "</url>";
    Regroup5(UrlsetOpen, "<url><loc>", u.loc, "</loc>", l, "</url>", UrlsetClose);
  }
}
