/** `emitAll`: build the index, then the sitemap, the feed and the JSON
    payload from it, in that order. */
module Emitter {
  import opened Wrappers
  import opened Config
  import opened IndexMap
  import opened IndexBuilder
  import opened SiteMap
  import opened Feed
  import opened JsonIndex

  /** The body of an output file: generated text, or the object handed to
      `JSON.stringify`. */
  datatype Content = Text(text: string) | JsonObject(index: Index)

  /** The arguments of one `write` call. */
  datatype Artifact = Artifact(slug: string, ext: string, content: Content)

  /** What `emitAll` writes, in order. `now` is the time `new Date()` reads. */
  method EmitAll(lib: Lib, cfg: GlobalConfiguration, opts: Options, now: int, docs: seq<Document>)
    returns (outputs: seq<Artifact>)
    ensures var idx := IndexOf(lib, cfg, opts, now, docs);
      && |outputs| == (if opts.enableSiteMap then 1 else 0) + (if opts.enableRSS then 1 else 0) + 1
      && (opts.enableSiteMap ==>
            outputs[0] == Artifact("sitemap", ".xml", Text(GenerateSiteMap(lib, cfg, idx))))
      && (opts.enableRSS ==>
            outputs[|outputs| - 2] == Artifact(opts.rssSlug.GetOr("index"), ".xml",
                                               Text(GenerateRSSFeed(lib, cfg, opts, idx, opts.rssLimit))))
      && outputs[|outputs| - 1] == Artifact(lib.joinSegments("static", "contentIndex"), ".json",
                                            JsonObject(Simplify(idx)))
  {
    var linkIndex := BuildIndex(lib, cfg, opts, now, docs);
    outputs := [];
    if opts.enableSiteMap {
      outputs := outputs + [Artifact("sitemap", ".xml", Text(GenerateSiteMap(lib, cfg, linkIndex)))];
    }
    if opts.enableRSS {
      var rss := GenerateRSSFeed(lib, cfg, opts, linkIndex, opts.rssLimit);
      outputs := outputs + [Artifact(opts.rssSlug.GetOr("index"), ".xml", Text(rss))];
    }
    var fp := lib.joinSegments("static", "contentIndex");
    outputs := outputs + [Artifact(fp, ".json", JsonObject(Simplify(linkIndex)))];
  }

  /** An entry's sitemap `<loc>` and its feed `<link>` and `<guid>` are the
      same address. */
  lemma SameUrlEverywhere(lib: Lib, cfg: GlobalConfiguration, idx: Index, limit: Option<int>, j: nat)
    requires j < |FeedItems(lib, cfg, idx, limit)|
    ensures var it := FeedItems(lib, cfg, idx, limit)[j];
      exists i :: 0 <= i < |idx| && SortForFeed(idx)[j] == idx[i] &&
                  it.link == UrlRecords(lib, cfg, idx)[i].loc && it.guid == it.link
  {
    var p := SortForFeed(idx)[j];
    assert p in multiset(SortForFeed(idx));
    assert p in multiset(idx);
    var i :| 0 <= i < |idx| && idx[i] == p;
    assert UrlRecords(lib, cfg, idx)[i].loc == PageUrl(lib, Base(cfg), p.0);
  }

  /** On a built index every entry is dated, so every sitemap record has a
      `<lastmod>`, every feed item a `<pubDate>`, and the feed runs newest
      first throughout. */
  lemma BuiltIndexOutputsDated(lib: Lib, cfg: GlobalConfiguration, opts: Options, now: int, docs: seq<Document>, limit: Option<int>)
    ensures var idx := IndexOf(lib, cfg, opts, now, docs);
      && (forall i :: 0 <= i < |idx| ==> UrlRecords(lib, cfg, idx)[i].lastmod.Some?)
      && (forall j :: 0 <= j < |FeedItems(lib, cfg, idx, limit)| ==> FeedItems(lib, cfg, idx, limit)[j].pubDate.Some?)
      && (forall j :: 0 <= j < |idx| ==> SortForFeed(idx)[j].1.date.Some?)
      && (forall i, j :: 0 <= i < j < |idx| ==>
            SortForFeed(idx)[i].1.date.value >= SortForFeed(idx)[j].1.date.value)
  {
    var idx := IndexOf(lib, cfg, opts, now, docs);
    IndexOfEntriesComplete(lib, cfg, opts, now, docs);
    var r := SortForFeed(idx);
    forall j | 0 <= j < |r| ensures r[j].1.date.Some? {
      assert r[j] in multiset(idx);
    }
    forall i, j | 0 <= i < j < |idx|
      ensures r[i].1.date.Some? && r[j].1.date.Some? && r[i].1.date.value >= r[j].1.date.value
    {
      FeedOrderGroups(idx, i, j);
    }
  }

  /** The generators must read the index before the payload is projected:
      on the projected index the sitemap would lose every `<lastmod>` and the
      feed every `<pubDate>`. */
  lemma ProjectionDropsDates(lib: Lib, cfg: GlobalConfiguration, idx: Index, limit: Option<int>)
    ensures forall i :: 0 <= i < |idx| ==> UrlRecords(lib, cfg, Simplify(idx))[i].lastmod.None?
    ensures forall j :: 0 <= j < |FeedItems(lib, cfg, Simplify(idx), limit)| ==>
              FeedItems(lib, cfg, Simplify(idx), limit)[j].pubDate.None?
  {
    var s := Simplify(idx);
    var r := SortForFeed(s);
    forall j | 0 <= j < |r| ensures r[j].1.date.None? {
      assert r[j] in multiset(s);
    }
  }
}
