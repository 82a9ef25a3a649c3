/** Building the content index from the processed documents: the loop of
    `emitAll` and `getDate`. */
module IndexBuilder {
  import opened Wrappers
  import opened Config
  import opened IndexMap

  /** A processed document: its tree and the fields of `file.data` the
      emitter reads (`frontmatter.title` and `frontmatter.tags` flattened);
      a field the document lacks is `None`. */
  datatype Document = Document(
    tree: Tree,
    slug: string,
    relativePath: string,
    title: Option<string>,
    tags: Option<seq<string>>,
    links: Option<seq<string>>,
    text: Option<string>,
    description: Option<string>,
    dates: Option<map<string, int>>)

  /** The configured date kind, `modified` by default. */
  function DateKind(cfg: GlobalConfiguration): string
  {
    cfg.defaultDateType.GetOr("modified")
  }

  /** `getDate`: the date of the configured kind, if the document has one. */
  function GetDate(cfg: GlobalConfiguration, d: Document): (r: Option<int>)
    ensures r.Some? <==> d.dates.Some? && DateKind(cfg) in d.dates.value
    ensures r.Some? ==> r.value == d.dates.value[DateKind(cfg)]
  {
    match d.dates
    case Some(dates) => if DateKind(cfg) in dates then Some(dates[DateKind(cfg)]) else None
    case None => None
  }

  /** The filter: every document when empty files are included, otherwise
      only those whose text is present and non-empty. */
  predicate Kept(opts: Options, d: Document): (r: bool)
    ensures opts.includeEmptyFiles ==> r
    ensures !opts.includeEmptyFiles ==> (r <==> d.text.Some? && |d.text.value| > 0)
  {
    opts.includeEmptyFiles || (d.text.Some? && d.text.value != "")
  }

  /** Every optional field the builder fills in is present, and rich content
      is present exactly in full-HTML mode. */
  predicate Complete(opts: Options, e: Entry)
  {
    e.date.Some? && e.description.Some? && (e.richContent.Some? <==> opts.rssFullHtml)
  }

  /** The entry `linkIndex.set` stores for a document; `now` is the value of
      `new Date()`. Each missing field takes its default. */
  function BuildEntry(lib: Lib, cfg: GlobalConfiguration, opts: Options, now: int, d: Document): (e: Entry)
    ensures e.slug == d.slug && e.filePath == d.relativePath
    ensures e.title == (if d.title.Some? then d.title.value else "")
    ensures e.links == (if d.links.Some? then d.links.value else [])
    ensures e.tags == (if d.tags.Some? then d.tags.value else [])
    ensures e.content == (if d.text.Some? then d.text.value else "")
    ensures e.description == Some(if d.description.Some? then d.description.value else "")
    ensures e.richContent.Some? <==> opts.rssFullHtml
    ensures opts.rssFullHtml ==> e.richContent == Some(lib.escapeHTML(lib.toHtml(d.tree)))
    ensures e.date == Some(
              if d.dates.Some? && DateKind(cfg) in d.dates.value then d.dates.value[DateKind(cfg)]
              else now)
    ensures Complete(opts, e)
  {
    Entry(
      d.slug,
      d.relativePath,
      d.title.GetOr(""),
      d.links.GetOr([]),
      d.tags.GetOr([]),
      d.text.GetOr(""),
      if opts.rssFullHtml then Some(lib.escapeHTML(lib.toHtml(d.tree))) else None,
      Some(GetDate(cfg, d).GetOr(now)),
      Some(d.description.GetOr("")))
  }

  /** The index after the loop has run over `docs`. */
  function IndexOf(lib: Lib, cfg: GlobalConfiguration, opts: Options, now: int, docs: seq<Document>): (idx: Index)
    ensures UniqueKeys(idx)
    decreases |docs|
  {
    if docs == [] then []
    else
      var prev := IndexOf(lib, cfg, opts, now, docs[..|docs| - 1]);
      var d := docs[|docs| - 1];
      if Kept(opts, d) then Set(prev, d.slug, BuildEntry(lib, cfg, opts, now, d)) else prev
  }

  /** The slugs of the kept documents, in document order, repeats included. */
  function KeptSlugs(opts: Options, docs: seq<Document>): seq<string>
    decreases |docs|
  {
    if docs == [] then []
    else
      var d := docs[|docs| - 1];
      KeptSlugs(opts, docs[..|docs| - 1]) + (if Kept(opts, d) then [d.slug] else [])
  }

  /** `s` with every element after its first occurrence dropped. */
  function FirstOccurrences(s: seq<string>): (r: seq<string>)
    ensures forall i, j :: 0 <= i < j < |r| ==> r[i] != r[j]
    ensures forall x :: x in r <==> x in s
    decreases |s|
  {
    if s == [] then []
    else
      var prev := FirstOccurrences(s[..|s| - 1]);
      var x := s[|s| - 1];
      assert forall y :: y in s <==> y in s[..|s| - 1] || y == x by {
        assert s == s[..|s| - 1] + [x];
      }
      if x in s[..|s| - 1] then prev else prev + [x]
  }

  /** The entry of the last kept document with slug `k`, if there is one. */
  function LastEntry(lib: Lib, cfg: GlobalConfiguration, opts: Options, now: int, docs: seq<Document>, k: string): Option<Entry>
    decreases |docs|
  {
    if docs == [] then None
    else
      var d := docs[|docs| - 1];
      if Kept(opts, d) && d.slug == k then Some(BuildEntry(lib, cfg, opts, now, d))
      else LastEntry(lib, cfg, opts, now, docs[..|docs| - 1], k)
  }

  /** A slug is among the kept slugs iff some kept document carries it. */
  lemma {:induction false} KeptSlugsMembers(opts: Options, docs: seq<Document>, k: string)
    ensures k in KeptSlugs(opts, docs) <==>
            exists i :: 0 <= i < |docs| && Kept(opts, docs[i]) && docs[i].slug == k
    decreases |docs|
  {
    if docs != [] {
      var pre := docs[..|docs| - 1];
      KeptSlugsMembers(opts, pre, k);
      if exists i :: 0 <= i < |docs| && Kept(opts, docs[i]) && docs[i].slug == k {
        var i :| 0 <= i < |docs| && Kept(opts, docs[i]) && docs[i].slug == k;
        if i < |pre| { assert pre[i] == docs[i]; }
      }
      if exists i :: 0 <= i < |pre| && Kept(opts, pre[i]) && pre[i].slug == k {
        var i :| 0 <= i < |pre| && Kept(opts, pre[i]) && pre[i].slug == k;
        assert docs[i] == pre[i];
      }
    }
  }

  /** The index keys are the slugs of the kept documents, each placed where
      it first occurs. */
  lemma {:induction false} IndexOfKeys(lib: Lib, cfg: GlobalConfiguration, opts: Options, now: int, docs: seq<Document>)
    ensures Keys(IndexOf(lib, cfg, opts, now, docs)) == FirstOccurrences(KeptSlugs(opts, docs))
    decreases |docs|
  {
    if docs != [] {
      var pre := docs[..|docs| - 1];
      var d := docs[|docs| - 1];
      IndexOfKeys(lib, cfg, opts, now, pre);
      if Kept(opts, d) {
        var s := KeptSlugs(opts, docs);
        assert s == KeptSlugs(opts, pre) + [d.slug];
        assert s[..|s| - 1] == KeptSlugs(opts, pre);
      } else {
        assert KeptSlugs(opts, docs) == KeptSlugs(opts, pre);
      }
    }
  }

  /** Last write wins: the value under a slug is the entry of the last kept
      document with that slug. */
  lemma {:induction false} IndexOfLookup(lib: Lib, cfg: GlobalConfiguration, opts: Options, now: int, docs: seq<Document>, k: string)
    ensures Lookup(IndexOf(lib, cfg, opts, now, docs), k) == LastEntry(lib, cfg, opts, now, docs, k)
    decreases |docs|
  {
    if docs != [] {
      IndexOfLookup(lib, cfg, opts, now, docs[..|docs| - 1], k);
    }
  }

  /** The last kept document with slug `k`, if any, is the one whose entry
      `LastEntry` gives. */
  lemma {:induction false} LastEntryOfLast(lib: Lib, cfg: GlobalConfiguration, opts: Options, now: int, docs: seq<Document>, i: nat)
    requires i < |docs| && Kept(opts, docs[i])
    requires forall j :: i < j < |docs| ==> !(Kept(opts, docs[j]) && docs[j].slug == docs[i].slug)
    ensures LastEntry(lib, cfg, opts, now, docs, docs[i].slug) == Some(BuildEntry(lib, cfg, opts, now, docs[i]))
    decreases |docs|
  {
    if i < |docs| - 1 {
      var pre := docs[..|docs| - 1];
      assert pre[i] == docs[i];
      LastEntryOfLast(lib, cfg, opts, now, pre, i);
    }
  }

  /** Whatever `LastEntry` gives is the complete entry of a kept document
      with that slug. */
  lemma {:induction false} LastEntryIsBuilt(lib: Lib, cfg: GlobalConfiguration, opts: Options, now: int, docs: seq<Document>, k: string)
    ensures LastEntry(lib, cfg, opts, now, docs, k).Some? ==>
      var e := LastEntry(lib, cfg, opts, now, docs, k).value;
      e.slug == k && Complete(opts, e) &&
      exists i :: 0 <= i < |docs| && Kept(opts, docs[i]) && e == BuildEntry(lib, cfg, opts, now, docs[i])
    decreases |docs|
  {
    if docs != [] {
      var pre := docs[..|docs| - 1];
      var d := docs[|docs| - 1];
      if Kept(opts, d) && d.slug == k {
        assert docs[|docs| - 1] == d;
      } else {
        LastEntryIsBuilt(lib, cfg, opts, now, pre, k);
        if LastEntry(lib, cfg, opts, now, pre, k).Some? {
          var i :| 0 <= i < |pre| && Kept(opts, pre[i]) && LastEntry(lib, cfg, opts, now, pre, k).value == BuildEntry(lib, cfg, opts, now, pre[i]);
          assert docs[i] == pre[i];
        }
      }
    }
  }

  /** Every entry of the index is stored under its own slug and has all the
      defaults filled in. */
  lemma IndexOfEntriesComplete(lib: Lib, cfg: GlobalConfiguration, opts: Options, now: int, docs: seq<Document>)
    ensures var idx := IndexOf(lib, cfg, opts, now, docs);
      forall i :: 0 <= i < |idx| ==> idx[i].1.slug == idx[i].0 && Complete(opts, idx[i].1)
  {
    var idx := IndexOf(lib, cfg, opts, now, docs);
    forall i | 0 <= i < |idx|
      ensures idx[i].1.slug == idx[i].0 && Complete(opts, idx[i].1)
    {
      LookupAt(idx, i);
      IndexOfLookup(lib, cfg, opts, now, docs, idx[i].0);
      LastEntryIsBuilt(lib, cfg, opts, now, docs, idx[i].0);
    }
  }

  /** Every kept document's slug is in the index, whatever other documents
      share it. */
  lemma KeptDocumentIndexed(lib: Lib, cfg: GlobalConfiguration, opts: Options, now: int, docs: seq<Document>, i: nat)
    requires i < |docs|
    ensures Kept(opts, docs[i]) ==> docs[i].slug in Keys(IndexOf(lib, cfg, opts, now, docs))
  {
    IndexOfKeys(lib, cfg, opts, now, docs);
    KeptSlugsMembers(opts, docs, docs[i].slug);
  }

  /** When no other document shares its slug, a document is in the index iff
      empty files are included or its text is present and non-empty, and then
      its entry is the one built from it. */
  lemma DocumentIndexedIff(lib: Lib, cfg: GlobalConfiguration, opts: Options, now: int, docs: seq<Document>, i: nat)
    requires i < |docs|
    requires forall j :: 0 <= j < |docs| && j != i ==> docs[j].slug != docs[i].slug
    ensures docs[i].slug in Keys(IndexOf(lib, cfg, opts, now, docs)) <==>
            opts.includeEmptyFiles || (docs[i].text.Some? && docs[i].text.value != "")
    ensures Kept(opts, docs[i]) ==>
      Lookup(IndexOf(lib, cfg, opts, now, docs), docs[i].slug) == Some(BuildEntry(lib, cfg, opts, now, docs[i]))
  {
    var k := docs[i].slug;
    IndexOfKeys(lib, cfg, opts, now, docs);
    KeptSlugsMembers(opts, docs, k);
    if Kept(opts, docs[i]) {
      IndexOfLookup(lib, cfg, opts, now, docs, k);
      LastEntryOfLast(lib, cfg, opts, now, docs, i);
    }
  }

  /** The loop of `emitAll` that fills `linkIndex`. */
  method BuildIndex(lib: Lib, cfg: GlobalConfiguration, opts: Options, now: int, docs: seq<Document>) returns (idx: Index)
    ensures idx == IndexOf(lib, cfg, opts, now, docs)
    ensures UniqueKeys(idx)
    ensures Keys(idx) == FirstOccurrences(KeptSlugs(opts, docs))
    ensures forall k :: Lookup(idx, k) == LastEntry(lib, cfg, opts, now, docs, k)
    ensures forall i :: 0 <= i < |idx| ==> idx[i].1.slug == idx[i].0 && Complete(opts, idx[i].1)
  {
    idx := [];
    var i := 0;
    while i < |docs|
      invariant 0 <= i <= |docs|
      invariant idx == IndexOf(lib, cfg, opts, now, docs[..i])
    {
      var d := docs[i];
      var date := GetDate(cfg, d).GetOr(now);
      if opts.includeEmptyFiles || (d.text.Some? && d.text.value != "") {
        idx := Set(idx, d.slug, Entry(
          d.slug,
          d.relativePath,
          d.title.GetOr(""),
          d.links.GetOr([]),
          d.tags.GetOr([]),
          d.text.GetOr(""),
          if opts.rssFullHtml then Some(lib.escapeHTML(lib.toHtml(d.tree))) else None,
          Some(date),
          Some(d.description.GetOr(""))));
      }
      assert docs[..i + 1][..i] == docs[..i];
      i := i + 1;
    }
    assert docs[..|docs|] == docs;
    IndexOfKeys(lib, cfg, opts, now, docs);
    forall k ensures Lookup(idx, k) == LastEntry(lib, cfg, opts, now, docs, k) {
      IndexOfLookup(lib, cfg, opts, now, docs, k);
    }
    IndexOfEntriesComplete(lib, cfg, opts, now, docs);
  }
}
