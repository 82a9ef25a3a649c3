/** `generateRSSFeed`: entries ordered by the three-case comparator with a
    stable sort, cut to the limit, and rendered as RSS 2.0 items. */
module Feed {
  import opened Wrappers
  import opened Strings
  import opened Config
  import opened IndexMap

  type Pair = (string, Entry)

  /** The comparator passed to `sort`: dated entries first, newest first;
      undated entries by title. Negative means `f1` goes first. */
  function FeedCompare(f1: Entry, f2: Entry): (r: int)
    ensures f1.date.Some? && f2.date.Some? ==>
      (r < 0 <==> f1.date.value > f2.date.value) && (r == 0 <==> f1.date.value == f2.date.value)
    ensures f1.date.Some? && f2.date.None? ==> r < 0
    ensures f1.date.None? && f2.date.Some? ==> r > 0
    ensures f1.date.None? && f2.date.None? ==> -1 <= r <= 1 && (r == 0 <==> f1.title == f2.title)
    ensures f1.date.None? && f2.date.None? ==> r == CompareStrings(f1.title, f2.title)
  {
    if f1.date.Some? && f2.date.Some? then f2.date.value - f1.date.value
    else if f1.date.Some? && f2.date.None? then -1
    else if f1.date.None? && f2.date.Some? then 1
    else
      CompareZeroIff(f1.title, f2.title);
      CompareStrings(f1.title, f2.title)
  }

  /** `a` may come before `b` in the feed. */
  predicate Before(a: Pair, b: Pair)
  {
    FeedCompare(a.1, b.1) <= 0
  }

  /** `a` and `b` compare equal, so the stable sort keeps their order. */
  predicate Tied(a: Pair, b: Pair)
  {
    FeedCompare(a.1, b.1) == 0
  }

  lemma FeedCompareAntisymmetric(f1: Entry, f2: Entry)
    ensures FeedCompare(f2, f1) == -FeedCompare(f1, f2)
  {
    if f1.date.None? && f2.date.None? {
      CompareAntisymmetric(f1.title, f2.title);
    }
  }

  /** The comparator relates every pair one way or the other. */
  lemma BeforeTotal(a: Pair, b: Pair)
    ensures Before(a, b) || Before(b, a)
  {
    FeedCompareAntisymmetric(a.1, b.1);
  }

  /** The comparator is consistent: its "not after" is transitive. */
  lemma BeforeTransitive(a: Pair, b: Pair, c: Pair)
    requires Before(a, b) && Before(b, c)
    ensures Before(a, c)
  {
    if a.1.date.None? && b.1.date.None? && c.1.date.None? {
      CompareTransitive(a.1.title, b.1.title, c.1.title);
    }
  }

  lemma TiedIff(a: Pair, b: Pair)
    ensures Tied(a, b) <==> Before(a, b) && Before(b, a)
  {
    FeedCompareAntisymmetric(a.1, b.1);
  }

  predicate SortedForFeed(s: seq<Pair>)
  {
    forall i, j :: 0 <= i < j < |s| ==> Before(s[i], s[j])
  }

  /** Places `x` before the first element it is not after. */
  function Insert(x: Pair, s: seq<Pair>): (r: seq<Pair>)
    ensures multiset(r) == multiset(s) + multiset{x}
  {
    if s == [] then [x]
    else if Before(x, s[0]) then [x] + s
    else
      assert s == [s[0]] + s[1..];
      [s[0]] + Insert(x, s[1..])
  }

  /** The stable sort of `Array.from(idx).sort(...)`. */
  function SortForFeed(s: seq<Pair>): (r: seq<Pair>)
    ensures multiset(r) == multiset(s)
    ensures |r| == |s|
  {
    if s == [] then []
    else
      assert s == [s[0]] + s[1..];
      Insert(s[0], SortForFeed(s[1..]))
  }

  lemma {:induction false} InsertSorted(x: Pair, s: seq<Pair>)
    requires SortedForFeed(s)
    ensures SortedForFeed(Insert(x, s))
  {
    if s == [] {
    } else if Before(x, s[0]) {
      var r := Insert(x, s);
      forall j | 1 <= j < |r| ensures Before(r[0], r[j]) {
        if j > 1 { BeforeTransitive(x, s[0], s[j - 1]); }
      }
    } else {
      BeforeTotal(x, s[0]);
      InsertSorted(x, s[1..]);
      var t := Insert(x, s[1..]);
      forall j | 0 <= j < |t| ensures Before(s[0], t[j]) {
        assert t[j] in multiset(t);
        if t[j] != x {
          assert t[j] in multiset(s[1..]);
          var k :| 0 <= k < |s[1..]| && s[1..][k] == t[j];
          assert s[k + 1] == t[j];
        }
      }
    }
  }

  /** Sorted: every entry the feed lists comes no later, by the comparator,
      than any entry after it. */
  lemma {:induction false} SortForFeedSorted(s: seq<Pair>)
    ensures SortedForFeed(SortForFeed(s))
  {
    if s != [] {
      SortForFeedSorted(s[1..]);
      InsertSorted(s[0], SortForFeed(s[1..]));
    }
  }

  /** The elements of `s` that tie with `y`, in their order in `s`. */
  function Tier(s: seq<Pair>, y: Pair): seq<Pair>
  {
    if s == [] then []
    else (if Tied(s[0], y) then [s[0]] else []) + Tier(s[1..], y)
  }

  lemma {:induction false} InsertTier(x: Pair, s: seq<Pair>, y: Pair)
    requires SortedForFeed(s)
    ensures Tier(Insert(x, s), y) == (if Tied(x, y) then [x] else []) + Tier(s, y)
  {
    if s == [] {
    } else if Before(x, s[0]) {
      assert Insert(x, s) == [x] + s;
      assert ([x] + s)[1..] == s;
    } else {
      var t := Insert(x, s[1..]);
      assert Insert(x, s) == [s[0]] + t;
      assert ([s[0]] + t)[1..] == t;
      InsertTier(x, s[1..], y);
      var head := if Tied(s[0], y) then [s[0]] else [];
      assert Tier([s[0]] + t, y) == head + Tier(t, y);
      assert Tier(s, y) == head + Tier(s[1..], y);
      if Tied(x, y) && Tied(s[0], y) {
        TiedIff(x, y);
        TiedIff(s[0], y);
        BeforeTransitive(x, y, s[0]);
      }
    }
  }

  /** Stable: entries that compare equal appear in the feed in index order. */
  lemma {:induction false} SortForFeedStable(s: seq<Pair>, y: Pair)
    ensures Tier(SortForFeed(s), y) == Tier(s, y)
  {
    if s != [] {
      SortForFeedStable(s[1..], y);
      SortForFeedSorted(s[1..]);
      InsertTier(s[0], SortForFeed(s[1..]), y);
    }
  }

  /** The three cases of the comparator in the sorted order. */
  lemma FeedOrderGroups(s: seq<Pair>, i: nat, j: nat)
    requires i < j < |SortForFeed(s)|
    ensures var r := SortForFeed(s);
      && (r[j].1.date.Some? ==> r[i].1.date.Some?)
      && (r[i].1.date.Some? && r[j].1.date.Some? ==> r[i].1.date.value >= r[j].1.date.value)
      && (r[i].1.date.None? && r[j].1.date.None? ==> CompareStrings(r[i].1.title, r[j].1.title) <= 0)
  {
    SortForFeedSorted(s);
  }

  /** One `<item>`: title, link, guid, description body and `pubDate`. */
  datatype Item = Item(
    title: string,
    link: string,
    guid: string,
    description: Option<string>,
    pubDate: Option<string>)

  /** The item the feed template builds for one index entry. */
  function CreateItem(lib: Lib, base: string, p: Pair): (it: Item)
    ensures it.title == lib.escapeHTML(p.1.title)
    ensures it.link == PageUrl(lib, base, p.0) && it.guid == it.link
    ensures it.description == (if p.1.richContent.Some? then p.1.richContent else p.1.description)
    ensures it.pubDate.Some? <==> p.1.date.Some?
    ensures p.1.date.Some? ==> it.pubDate == Some(lib.toUTCString(p.1.date.value))
  {
    Item(
      lib.escapeHTML(p.1.title),
      PageUrl(lib, base, p.0),
      PageUrl(lib, base, p.0),
      if p.1.richContent.Some? then p.1.richContent else p.1.description,
      if p.1.date.Some? then Some(lib.toUTCString(p.1.date.value)) else None)
  }

  /** The end index `slice(0, end)` resolves to on a list of length `len`. */
  function SliceEnd(len: nat, end: int): (r: nat)
    ensures r <= len
    ensures 0 <= end <= len ==> r == end
    ensures end > len ==> r == len
    ensures end < 0 ==> r == (if len + end < 0 then 0 else len + end)
  {
    if end < 0 then (if len + end < 0 then 0 else len + end)
    else if end < len then end else len
  }

  /** How many items the slice keeps: the limit, or the index size when unset. */
  function ItemCount(idx: Index, limit: Option<int>): nat
  {
    SliceEnd(|idx|, limit.GetOr(|idx|))
  }

  function CreateItems(lib: Lib, base: string, s: seq<Pair>): seq<Item>
  {
    seq(|s|, i requires 0 <= i < |s| => CreateItem(lib, base, s[i]))
  }

  /** The feed's items: sort, map, then `slice(0, limit ?? idx.size)`. */
  function FeedItems(lib: Lib, cfg: GlobalConfiguration, idx: Index, limit: Option<int>): (r: seq<Item>)
    ensures limit.None? ==> |r| == |idx|
    ensures limit.Some? && limit.value >= 0 ==>
      |r| == (if limit.value < |idx| then limit.value else |idx|)
    ensures limit.Some? && limit.value < 0 ==>
      |r| == (if |idx| + limit.value < 0 then 0 else |idx| + limit.value)
    ensures forall i :: 0 <= i < |r| ==>
      r[i] == CreateItem(lib, Base(cfg), SortForFeed(idx)[i])
  {
    CreateItems(lib, Base(cfg), SortForFeed(idx))[..ItemCount(idx, limit)]
  }

  /** The configured "recent notes" phrase, or its default. */
  function RecentNotesText(opts: Options): string
  {
    opts.rssRecentNotesText.GetOr("Recent notes")
  }

  /** The configured "last few notes" phrase, or its default. */
  function LastFewNotesText(opts: Options): int -> string
  {
    opts.rssLastFewNotesText.GetOr(DefaultLastFewNotesText)
  }

  /** JavaScript truthiness of an optional number. */
  predicate Truthy(limit: Option<int>)
  {
    limit.Some? && limit.value != 0
  }

  /** The channel `<description>`: it is given `limit`, not the number of
      items actually listed. */
  function ChannelDescription(lib: Lib, cfg: GlobalConfiguration, opts: Options, limit: Option<int>): (r: string)
    ensures var phrase := if limit.Some? && limit.value != 0 then LastFewNotesText(opts)(limit.value)
                          else RecentNotesText(opts);
      && |r| == |phrase| + |" on " + lib.escapeHTML(cfg.pageTitle.GetOr(""))|
      && r[..|phrase|] == phrase
      && r[|phrase|..] == " on " + lib.escapeHTML(cfg.pageTitle.GetOr(""))
  {
    (if Truthy(limit) then LastFewNotesText(opts)(limit.value) else RecentNotesText(opts))
    + " on " + lib.escapeHTML(cfg.pageTitle.GetOr(""))
  }

  /** The text of a value in a template; an absent one renders as `undefined`. */
  function Shown(v: Option<string>): string
  {
    v.GetOr("undefined")
  }

  const ItemOpen: string := "<item><title>"
  const ItemClose: string := "</pubDate></item>"

  /** The template text of one item. */
  function RenderItem(it: Item): (r: string)
    ensures |r| > |ItemOpen| + |it.title| + |Shown(it.pubDate)| + |ItemClose|
    ensures r[..|ItemOpen|] == ItemOpen
    ensures r[|ItemOpen|..|ItemOpen| + |it.title|] == it.title
    ensures r[|r| - |Shown(it.pubDate)| - |ItemClose|..] == Shown(it.pubDate) + ItemClose
  {
    ItemOpen + it.title + "</title>"
    + "<link>" + it.link + "</link>"
    + "<guid>" + it.guid + "</guid>"
    + "<description><![CDATA[ " + Shown(it.description) + " ]]></description>"
    + "<pubDate>" + Shown(it.pubDate) + ItemClose
  }

  function RenderItems(items: seq<Item>): seq<string>
  {
    seq(|items|, i requires 0 <= i < |items| => RenderItem(items[i]))
  }

  /** The joined `<item>` elements. */
  function FeedBody(lib: Lib, cfg: GlobalConfiguration, idx: Index, limit: Option<int>): string
  {
    Concat(RenderItems(FeedItems(lib, cfg, idx, limit)))
  }

  const Generator: string := "Quartz -- quartz.jzhao.xyz"
  const RssOpen: string := "<?xml version=\"1.0\" encoding=\"UTF-8\" ?><rss version=\"2.0\"><channel>"
  const RssClose: string := "</channel></rss>"

  /** The channel's `<title>` element: the escaped page title. */
  function TitleElement(lib: Lib, cfg: GlobalConfiguration): string
  {
    "<title>" + lib.escapeHTML(cfg.pageTitle.GetOr("")) + "</title>"
  }

  /** The channel's `<link>` element: the site's base address. */
  function LinkElement(cfg: GlobalConfiguration): string
  {
    "<link>https://" + Base(cfg) + "</link>"
  }

  /** The channel's `<description>` element, holding the channel text. */
  function DescriptionElement(lib: Lib, cfg: GlobalConfiguration, opts: Options, limit: Option<int>): string
  {
    "<description>" + ChannelDescription(lib, cfg, opts, limit) + "</description>"
  }

  const GeneratorElement: string := "<generator>" + Generator + "</generator>"

  /** The channel header ahead of the items: title, link, description and
      generator, in that order. */
  function ChannelHead(lib: Lib, cfg: GlobalConfiguration, opts: Options, limit: Option<int>): (h: string)
    ensures var t, l, d := TitleElement(lib, cfg), LinkElement(cfg), DescriptionElement(lib, cfg, opts, limit);
      && |h| == |t| + |l| + |d| + |GeneratorElement|
      && h[..|t|] == t
      && h[|t|..|t| + |l|] == l
      && h[|t| + |l|..|t| + |l| + |d|] == d
      && h[|t| + |l| + |d|..] == GeneratorElement
  {
    var t, l, d := TitleElement(lib, cfg), LinkElement(cfg), DescriptionElement(lib, cfg, opts, limit);
    Pieces4(t, l, d, GeneratorElement);
    t + l + d + GeneratorElement
  }

  /** Where each of four joined pieces sits in the joined text. */
  lemma Pieces4(t: string, l: string, d: string, g: string)
    ensures var h := t + l + d + g;
      && h[..|t|] == t && h[|t|..|t| + |l|] == l
      && h[|t| + |l|..|t| + |l| + |d|] == d && h[|t| + |l| + |d|..] == g
  {
    var h := t + l + d + g;
    assert h[..|t|] == t;
    assert h[|t|..|t| + |l|] == l;
    assert h[|t| + |l|..|t| + |l| + |d|] == d;
    assert h[|t| + |l| + |d|..] == g;
  }

  /** The RSS 2.0 document: the XML declaration, the `rss` root and the
      `channel`, holding the channel header and then the items. */
  function GenerateRSSFeed(lib: Lib, cfg: GlobalConfiguration, opts: Options, idx: Index, limit: Option<int>): (r: string)
    ensures var h, b := ChannelHead(lib, cfg, opts, limit), FeedBody(lib, cfg, idx, limit);
      && |r| == |RssOpen| + |h| + |b| + |RssClose|
      && r[..|RssOpen|] == RssOpen
      && r[|RssOpen|..|RssOpen| + |h|] == h
      && r[|RssOpen| + |h|..|RssOpen| + |h| + |b|] == b
      && r[|RssOpen| + |h| + |b|..] == RssClose
  {
    var h, b := ChannelHead(lib, cfg, opts, limit), FeedBody(lib, cfg, idx, limit);
    Pieces4(RssOpen, h, b, RssClose);
    RssOpen + h + b + RssClose
  }

  /** The feed text is the RSS opening, the channel head, the items and the
      closing tags, in that order. */
  lemma FeedHasChannelHead(lib: Lib, cfg: GlobalConfiguration, opts: Options, idx: Index, limit: Option<int>)
    ensures GenerateRSSFeed(lib, cfg, opts, idx, limit)
         == RssOpen + ChannelHead(lib, cfg, opts, limit) + FeedBody(lib, cfg, idx, limit) + RssClose
  {
  }

  /** The channel head is the title, link, description and generator
      elements, the description holding the channel description text. */
  lemma ChannelHeadPieces(lib: Lib, cfg: GlobalConfiguration, opts: Options, limit: Option<int>)
    ensures ChannelHead(lib, cfg, opts, limit)
         == TitleElement(lib, cfg) + LinkElement(cfg)
          + ("<description>" + ChannelDescription(lib, cfg, opts, limit) + "</description>")
          + GeneratorElement
  {
  }

  /** The feed text carries the channel description right after the title,
      link and `<description>` opening tag. */
  lemma FeedDescriptionAt(lib: Lib, cfg: GlobalConfiguration, opts: Options, idx: Index, limit: Option<int>)
    ensures var r := GenerateRSSFeed(lib, cfg, opts, idx, limit);
      var pre := RssOpen + TitleElement(lib, cfg) + LinkElement(cfg) + "<description>";
      var d := ChannelDescription(lib, cfg, opts, limit);
      |r| >= |pre| + |d| && r[|pre|..|pre| + |d|] == d
  {
    var t, l := TitleElement(lib, cfg), LinkElement(cfg);
    var d := ChannelDescription(lib, cfg, opts, limit);
    ChannelHeadPieces(lib, cfg, opts, limit);
    FeedHasChannelHead(lib, cfg, opts, idx, limit);
    DescriptionPosition(RssOpen, t, l, d, GeneratorElement, FeedBody(lib, cfg, idx, limit), RssClose);
  }

  /** Where the description text sits in a feed text assembled from its
      pieces. */
  lemma DescriptionPosition(o: string, t: string, l: string, d: string, g: string, b: string, c: string)
    ensures var r := o + (t + l + ("<description>" + d + "</description>") + g) + b + c;
      var k := |o + t + l + "<description>"|;
      |r| >= k + |d| && r[k..k + |d|] == d
  {
    var r := o + (t + l + ("<description>" + d + "</description>") + g) + b + c;
    var k := |o + t + l + "<description>"|;
    assert r == (o + t + l + "<description>") + d + ("</description>" + g + b + c);
  }

  /** Any limit lists a prefix of the full feed's items, and its
      rendered items are a prefix of the full feed's rendered items. */
  lemma FeedLimitIsPrefix(lib: Lib, cfg: GlobalConfiguration, idx: Index, l: int)
    ensures FeedItems(lib, cfg, idx, Some(l)) <= FeedItems(lib, cfg, idx, None)
    ensures FeedBody(lib, cfg, idx, Some(l)) <= FeedBody(lib, cfg, idx, None)
  {
    var all := FeedItems(lib, cfg, idx, None);
    var k := |FeedItems(lib, cfg, idx, Some(l))|;
    assert FeedItems(lib, cfg, idx, Some(l)) == all[..k];
    assert RenderItems(all[..k]) == RenderItems(all)[..k];
    ConcatPrefix(RenderItems(all), k);
  }

  /** The channel description follows `limit`'s truthiness, not the item
      count: a zero limit lists nothing under the "recent notes" text, and a
      limit above the index size still says "last `limit` notes". */
  lemma ChannelDescriptionQuirks(lib: Lib, cfg: GlobalConfiguration, opts: Options, idx: Index, limit: Option<int>)
    ensures limit == Some(0) ==>
      && FeedItems(lib, cfg, idx, limit) == []
      && ChannelDescription(lib, cfg, opts, limit) ==
         RecentNotesText(opts) + " on " + lib.escapeHTML(cfg.pageTitle.GetOr(""))
    ensures limit.Some? && limit.value > |idx| ==>
      && |FeedItems(lib, cfg, idx, limit)| == |idx|
      && ChannelDescription(lib, cfg, opts, limit) ==
         LastFewNotesText(opts)(limit.value) + " on " + lib.escapeHTML(cfg.pageTitle.GetOr(""))
    ensures limit.None? ==>
      && |FeedItems(lib, cfg, idx, limit)| == |idx|
      && ChannelDescription(lib, cfg, opts, limit) ==
         RecentNotesText(opts) + " on " + lib.escapeHTML(cfg.pageTitle.GetOr(""))
  {
  }

  /** Three entries dated 2023-03-01, dated 2023-01-01 and undated come out
      in that order. */
  lemma ThreeEntryOrder(a: Entry, b: Entry, c: Entry)
    requires a.date == Some(1677628800000) && b.date == Some(1672531200000) && c.date == None
    ensures SortForFeed([("a", a), ("b", b), ("c", c)]) == [("a", a), ("b", b), ("c", c)]
  {
    var s := [("a", a), ("b", b), ("c", c)];
    assert SortForFeed([("c", c)]) == [("c", c)];
    assert Before(("b", b), ("c", c));
    assert Insert(("b", b), [("c", c)]) == [("b", b), ("c", c)];
    assert s[1..] == [("b", b), ("c", c)] && s[1..][1..] == [("c", c)];
    assert SortForFeed(s[1..]) == [("b", b), ("c", c)];
    assert Before(("a", a), ("b", b));
  }

  /** With a limit of 2 the same three entries give the items of the two
      dated ones. */
  lemma ThreeEntryLimit(lib: Lib, cfg: GlobalConfiguration, a: Entry, b: Entry, c: Entry)
    requires a.date == Some(1677628800000) && b.date == Some(1672531200000) && c.date == None
    ensures FeedItems(lib, cfg, [("a", a), ("b", b), ("c", c)], Some(2)) ==
            [CreateItem(lib, Base(cfg), ("a", a)), CreateItem(lib, Base(cfg), ("b", b))]
  {
    var s := [("a", a), ("b", b), ("c", c)];
    ThreeEntryOrder(a, b, c);
    var r := FeedItems(lib, cfg, s, Some(2));
    assert |r| == 2;
    assert r[0] == CreateItem(lib, Base(cfg), s[0]);
    assert r[1] == CreateItem(lib, Base(cfg), s[1]);
  }
}
