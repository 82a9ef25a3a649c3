# Content index emitter, modelled in Dafny

A model of the content-index emitter plugin of Quartz (`src/emitter.ts`).
From the processed documents of a site it builds one ordered content index,
keyed by slug. From that index it derives three artifacts:

- a sitemap 0.9 document, with one `<url>` per entry in index order;
- an RSS 2.0 feed: dated entries come first, newest first, then undated
  entries by title; the list is cut to the configured limit;
- the client-side `contentIndex.json` payload, which holds every entry
  without its `date` and `description`.

Modules, one per component of the file:

| module | file | what it holds |
|---|---|---|
| `Wrappers` | wrappers.dfy | `Option`, for JavaScript's `undefined` |
| `Strings` | strings.dfy | `join("")`, the title order standing in for `localeCompare`, decimal rendering |
| `Config` | config.dfy | global configuration, plugin options, the library calls as function values, the page URL |
| `IndexMap` | index_map.dfy | the entry record and the `Map` as a sequence of pairs with unique keys; `Map.set` |
| `IndexBuilder` | index_builder.dfy | `getDate`, the filter, the defaults and the loop of `emitAll` (a `method` with a `while` loop) |
| `SiteMap` | sitemap.dfy | `generateSiteMap` |
| `Feed` | feed.dfy | the comparator, its stable sort, `slice`, the channel description, `generateRSSFeed` |
| `JsonIndex` | json_index.dfy | the projection that drops `date` and `description` |
| `Emitter` | emitter.dfy | `emitAll` as a whole, and lemmas that relate the artifacts to each other |

Modelling choices:

- The library functions are fields of a `Lib` record of function values:
  `escapeHTML`, `simplifySlug`, `encodeURI`, `joinSegments`, `toHtml`,
  `toISOString` and `toUTCString`. Their code is not part of this model, so
  nothing is assumed about them.
- A date is its `getTime()` value, an `int` of milliseconds. The wall-clock
  `new Date()` is the parameter `now`.
- The JavaScript `Map` is a `seq<(slug, Entry)>` in iteration order, with
  unique keys. `IndexMap.Set` is `Map.set`: a new key goes at the end, and an
  existing key keeps its place but takes the new value.
- `Array.prototype.sort` is stable. It is modelled by a stable insertion sort
  under the source's three-case comparator. The model proves that the result
  is a permutation of the index, sorted by the comparator, and keeps the
  index order of entries that compare equal.
- `slice(0, limit ?? idx.size)` follows JavaScript: a negative end counts
  back from the end of the list. The limit is an optional `int`.
- The XML is modelled as a sequence of records (`UrlRecord`, `Item`) plus the
  template text that joins them. Whitespace is left out.
- The JSON projection is a new value; the source deletes the fields in place
  instead. In the source it runs after the sitemap and the feed are built,
  so both see complete entries. `Emitter.EmitAll` keeps that order.
  `Emitter.ProjectionDropsDates` shows what the generators would lose if
  they read the projected entries.

Quirks of the code that the model keeps as written:

- The "last N notes" channel text receives `limit` itself, not the number of
  items listed. A limit of 0 is falsy, so it gives the "recent notes" text
  with zero items. A limit above the index size still says "last `limit`
  notes".
- An entry without a date does not leave the `<lastmod>` element empty: the
  template `${content.date && ...}` writes the text `undefined` there.
  `${content.date?.toUTCString()}` does the same inside `<pubDate>`, and so
  does a missing `richContent ?? description` inside the item description.
  `SiteMap.RenderUrl` and `Feed.Shown` render it that way. Entries built by
  `emitAll` always carry a date and a description, so this happens only for
  an index built some other way.
- Tags are a list (`string[]`), not a set.

## Model

| member | source | states |
|---|---|---|
| IndexMap.Set | src/emitter.ts:146-158 | `Map.set`: an existing slug keeps its position and gets the new entry; a new slug is appended; other slugs keep their entries; keys stay unique |
| IndexBuilder.GetDate | src/emitter.ts:66-68 | the date of the configured kind (`"modified"` by default) is present exactly when the document's dates record has that kind, and it is that value |
| IndexBuilder.Kept | src/emitter.ts:144 | with `includeEmptyFiles` on every document passes; otherwise exactly those whose text is present and non-empty |
| IndexBuilder.BuildEntry | src/emitter.ts:142-158 | slug and path are copied; title, links, tags, content and description default to empty; the date is the configured kind or `now`; rich content is set iff `rssFullHtml` and is then the escaped HTML of the tree |
| IndexBuilder.IndexOf | src/emitter.ts:138-160 | the index the loop builds never holds a slug twice |
| IndexBuilder.IndexOfKeys | src/emitter.ts:139-146 | the index keys are the slugs of the kept documents, each placed at its first occurrence in document order |
| IndexBuilder.IndexOfLookup | src/emitter.ts:146-158 | last write wins: the entry under a slug is the one built from the last kept document with that slug |
| IndexBuilder.IndexOfEntriesComplete | src/emitter.ts:146-158 | every entry is stored under its own slug, has a date and a description, and has rich content iff `rssFullHtml` |
| IndexBuilder.KeptDocumentIndexed | src/emitter.ts:144-146 | every kept document's slug is in the index, whether or not other documents share it |
| IndexBuilder.DocumentIndexedIff | src/emitter.ts:144 | a document whose slug is unique is indexed iff `includeEmptyFiles` is on or its text is present and non-empty, and then under the entry built from it |
| IndexBuilder.BuildIndex | src/emitter.ts:136-160 | the loop returns the index of the documents: unique keys in first-occurrence order, last write wins, every entry complete |
| Config.PageUrl | src/emitter.ts:73 | a page address is `https://` followed by the joined base and the encoded simplified slug |
| Config.DefaultLastFewNotesText | src/emitter.ts:50 | the default phrase is `Last `, the decimal count, then ` notes` |
| Config.DefaultOptionsValues | src/emitter.ts:42-51 | the default options: sitemap and feed on, limit 10, plain descriptions, feed slug `index`, empty files included, "Recent notes" and "Last 10 notes" for ten |
| SiteMap.UrlEntry | src/emitter.ts:72-75 | the record of one entry: `loc` is the page URL; `lastmod` is present iff the entry has a date, and is then its ISO form |
| SiteMap.RenderUrl | src/emitter.ts:72-75 | the `<url>` text starts with the `loc` element, ends with `</url>`, and holds the `lastmod` element between them, or the text `undefined` when there is no date |
| SiteMap.GenerateSiteMap | src/emitter.ts:70-80 | the sitemap is the sitemap 0.9 `urlset` opening tag, the joined `<url>` texts, and the closing tag |
| SiteMap.UrlRecords | src/emitter.ts:70-78 | one record per index entry in index order; `loc` is the page URL of the slug; `lastmod` is present iff the entry has a date and is then its ISO form |
| SiteMap.SiteMapBodyAppend | src/emitter.ts:76-79 | the sitemap body of a concatenated index is the concatenation of the bodies, and it is wrapped in the `urlset` root |
| SiteMap.SiteMapSingle | src/emitter.ts:72-79 | the text of a one-entry sitemap, with `undefined` where an undated entry has no `lastmod` |
| Strings.CompareStrings | src/emitter.ts:112 | the title order standing in for `localeCompare`: a result of -1, 0 or 1; a proper prefix sorts first; equal strings compare 0 |
| Strings.CompareAntisymmetric | src/emitter.ts:112 | the title order: swapping the arguments negates the comparison |
| Strings.CompareZeroIff | src/emitter.ts:112 | the title order: two titles compare equal iff they are the same string |
| Strings.CompareTransitive | src/emitter.ts:112 | the title order: "not after" is transitive |
| Feed.FeedCompare | src/emitter.ts:103-113 | both dated: negative iff the first is newer, zero iff same time; only the first dated: negative; only the second dated: positive; neither dated: the result is the title comparison, so titles ascend and zero means equal titles |
| Feed.FeedCompareAntisymmetric | src/emitter.ts:103-113 | the feed comparator is antisymmetric in all three cases |
| Feed.BeforeTotal | src/emitter.ts:103-113 | every two entries are ordered one way or the other |
| Feed.BeforeTransitive | src/emitter.ts:103-113 | the comparator's "not after" is transitive, so the comparator is consistent |
| Feed.TiedIff | src/emitter.ts:103-113 | two entries tie iff each is not after the other |
| Feed.SortForFeed | src/emitter.ts:102-113 | the sorted list is a permutation of the index |
| Feed.SortForFeedSorted | src/emitter.ts:102-113 | each entry of the sorted list is not after any later entry under the comparator |
| Feed.SortForFeedStable | src/emitter.ts:102-113 | entries that compare equal keep their index order (the sort is stable) |
| Feed.FeedOrderGroups | src/emitter.ts:104-112 | in the sorted list dated entries come before undated ones, dated entries do not get newer, and undated titles do not decrease |
| Feed.CreateItem | src/emitter.ts:94-100 | the item's title is the escaped title; link and guid are both the page URL; the description is the rich content when present, else the description; `pubDate` is present iff the entry has a date, and is then its UTC form |
| Feed.RenderItem | src/emitter.ts:94-100 | the `<item>` text starts with the title element holding the item's title and ends with its `pubDate` text (`undefined` when absent) and `</item>` |
| Feed.SliceEnd | src/emitter.ts:115 | the end `slice` uses: an end within the list is kept, a larger end gives the length, a negative end counts back from the length and stops at 0 |
| Feed.FeedItems | src/emitter.ts:114-116 | with no limit there is one item per entry; a limit `l >= 0` gives `min(l, n)` items; a negative limit drops that many from the end; item `i` is built from the `i`-th entry of the sorted order |
| Feed.FeedLimitIsPrefix | src/emitter.ts:114-116 | any limit gives a prefix of the unlimited items, and a prefix of their rendered text |
| Feed.ChannelDescription | src/emitter.ts:118-120 | the channel text is the "last few" phrase for `limit` when `limit` is truthy (present and non-zero), else the "recent notes" phrase, followed by ` on ` and the escaped page title |
| Feed.GenerateRSSFeed | src/emitter.ts:82-132 | the feed is, in order, the XML declaration with the RSS 2.0 root and `<channel>`, then the channel head, then the joined item texts, then the closing `</channel></rss>`; each piece sits at its stated position |
| Feed.ChannelHead | src/emitter.ts:125-128 | the channel head is, in order, the title element with the escaped page title, the link to the site root, the description element and the generator element |
| Feed.FeedHasChannelHead | src/emitter.ts:122-131 | the feed text equals the RSS opening, the channel head, the item texts and the closing tags, concatenated in that order |
| Feed.ChannelHeadPieces | src/emitter.ts:118-128 | the channel head's description element holds exactly the channel description text (the "last few" or "recent notes" phrase and the page title) |
| Feed.FeedDescriptionAt | src/emitter.ts:118-127 | in the feed text, the channel description sits right after the opening, the title and link elements, and `<description>` |
| Feed.ChannelDescriptionQuirks | src/emitter.ts:115-120 | limit 0 gives no items and the "recent notes" text; a limit above the size gives all items and "last `limit`" text; no limit gives all items and the "recent notes" text |
| Feed.ThreeEntryOrder | src/emitter.ts:102-113 | entries dated 2023-03-01, dated 2023-01-01 and undated sort in that order |
| Feed.ThreeEntryLimit | src/emitter.ts:114-116 | with limit 2 those three entries give exactly the items of the two dated ones |
| JsonIndex.Simplify | src/emitter.ts:185-192 | same slugs in the same order; no entry has a date or a description; every other field is unchanged |
| JsonIndex.SimplifyLookup | src/emitter.ts:186-192 | the payload is still a map, and looking a slug up gives the index entry without date and description |
| JsonIndex.SimplifyIdempotent | src/emitter.ts:187-190 | projecting an already projected index changes nothing |
| Emitter.EmitAll | src/emitter.ts:162-203 | writes the sitemap if enabled, then the feed under `rssSlug` if enabled, then the JSON payload at `static/contentIndex`; the sitemap and the feed are built from the complete index |
| Emitter.SameUrlEverywhere | src/emitter.ts:72-97 | each feed item's `link` equals its `guid` and the sitemap `loc` of the same index entry |
| Emitter.BuiltIndexOutputsDated | src/emitter.ts:142-156 | on a built index every sitemap record has a `lastmod`, every feed item a `pubDate`, and the feed runs newest first throughout |
| Emitter.ProjectionDropsDates | src/emitter.ts:163-192 | on the projected index the sitemap would have no `lastmod` and the feed no `pubDate`, which is why the projection follows the generators |

## Left out

- `write` (src/emitter.ts:53-64): creating directories and writing files is I/O. `EmitAll` returns the arguments of each `write` call (slug, extension, content), not the file paths `write` returns.
- The `async`/`await` sequencing of `emitAll` is not modelled; the calls run in program order.
- The plugin wrapper, the options merge `{ ...defaultOptions, ...opts }` and the `emit`/`partialEmit` hooks (src/emitter.ts:134-135, 206-211) are framework glue. `Config.DefaultOptions` records the default values, and the `Options` given to the model are the merged ones.
- The code of `escapeHTML`, `simplifySlug`, `encodeURI`, `joinSegments`, `toHtml`, `toISOString` and `toUTCString` is not part of this model. They are opaque function values, and nothing is assumed about them.
- `localeCompare` is locale-aware. The model uses lexicographic order on character codes instead, which is a total order like it.
- `new Date()` is called for each document without a date of the configured kind; the model uses one `now` for the whole run.
- `JSON.stringify` is not modelled: the payload is the projected index value, so a serialize-then-parse round trip is not stated.
- JsonIndex.Simplify: the payload keeps the index order. `Object.fromEntries` lists integer-like keys (a slug `2023`, say) first, in numeric order, so the key order of the JSON text can differ. Consumers of the payload do not rely on key order.
- The aliasing from the in-place `delete` is not modelled, because the projection returns a new value.
- The exact whitespace and line breaks of the XML templates are not modelled.
- `FeedItems`: the limit is an integer, so a fractional or `NaN` `rssLimit` is not modelled. Invalid dates (`NaN` from `getTime`) are not modelled either.
- The document's `data` bag is modelled as a typed record. The slug and relative path are required fields. A frontmatter value of the wrong type (a non-string title, say) is not modelled.
