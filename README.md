# handlebars-helper-sitemap, modelled in Dafny

This project models the Handlebars helpers in `index.js`, which render an XML
sitemap. It also models the small utilities they use. The sitemap elements
`<url>`, `<loc>`, `<lastmod>`, `<changefreq>` and `<priority>` are the ones
defined by the Sitemaps XML protocol 0.9.

- `tag` builds an arbitrary element. It accepts two call shapes.
- `urlset` finds the list of pages to put in the sitemap.
- `filterItems` drops the sitemap page itself and any page that opts out.
- `url` builds one `<url>` entry from a page record and the render options.
  It first merges the site-wide and page-level settings (`globalData`, `itemData`).
  Then it emits `<loc>`, `<lastmod>`, `<changefreq>` and `<priority>` through
  the helpers of the same names.

The helpers are pure, so every helper is a Dafny function. Files:

- `js_values.dfy` (module `JsValues`) defines the JavaScript values the helpers
  can see (`undefined`, `null`, booleans, numbers, strings, dates, arrays,
  plain records). It also defines JavaScript truthiness, property reads that
  throw on `undefined`/`null`, the `||` operator and its chains (`Coalesce`),
  and the never-throwing nested lookup of `get-value` (`GetPath`).
- `host.dfy` (module `Host`) holds the library calls whose behaviour is not
  modelled: `html-tag`, `url.resolve`, `path.relative`, `path.join` and the
  `moment` date formatter. They are fields of a `Host` value passed to each
  helper, so every property below holds whatever these calls compute. The
  wall clock read by `new Date()` is the parameter `now`.
- `utils.dfy` (module `SitemapUtils`) holds `globalData`, `itemData`, the merge
  `url` performs, and the `SafeString` wrapper. `assign({}, a, b)` is a
  right-biased union of the records' own fields (`Assign`). Its effect is
  stated against an independent precedence reference, `MostSpecific`: the
  value of a key comes from the last configuration layer that defines it.
- `url_layout.dfy` (module `UrlLayout`) holds the exact text inside a `<url>`
  element and proves that the four children can be read back from it.
- `helpers.dfy` (module `SitemapHelpers`) holds the helpers themselves.
- `examples.dfy` (module `SitemapExamples`) holds the configurations of the
  repository's tests as lemmas over arbitrary URLs, page names and dates.

Every thrown error is a `Result` error. A property read on `undefined` or
`null` gives `NullishAccess(key)`. An error the helpers raise themselves gives
`TypeError(message)`, with the source's message text. Calling `filter` on a
non-array gives `NotAFunction("filter")`. A non-string argument to
`path.relative` gives `InvalidArgType`.

## Model

| member | source | states |
|---|---|---|
| JsValues.Coalesce | index.js:78-79 | a chain of `\|\|` is truthy iff some operand is truthy; it yields the first truthy operand (every earlier one falsy), or the last operand when none is truthy |
| JsValues.OrChain3 | index.js:50-52 | the left-nested three-way `\|\|` that `urlset` writes is the three-element chain |
| SitemapHelpers.Tag | index.js:26-44 | a non-string name throws "expected name to be a string"; an object context with a truthy `hash` is taken as the options, with empty text; a string context becomes the text; any other context gives empty text; the attributes are `options.hash`, and missing options throw reading `hash` |
| SitemapHelpers.Urlset | index.js:46-57 | an array argument is returned unchanged; otherwise the result is the first truthy of `data.root.items`, `data.root.sitemap.items`, `data.root.sitemap.urlset` if that is an array, and "expected sitemap.urlset to be an array" otherwise; a success is always an array |
| SitemapHelpers.UrlsetFirstTruthyProbeDecides | index.js:50-55 | the first truthy probe alone decides: a truthy non-array there is an error even when a later probe holds an array |
| SitemapHelpers.UrlsetFailsIff | index.js:47-55 | `urlset` throws exactly when its argument is no array and every probe that holds an array comes after a truthy probe |
| SitemapHelpers.Loc | index.js:59-75 | success iff `data.url` and `item.relative` are strings, `item.data` is present, and both `dest` values are strings when both are truthy; the errors are checked in source order (url read, url type, relative read, relative type, `item.data.dest` read); the location is `data.url` resolved against `item.relative`, rebased by `join(relative(data.dest, item.data.dest), item.relative)` exactly when both `dest` values are truthy |
| SitemapHelpers.Lastmod | index.js:77-81 | the date is the first truthy of `data.lastModified`, `data.lastmod`, `item.stat && item.stat.mtime` and the current time, formatted; it throws only when `data` is missing, or when both settings are falsy and `item` is missing |
| SitemapHelpers.LastmodChain | index.js:78-79 | the nesting `(a \|\| b \|\| c) \|\| d` the source writes is the four-element chain |
| SitemapHelpers.Changefreq | index.js:83-85 | `<changefreq>` holds `data.changefreq` when it is truthy and "weekly" otherwise; it throws only on a missing `data` |
| SitemapHelpers.Priority | index.js:87-89 | `<priority>` holds `data.priority` when it is truthy and "0.5" otherwise; it throws only on a missing `data` |
| SitemapHelpers.DefaultsIgnoreItem | index.js:83-89 | neither `changefreq` nor `priority` depends on the item |
| SitemapHelpers.Url | index.js:91-100 | a missing item throws reading `data`; otherwise the merged data is built, `url` fails exactly when `loc` does and with its error, and on success the `<url>` text holds loc, lastmod, changefreq, priority in that order |
| SitemapHelpers.KeepItem | index.js:103-105 | an item is kept iff its `stem` is not "sitemap" and its `data.sitemap` is not exactly `false`; it throws when the item is missing, or when the stem is not "sitemap" and `item.data` is missing |
| SitemapHelpers.FilterSeq | index.js:103-105 | the filter succeeds iff no item's test throws; every kept item comes from the input and passes the test |
| SitemapHelpers.FilterIsSubsequence | index.js:103-105 | the kept items are a subsequence of the input, in input order |
| SitemapHelpers.FilterCount | index.js:103-105 | an item that passes the test occurs in the result as often as in the input; any other item does not occur |
| SitemapHelpers.FilterKeepsExactly | index.js:103-105 | the result's multiset is the input's multiset restricted to the items that pass the test |
| SitemapHelpers.FilterFirstError | index.js:103-105 | a failing filter throws the error of the first item whose test throws |
| SitemapHelpers.FilterItems | index.js:102-106 | a missing list throws reading `filter`; a non-array throws because it has no `filter`; on an array it succeeds iff no test throws, and returns a new array that is an order-preserving subsequence keeping exactly the passing items |
| SitemapUtils.GlobalData | index.js:180-184 | the global data is a record in which each key has its value from `root.sitemap` if defined there, else from `root` |
| SitemapUtils.ItemData | index.js:186-189 | a missing item throws reading `data`; otherwise each key has its value from `item.data.sitemap` if defined there, else from `item.data` |
| SitemapUtils.MergedData | index.js:92 | `url`'s data gives each key the value of the most specific layer defining it: `item.data.sitemap`, then `item.data`, then `root.sitemap`, then `root` |
| SitemapUtils.MostSpecificPair | index.js:183 | for two layers, the later one wins where it defines the key |
| SitemapUtils.MostSpecificFour | index.js:92 | for the four layers, the item's two layers are consulted before the site's two |
| SitemapUtils.AssignIsMostSpecific | index.js:183 | `assign({}, a, b)` agrees key by key with the precedence reference |
| SitemapUtils.MergedIsMostSpecific | index.js:92 | merging global and item data agrees key by key with the four-layer precedence |
| UrlLayout.UrlTextOfFour | index.js:93-98 | the sequence of `+=` steps builds exactly the layout: a line break, each child indented four spaces on its own line, two spaces before the closing tag |
| UrlLayout.SplitAfterLine | index.js:93-98 | splitting text after a line with no line break yields that line first |
| UrlLayout.SplitSingleLine | index.js:93-98 | text without a line break is one line |
| UrlLayout.SplitIndented | index.js:94-98 | the children's lines followed by the closing indentation split into the indented children and the closing indentation |
| UrlLayout.UrlTextLines | index.js:93-98 | the `<url>` text is an empty first line, one four-space-indented line per child, and a last line of two spaces |
| UrlLayout.UnindentIndented | index.js:94-97 | removing the four-space indentation gives back the children |
| UrlLayout.UrlTextRoundTrip | index.js:93-98 | the children can be read back from the `<url>` text when none of them holds a line break |
| SitemapExamples.PlainPageSees | test/test.js:30-34 | for a page without data of its own, `url` sees each site setting, and the settings record under `sitemap` |
| SitemapExamples.PlainPageLoc | test/collections.js:29 | a plain page's location is the site URL resolved against `<stem>.html` |
| SitemapExamples.PlainPageLastmod | index.js:78-79 | with no date settings, a plain page's date is its file's modification time |
| SitemapExamples.UrlOfPlainPage | index.js:91-100 | the full `<url>` element of a plain page whose settings give a URL and no `dest` or dates |
| SitemapExamples.UrlForConfiguredSite | test/test.js:30-34 | a site configured with a URL, a change frequency and a priority renders every plain page with those values and the page file's date |
| SitemapExamples.UrlForBareSite | test/collections.js:29 | a site configured with a URL only renders the defaults "weekly" and "0.5" |
| SitemapExamples.ChangefreqItemOverride | index.js:186-189 | a page's own `sitemap.changefreq` beats the site's |
| SitemapExamples.UrlsetFromSitemapItems | test/test.js:54-78 | a list stored at `sitemap.items` is what `urlset` returns, and a site with no list is an error |
| SitemapExamples.KeepPlainPage | index.js:104 | a page whose stem is not "sitemap" and that does not opt out is kept |
| SitemapExamples.FilterDropsSitemapAndOptOut | index.js:102-106 | among four pages, the sitemap page and a page with `sitemap: false` are dropped and the other two keep their order |

## Left out

- The template getters `collections`, `template`, `layout`, `content`, `partial` and `page` (index.js:122-174) read bundled files from disk. Each of their setters always throws. They are file I/O and are not modelled.
- `helpers.collection` (index.js:24) is an external module.
- `greaterThan` (index.js:108-110) is JavaScript's coercing `>`. `throw` (index.js:112-116) raises an error whose `path` is the module's file name. Neither is part of this model.
- `html-tag`, `url.resolve`, `path.relative`, `path.join` and `moment(...).format('YYYY-MM-DD')` are supplied through `Host`. Their output (escaping, URL and path resolution, date formatting) is not modelled. `html-tag`'s own handling of a two-argument call is taken to be `toHtml(name, text, undefined)`.
- `new Date()` is the parameter `now`, a time in milliseconds.
- SitemapUtils.GlobalData: `assign-deep` merges nested records recursively. The model overrides top-level keys only, and none of the helpers reads a nested setting of the merged data.
- SitemapUtils.ItemData: the model copies only the fields of plain records and treats every other source as empty. What `assign-deep` does with array, date or primitive sources is not modelled.
- `get-value` is modelled as a plain walk through own record fields. Its support for dotted keys, arrays and functions is not modelled.
- Property reads see only a record's own fields. Built-in properties of strings and arrays (such as `length`) and inherited properties read as `undefined`.
- Numbers are reals. NaN, which is falsy, is not modelled.
- The `Date` objects the helpers see are a time value only. `isobject` counts them as objects, as the source does.
- The `SafeString` wrapper (index.js:191-199) is the datatype `SitemapUtils.SafeString`. Its `toString` returns the wrapped string. The `toHTML` alias and the wrapper's identity as a fresh object are not modelled.
- SitemapHelpers.FilterItems: the source's promise that the input is not mutated holds by construction, since lists are values in the model. Aliasing between the result and the input is not modelled.
