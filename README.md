# auto-load-perf: a verified model of the resource-hint rewriter

auto-load-perf rewrites an HTML page before it is served. It adds
`<link rel="preconnect">`, `<link rel="preload">` and `<link rel="prefetch">`
hints to the page's `<head>`. It can also keep finished rewrites in a small
cache keyed on the page's raw HTML. This project models the three parts of
the library that carry logic and proves what they promise.

- **The result cache** (`src/utils/cache.ts`). Module `ResultCache`, class
  `Cache`. The store is a JavaScript `Map`, so it is modelled as a sequence of
  key/entry slots in insertion order with pairwise distinct keys. Entries
  expire lazily on read. A store at capacity evicts the oldest entry, ties
  going to the earliest slot. `clear` and `size` are modelled as well.
- **The page rewriter** (`src/utils/htmlProcessor.ts`). Module
  `HtmlProcessor`, class `Processor`. It counts third-party domains and keeps
  the top two. It also has the selection filters for stylesheets, scripts,
  anchor links and the LCP image. Hint injection renders each hint as a
  `<link …>` tag and prepends it to the head.
- **The optimizer** (`src/optimizer/ResourceOptimizer.ts`). Module
  `Optimizer`, class `ResourceOptimizer`. It merges the options with the
  defaults and resolves the page pattern, first match winning. It generates
  the ordered hint list under the shared `maxPreloads` cap. In `optimize`,
  the read gate and the write gate of the cache are deliberately asymmetric.
- **Supporting modules.** `Types` holds the records of `src/types.ts` and
  `DEFAULT_OPTIONS` of `src/constants.ts`. `Dom` holds the abstract parsed
  document. `Text` holds string helpers. `Wrappers` holds `Option` and
  `Result`.

Some of what the program uses is foreign code: the HTML parser and
serializer (cheerio), the CSS selector engine as applied to the configured
LCP selector, and the URL parser. These are the function-valued fields of the
`Dom.Library` record, and the model calls them without looking inside. The
page rewriter's fixed selectors are simple enough to be modelled directly. The clock (`Date.now()`) is the `now` parameter. The
SHA-256 digest the cache keys on is taken to be injective, so the cache is
keyed on the content itself.

Points where the code's behaviour is easy to misread:

- The page's explicit `preloadResources` come *after* the discovered
  stylesheets and scripts, and the same `maxPreloads` cap cuts them.
- Every hint is prepended to the head, so the head lists the links in
  *reverse* hint order, before the timestamp comment.
- An empty page goes through the whole pipeline like any other.
- A script is preloaded only when its `src` parses as an absolute URL on the
  current host. Relative script paths are never preloaded.
- Only anchor links are checked against the already-preloaded URLs. Page
  routes and prefetch resources are not.
- Attributes are read through cheerio's `.attr`, which reports a present
  boolean attribute such as `async` or `defer` by its own name. So
  `<script async>` counts as async even though its markup value is empty.
  `nomodule` is not on that list: a bare `<script nomodule>` reads as the
  empty string, so a same-host script with a bare `nomodule` is preloaded.

## Model

| member | source | states |
|---|---|---|
| ResultCache.IsExpired | src/utils/cache.ts:22-25 | an entry is expired when its ttl is present and non-zero and strictly more than ttl has elapsed since its timestamp |
| ResultCache.ExpiryIsPermanent | src/utils/cache.ts:22-25 | an entry expired at one time stays expired at every later time, and an entry with an undefined or zero ttl never expires |
| ResultCache.AfterEvict | src/utils/cache.ts:27-33 | the store `evictOldest` leaves: unchanged below capacity, without its oldest slot at capacity, and no store (a throw) at capacity when empty |
| ResultCache.GetResult | src/utils/cache.ts:35-46 | what `get` returns: the value of a present unexpired entry, otherwise nothing |
| ResultCache.AfterGet | src/utils/cache.ts:35-46 | the store `get` leaves: without the key when its entry has expired, otherwise unchanged |
| ResultCache.AfterSet | src/utils/cache.ts:48-57 | the store `set` leaves: the evicted store with the key mapped to the new entry stamped with `now`, or no store where eviction throws |
| ResultCache.OldestIndex | src/utils/cache.ts:27-31 | the slot `evictOldest` picks has the smallest timestamp of the store, and every earlier slot has a strictly larger one (the stable sort's tie rule) |
| ResultCache.Cache.constructor | src/utils/cache.ts:13-16 | a new cache is empty, with `maxSize` as given or 100 when undefined |
| ResultCache.Cache.EvictOldest | src/utils/cache.ts:27-33 | below capacity nothing changes; at capacity exactly the oldest slot is removed; at capacity with an empty store (`maxSize <= 0`) it fails and leaves the store; keys stay distinct |
| ResultCache.Cache.Get | src/utils/cache.ts:35-46 | returns the stored value only for a present, unexpired entry; an expired entry is deleted by the read; keys stay distinct |
| ResultCache.Cache.Set | src/utils/cache.ts:48-57 | evicts as `evictOldest` does, then stores the value stamped with `now` and the given ttl (an existing key keeps its position); fails exactly where eviction throws |
| ResultCache.Cache.Clear | src/utils/cache.ts:59-61 | the store is empty afterwards |
| ResultCache.Cache.Size | src/utils/cache.ts:63-65 | returns the number of stored entries |
| ResultCache.RemoveAtKeepsKeysDistinct | src/utils/cache.ts:27-33 | evicting a slot keeps the store's keys distinct |
| ResultCache.DeleteKeepsKeysDistinct | src/utils/cache.ts:40-43 | deleting an expired key keeps the store's keys distinct |
| ResultCache.PutKeepsKeysDistinct | src/utils/cache.ts:53-56 | `Map.set` keeps keys distinct, whether the key is new or present |
| ResultCache.LookupRemoveAt | src/utils/cache.ts:27-33 | removing a slot shrinks the store by one, makes its key miss and leaves every other key's entry alone |
| ResultCache.LookupPut | src/utils/cache.ts:53-56 | after `Map.set` the key finds the new entry and every other key its old one; the size grows by one only for a new key |
| ResultCache.SetThenGetHits | src/utils/cache.ts:35-57 | a successful `set` followed by a `get` with `now - timestamp <= ttl`, or with ttl undefined or 0 at any time, returns the stored value and keeps the store |
| ResultCache.GetAbsentMisses | src/utils/cache.ts:35-39 | reading an absent content returns nothing and leaves the store unchanged |
| ResultCache.GetHitIffFresh | src/utils/cache.ts:22-46 | a present entry is a hit exactly when its ttl is undefined or 0 or `now - timestamp <= ttl`; a hit leaves the store |
| ResultCache.ExpiredGetDeletesOnlyThatKey | src/utils/cache.ts:40-43 | reading an expired entry misses and deletes exactly that key: the size drops by one and every other key reads as before |
| ResultCache.SetKeepsSizeBound | src/utils/cache.ts:27-57 | with `maxSize >= 1` and the store within bounds, `set` succeeds, keys stay distinct and the size stays within `maxSize` |
| ResultCache.SetThrowsIffNoRoom | src/utils/cache.ts:27-33 | `set` throws exactly when the store is empty and `maxSize <= 0` |
| ResultCache.SetAtCapacityEvictsOldest | src/utils/cache.ts:27-57 | at capacity, `set` removes the oldest entry (first among equal timestamps), stores the new entry, and leaves every other entry unchanged; the size is given exactly |
| ResultCache.ClearedCacheMisses | src/utils/cache.ts:59-65 | every read of a cleared cache misses and keeps it empty |
| ResultCache.DistinctContentsDoNotCollide | src/__tests__/cache.test.ts:64-74 | two distinct contents stored with room for both each read back their own value |
| ResultCache.ThirdInsertEvictsFirst | src/__tests__/cache.test.ts:39-52 | in a two-entry cache, storing three contents at non-decreasing times evicts the first and keeps the other two readable |
| Types.MergeOptions | src/optimizer/ResourceOptimizer.ts:12 | each option given replaces the default as a whole, and each option left out takes its value from `DEFAULT_OPTIONS`; without a given `cache` it is disabled with room for 100 |
| HtmlProcessor.Tally | src/utils/htmlProcessor.ts:29-39 | the `domainCounts` map after counting the hostnames in order: each new domain appended with count 1, a seen one incremented in place |
| HtmlProcessor.SortByCount | src/utils/htmlProcessor.ts:41-43 | the counts sorted by descending count, equal counts keeping their order |
| HtmlProcessor.TopDomains | src/utils/htmlProcessor.ts:41-44 | the first two entries of the sorted counts |
| HtmlProcessor.ExtractedDomains | src/utils/htmlProcessor.ts:19-45 | what `extractDomains` returns for a document: the top two of the counted hostnames of its candidate URLs |
| HtmlProcessor.DomainCandidates | src/utils/htmlProcessor.ts:20-27 | a URL is a candidate exactly when some scanned element (`link[href]`, `script[src]`, `img[src]`, `a[href]`) yields it as its non-empty `href`, otherwise its `src`, and it starts with `http` |
| HtmlProcessor.CountedHostsFacts | src/utils/htmlProcessor.ts:29-39 | a domain's count is the number of candidate URLs whose hostname parses to it, and the current domain is never counted |
| HtmlProcessor.TallyFacts | src/utils/htmlProcessor.ts:29-39 | the counting map has each domain once, with its number of occurrences, covers every counted domain, and keeps first-seen order |
| HtmlProcessor.SortByCountFacts | src/utils/htmlProcessor.ts:41-43 | the sort is non-increasing by count, a permutation of its input, stable, and keeps domains distinct |
| HtmlProcessor.TopDomainsPrefix | src/utils/htmlProcessor.ts:41-44 | the result is the first `min(2, n)` entries of the sorted list |
| HtmlProcessor.TopDomainsOutrank | src/utils/htmlProcessor.ts:41-44 | the result is sorted and no left-out domain has a higher count than a kept one |
| HtmlProcessor.TopDomainsMembers | src/utils/htmlProcessor.ts:29-44 | every kept domain was seen, carries its exact count, and appears once |
| HtmlProcessor.TopDomainsTies | src/utils/htmlProcessor.ts:29-44 | kept domains with equal counts come in first-seen order |
| HtmlProcessor.TopDomainsFacts | src/utils/htmlProcessor.ts:29-44 | the top list has `min(2, n)` distinct, sorted, exactly counted entries; nothing left out outranks a kept one; ties keep first-seen order |
| HtmlProcessor.ExtractedDomainsCounted | src/utils/htmlProcessor.ts:19-45 | at most two domains come back, none is the current domain, and each count is the number of its qualifying URLs |
| HtmlProcessor.Processor.constructor | src/utils/htmlProcessor.ts:14-17 | the processor holds the parsed page and the current domain |
| HtmlProcessor.Processor.ExtractDomains | src/utils/htmlProcessor.ts:19-45 | the counting loop computes the top-two list of the pure definition; at most two entries, none the current domain, counts exact |
| HtmlProcessor.ShouldPreloadScript | src/utils/htmlProcessor.ts:69-94 | false when `async`, `defer` or `nomodule` is truthy, `type` is `module`, `src` is missing or empty, or its hostname is not the current domain; true in every other case |
| HtmlProcessor.ShouldPreloadScriptOnMarkup | src/utils/htmlProcessor.ts:69-94 | read off the markup: a script is preloaded exactly when it has no `async` or `defer` attribute at all, its `type` is not `module`, any `nomodule` it has is valueless, and its non-empty `src` parses to the current host |
| HtmlProcessor.BareNomoduleScriptIsPreloaded | src/utils/htmlProcessor.ts:78-80 | a same-host script with a bare `nomodule` attribute is preloaded, because `.attr('nomodule')` reads it as the empty string |
| HtmlProcessor.StylesheetUrls | src/utils/htmlProcessor.ts:96-107 | exactly the non-empty hrefs of `link[rel="stylesheet"]`, with `rel` compared ignoring ASCII case as the selector engine does, each tagged `style`, in document order |
| HtmlProcessor.StylesheetRelIgnoresCase | src/utils/htmlProcessor.ts:96-107 | example: `rel="StyleSheet"` and `rel="STYLESHEET"` links are preloaded as `style`; `rel="stylesheet preload"` and a padded value are not selected |
| HtmlProcessor.ScriptUrls | src/utils/htmlProcessor.ts:109-121 | exactly the `src` of the scripts `shouldPreloadScript` accepts, each non-empty, tagged `script` and on the current host |
| HtmlProcessor.LinkUrls | src/utils/htmlProcessor.ts:123-131 | exactly the anchor hrefs that begin with `/` |
| HtmlProcessor.FilterMapAppend | src/utils/htmlProcessor.ts:96-131 | the selection filters keep document order: filtering two parts of a document gives the first part's results followed by the second's |
| HtmlProcessor.FindLcpImage | src/utils/htmlProcessor.ts:47-67 | no result without an LCP config; otherwise the first selected element whose `src` is non-empty, not `data:` and contains the configured url, with that config, and no result exactly when none qualifies |
| HtmlProcessor.LinkTag | src/utils/htmlProcessor.ts:140-150 | the markup for one hint: its attributes in insertion order as `key="value"`, joined by spaces, inside `<link` and `>` |
| HtmlProcessor.TimestampComment | src/utils/htmlProcessor.ts:137 | the comment prepended first: `<!-- Processed at: N -->` and a newline, with `N` the clock reading in decimal |
| HtmlProcessor.LinkTagShape | src/utils/htmlProcessor.ts:139-150 | each hint renders as `<link rel="T" href="U">`, with ` as="A"` only for a non-empty destination and ` crossorigin=""` only when set |
| HtmlProcessor.PrependAll | src/utils/htmlProcessor.ts:137-151 | the head starts with the hint links in reverse hint order, followed by the previous head content |
| HtmlProcessor.Processor.InjectResourceHints | src/utils/htmlProcessor.ts:133-154 | the head becomes the links in reverse hint order, then the timestamp comment, then the original head; the result is the serialized page |
| Optimizer.GlobMatch | src/optimizer/ResourceOptimizer.ts:29-30 | the anchored regular expression a `*`-pattern compiles to: each `*` matches any run of non-line-terminator characters, each `.` any one of them, every other character itself, over the whole url |
| Optimizer.MatchesPattern | src/optimizer/ResourceOptimizer.ts:20-37 | the rule of one pattern, in branch order: starting with `/` it is a suffix test (even with a `*`), starting with `http` an equality test, holding `*` an anchored glob test, and otherwise a substring test |
| Optimizer.FirstMatch | src/optimizer/ResourceOptimizer.ts:18-40 | the index found is the first entry whose pattern rule holds; no index exactly when no rule holds |
| Optimizer.FindMatchingPageConfig | src/optimizer/ResourceOptimizer.ts:18-40 | returns the config of the first pattern, in iteration order, whose rule holds, and nothing exactly when no rule holds |
| Optimizer.EarlierPatternWins | src/optimizer/ResourceOptimizer.ts:18-40 | a matching entry preceded only by non-matching ones is the one chosen |
| Optimizer.GlobLiteral | src/optimizer/ResourceOptimizer.ts:28-32 | a compiled pattern without `*` or `.` matches exactly the equal string |
| Optimizer.GlobStarSuffix | src/optimizer/ResourceOptimizer.ts:28-32 | `*q` matches exactly the strings that end with `q` and whose prefix has no line terminator |
| Optimizer.GlobDotExamples | src/optimizer/ResourceOptimizer.ts:28-32 | `*.html` matches `page.html` and, since `.` is a regex wildcard, `pagexhtml`, but not `page.htm` |
| Optimizer.GlobStarDotHtml | src/optimizer/ResourceOptimizer.ts:28-32 | `*.html` matches exactly the single-line strings that end in any non-line-terminator followed by `html` |
| Optimizer.GlobStarDotSuffix | src/optimizer/ResourceOptimizer.ts:28-32 | `*.q` matches exactly the single-line strings that end in any non-line-terminator followed by `q` |
| Optimizer.GlobDotLiteral | src/optimizer/ResourceOptimizer.ts:28-32 | `.q` matches exactly one non-line-terminator followed by `q` |
| Optimizer.SuffixPatternExamples | src/optimizer/ResourceOptimizer.ts:20-23 | example: `/test` matches `/app/test` but not `/testing` |
| Optimizer.SlashStarIsLiteralSuffix | src/optimizer/ResourceOptimizer.ts:20-23 | example: `/*` takes the suffix branch, so it matches `/docs/*` but not `/docs` |
| Optimizer.HttpPatternExamples | src/optimizer/ResourceOptimizer.ts:24-27 | example: `https://example.com/a` matches itself but not the same url with a trailing `/` |
| Optimizer.SubstringPatternExamples | src/optimizer/ResourceOptimizer.ts:33-36 | example: `example` matches `/shop/example/page` but not `/shop` |
| Optimizer.Unpreloaded | src/optimizer/ResourceOptimizer.ts:86-87 | exactly the anchor links not already preloaded |
| Optimizer.UnpreloadedAppend | src/optimizer/ResourceOptimizer.ts:86-87 | the filter keeps order and repeats: filtering two runs of links gives the first run's survivors followed by the second's |
| Optimizer.UnpreloadedOne | src/optimizer/ResourceOptimizer.ts:86-87 | a single link survives exactly when it was not preloaded |
| Optimizer.Cap | src/optimizer/ResourceOptimizer.ts:66 | the preload and prefetch cap: `maxPreloads`, or five when it is zero |
| Optimizer.HintsFrom | src/optimizer/ResourceOptimizer.ts:53-98 | the hint list built from the scan results: the preconnect section, then the capped preloads of the critical resources, then the capped prefetches of the candidates |
| Optimizer.GeneratedHints | src/optimizer/ResourceOptimizer.ts:46-101 | `HintsFrom` applied to the top domains, stylesheets, scripts and anchor links of the parsed document and to the matched page configuration |
| Optimizer.HintPhaseOrder | src/optimizer/ResourceOptimizer.ts:55-98 | every preconnect hint comes before every preload hint, which comes before every prefetch hint |
| Optimizer.PreconnectHintsFacts | src/optimizer/ResourceOptimizer.ts:53-63 | with preconnect on, the list opens with one hint per top domain, in order, to `https://` and the domain, with crossorigin set |
| Optimizer.PreloadHintsFacts | src/optimizer/ResourceOptimizer.ts:65-82 | with preload on, the preload hints are the first `min(n, cap)` of stylesheets, then scripts, then the page's explicit preloads, in order; `cap` is `maxPreloads`, 5 when it is 0, and a negative cap yields none |
| Optimizer.PrefetchHintsFacts | src/optimizer/ResourceOptimizer.ts:84-98 | with prefetch on, the list ends with the first `min(n, cap)` prefetch candidates, in order |
| Optimizer.PrefetchCandidatesFacts | src/optimizer/ResourceOptimizer.ts:86-90 | only anchor links are filtered: a preloaded candidate can only come from the page's routes or resources, and every unpreloaded anchor link is a candidate |
| Optimizer.RouteMayRepeatPreload | src/optimizer/ResourceOptimizer.ts:86-97 | a page route that was already preloaded is still prefetched |
| Optimizer.DefaultCapIsFive | src/optimizer/ResourceOptimizer.ts:66 | an undefined or zero `maxPreloads` gives a cap of 5; the defaults turn every phase on and the cache off |
| Optimizer.PushPreconnects | src/optimizer/ResourceOptimizer.ts:55-63 | the loop appends one preconnect hint per top domain, in order |
| Optimizer.PushPreloads | src/optimizer/ResourceOptimizer.ts:73-81 | the loop appends the capped preload hints in order and records exactly their urls as preloaded |
| Optimizer.PushPrefetches | src/optimizer/ResourceOptimizer.ts:92-97 | the loop appends the capped prefetch hints in order |
| Optimizer.ResourceOptimizer.constructor | src/optimizer/ResourceOptimizer.ts:11-16 | the options are the merged options; a fresh empty cache of the configured size exists exactly when caching is enabled |
| Optimizer.ResourceOptimizer.GenerateResourceHints | src/optimizer/ResourceOptimizer.ts:46-101 | the loops produce the hint list of the pure definition, whose order and caps the lemmas above state |
| Optimizer.ResourceOptimizer.Rewrite | src/optimizer/ResourceOptimizer.ts:115-120 | the rewrite is the parsed page with the generated hints and the timestamp injected into its head, serialized |
| Optimizer.ResourceOptimizer.ReadGate | src/optimizer/ResourceOptimizer.ts:107-113 | the cache is read only when it exists and the page does not set `cache.enabled` to `false`; otherwise nothing is read and the store is kept |
| Optimizer.ResourceOptimizer.WriteGate | src/optimizer/ResourceOptimizer.ts:122-125 | the rewrite is stored, with the page's ttl, only when the cache exists and the matched page sets `cache.enabled`; otherwise the store is kept |
| Optimizer.ResourceOptimizer.Optimize | src/optimizer/ResourceOptimizer.ts:103-128 | the result and the new store are those of one gated step: a fresh non-empty cached value is returned as it is; otherwise the rewrite is returned and stored when the page opts in; without a cache the rewrite is returned |
| Optimizer.OptimizeStep | src/optimizer/ResourceOptimizer.ts:103-128 | one `optimize` call on the store: a fresh non-empty cached value when the read gate opens, otherwise the rewrite, stored with the page's ttl when the write gate opens, or a failure where storing throws |
| Optimizer.BypassedCacheIsUntouched | src/optimizer/ResourceOptimizer.ts:103-128 | with the global cache off, or the page switching it off, the rewrite is returned and the store is untouched |
| Optimizer.OnlyOptedInPagesAreStored | src/optimizer/ResourceOptimizer.ts:122-125 | without a page that opts in, including no matched page, optimize succeeds and stores nothing; at most the expired entry it read is gone |
| Optimizer.MissingPageCacheStillReads | src/optimizer/ResourceOptimizer.ts:107-125 | a page without a `cache` entry, or no matched page, still reads the cache and is served from it, although such a page is never stored |
| Optimizer.HitServesCachedValue | src/optimizer/ResourceOptimizer.ts:107-113 | with the read gate open, a fresh non-empty cached value is returned and the store is kept |
| Optimizer.EmptyCachedValueIsMiss | src/optimizer/ResourceOptimizer.ts:109-112 | a cached empty string is a miss: the rewrite is returned instead |
| Optimizer.StoredRewriteIsReused | src/optimizer/ResourceOptimizer.ts:103-128 | a rewrite stored by one call is returned unchanged by a later call within the page's ttl, and that call leaves the store unchanged |
| Optimizer.OptimizeKeepsSizeBound | src/optimizer/ResourceOptimizer.ts:103-128 | optimize fails only when the page opts in and `maxSize <= 0`; with `maxSize >= 1` and a store within bounds it succeeds and the store stays within bounds with distinct keys |

## Left out

- HTML parsing, serialization and the evaluation of the configured LCP selector (cheerio) are not modelled. They are the function fields `parse`, `render` and `select` of `Dom.Library`, and only how the model uses them is stated. The fixed selectors of the page rewriter (`link[href], script[src], img[src], a[href]`, `link[rel="stylesheet"]`, `script[src]`, `a[href]`) are modelled directly as predicates on elements, with the `rel` value compared ignoring case as outside XML mode.
- URL parsing (`new URL(url).hostname`) is the partial function `hostname` of `Dom.Library`. A URL that throws is `None`.
- The SHA-256 content hash is not modelled. The cache keys on the content itself, which treats the digest as injective.
- `Date.now()` is the `now` parameter. One `optimize` call uses a single `now` for the cache read, the timestamp comment and the cache write, where the source reads the clock at each of these.
- `Optimizer.ResourceOptimizer.constructor` requires that every `*` pattern avoids regular-expression syntax other than `*` and `.`. So do `Optimizer.FindMatchingPageConfig`, `Optimizer.FirstMatch` and the optimizer's methods, through `Valid()`. The source accepts any pattern and compiles it into a regular expression; the model covers `.` (any character but a line terminator) and `*` (any run of such characters).
- Optimizer.GlobMatch: `.` and `*` step over one Unicode scalar value, where the source's regular expression (no `u` flag) steps over UTF-16 code units; a `.` facing a character outside the Basic Multilingual Plane matches in the model but not in the source.
- ResultCache.IsExpired: timestamps, `ttl` and `maxSize` are integers; a fractional `ttl` or `maxSize`, which the source compares as a JavaScript number, is not modelled.
- `Optimizer.GlobMatch` anchors the whole url. The source's `^…$` anchors do the same, with no multiline flag.
- The `RegExp` form of `LCPConfig.url` is not modelled. Only the string form is modelled, as a substring test.
- `getPageConfig` is not modelled. The class never calls it.
- The instance field `topDomains` is not modelled as a field. It is a local result, because nothing else in the class reads it.
- Minification, FCP critical styles, `customTransform`, picture handling and `priority` are declared in the options, but no code in the core acts on them. They are carried as plain data (`priority`) or left out.
- The Express and Next.js middleware and the embedded picture-preloader script are not modelled. They are response glue and browser code.
- An option key that is present with the value `undefined` is not distinguished from an absent key. The spread would keep it as `undefined`.
- A fractional `maxPreloads` is not modelled. The cap is an integer.
- The ordering of integer-like keys in `Object.entries` is not modelled. The pattern entries of `pages` are taken in the order given, which is JavaScript's order for non-numeric keys.
- `Dom.BooleanAttributes` is cheerio's list of attributes that `.attr` reports by name; cheerio itself is not part of this model.
- `HtmlProcessor.LinkTagShape` renders attribute values as they are. The serializer's escaping of quotes and its rendering of an empty `crossorigin` attribute are part of the opaque `render`.
- `HtmlProcessor.ShouldPreloadScript` decides "parses" through the abstract `hostname`. For a relative `src` that means `None`, as with `new URL` without a base.
