/**
 * The configuration and hint records of the rewriter (src/types.ts) and its
 * default options (src/constants.ts).
 */
module Types {
  import opened Wrappers

  /** The three `priority` levels; accepted in options but never consulted by the core. */
  datatype Priority = Auto | High | Low

  /** The `type` of a resource hint. */
  datatype HintKind = Preconnect | Prefetch | Preload

  /** The `rel` value a hint of this kind is written with. */
  function KindName(k: HintKind): string {
    match k
    case Preconnect => "preconnect"
    case Prefetch => "prefetch"
    case Preload => "preload"
  }

  /**
   * A `ResourceHint`. The optional `as` attribute is `destination` (`as` is a
   * Dafny keyword); an absent `crossorigin` is `false`, which the core treats alike.
   */
  datatype ResourceHint = ResourceHint(url: string, kind: HintKind, destination: Option<string>, crossorigin: bool)

  /** An `{ url, as }` pair: a discovered stylesheet or script, or an explicit preload. */
  datatype Resource = Resource(url: string, destination: string)

  /** An entry of `prefetchResources`; its `as` is never consulted. */
  datatype PrefetchResource = PrefetchResource(url: string, destination: Option<string>)

  /** A page's `cache` override. `ttl` is optional in practice (the tests leave it out). */
  datatype PageCache = PageCache(enabled: bool, ttl: Option<int>)

  /** `LCPConfig` with a string `url` (the RegExp alternative is not modelled). */
  datatype LcpConfig = LcpConfig(url: string, selector: string)

  /**
   * A `PageConfig`. An absent list is the empty list: the core reads every list
   * through `|| []`. `customTransform` and `fcpOptimizations` are never read by
   * the core and are not carried.
   */
  datatype PageConfig = PageConfig(
    lcpConfig: Option<LcpConfig>,
    prefetchRoutes: seq<string>,
    prefetchResources: seq<PrefetchResource>,
    preloadResources: seq<Resource>,
    cache: Option<PageCache>)

  /** The global `cache` policy (`CacheOptions`). */
  datatype CacheOptions = CacheOptions(enabled: bool, maxSize: Option<int>, ttl: Option<int>)

  /** One `pattern -> PageConfig` entry of `pages`, in the object's iteration order. */
  datatype PageEntry = PageEntry(pattern: string, config: PageConfig)

  /** `AutoLoadPerfOptions` after merging with the defaults: every key the core reads has a value. */
  datatype Options = Options(
    preconnect: bool,
    prefetch: bool,
    preload: bool,
    priority: Priority,
    maxPreloads: int,
    pages: seq<PageEntry>,
    cache: CacheOptions)

  /** What a caller passes to the optimizer: `Partial<AutoLoadPerfOptions>`, `None` for a key left out. */
  datatype PartialOptions = PartialOptions(
    preconnect: Option<bool>,
    prefetch: Option<bool>,
    preload: Option<bool>,
    priority: Option<Priority>,
    maxPreloads: Option<int>,
    pages: Option<seq<PageEntry>>,
    cache: Option<CacheOptions>)

  /** `DEFAULT_OPTIONS`: every phase on, five preloads, no pages, cache off with room for 100. */
  const DefaultOptions: Options := Options(
    preconnect := true,
    prefetch := true,
    preload := true,
    priority := Auto,
    maxPreloads := 5,
    pages := [],
    cache := CacheOptions(enabled := false, maxSize := Some(100), ttl := None))

  const NoOptions: PartialOptions := PartialOptions(None, None, None, None, None, None, None)

  /**
   * `{ ...DEFAULT_OPTIONS, ...given }`: a shallow merge, so a given key replaces
   * the default's value as a whole (a given `cache` drops the default `maxSize`).
   */
  function MergeOptions(given: PartialOptions): (o: Options)
    ensures o.preconnect == given.preconnect.GetOr(DefaultOptions.preconnect)
    ensures o.prefetch == given.prefetch.GetOr(DefaultOptions.prefetch)
    ensures o.preload == given.preload.GetOr(DefaultOptions.preload)
    ensures o.maxPreloads == given.maxPreloads.GetOr(DefaultOptions.maxPreloads)
    ensures o.pages == given.pages.GetOr(DefaultOptions.pages)
    ensures given.cache.Some? ==> o.cache == given.cache.value
    ensures given.cache.None? ==> !o.cache.enabled && o.cache.maxSize == Some(100)
  {
    Options(
      preconnect := given.preconnect.GetOr(DefaultOptions.preconnect),
      prefetch := given.prefetch.GetOr(DefaultOptions.prefetch),
      preload := given.preload.GetOr(DefaultOptions.preload),
      priority := given.priority.GetOr(DefaultOptions.priority),
      maxPreloads := given.maxPreloads.GetOr(DefaultOptions.maxPreloads),
      pages := given.pages.GetOr(DefaultOptions.pages),
      cache := given.cache.GetOr(DefaultOptions.cache))
  }
}
