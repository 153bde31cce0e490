/**
 * The `ResourceOptimizer` of src/optimizer/ResourceOptimizer.ts: resolving a
 * request path to a page configuration, synthesising the ordered list of
 * resource hints, and the optimize pipeline with its cache gating.
 */
module Optimizer {
  import opened Wrappers
  import opened Text
  import opened Types
  import opened Dom
  import opened HtmlProcessor
  import opened ResultCache

  // ---------------------------------------------------------------------------
  // Page patterns (findMatchingPageConfig)

  /** The characters a regular expression's `.` does not match. */
  predicate IsLineTerminator(c: char) {
    c == '\n' || c == '\r' || c == '\U{2028}' || c == '\U{2029}'
  }

  /** Regular-expression syntax a `*`-pattern is compiled with unescaped, other than `.` and `*`. */
  predicate IsRegexSyntax(c: char) {
    c in "\\^$|?+()[]{}"
  }

  /** One pattern character against one path character: `.` is the any-character class. */
  predicate CharMatches(pc: char, c: char) {
    if pc == '.' then !IsLineTerminator(c) else pc == c
  }

  /**
   * `new RegExp('^' + pattern.replace(/\*\/g, '.*') + '$').test(s)` for a pattern
   * free of other regular-expression syntax: each `*` matches any run of
   * non-line-terminator characters, each `.` any one of them, every other
   * character itself, and the match spans the whole of `s`.
   */
  predicate GlobMatch(p: string, s: string)
    decreases |p| + |s|
  {
    if p == [] then s == []
    else if p[0] == '*' then GlobMatch(p[1..], s) || (s != [] && !IsLineTerminator(s[0]) && GlobMatch(p, s[1..]))
    else s != [] && CharMatches(p[0], s[0]) && GlobMatch(p[1..], s[1..])
  }

  /** A pattern that takes the `*` branch. */
  predicate IsGlobPattern(pattern: string) {
    !StartsWith(pattern, "/") && !StartsWith(pattern, "http") && '*' in pattern
  }

  /** A pattern whose behaviour this model captures: a `*`-pattern carries no regular-expression syntax beyond `.` and `*`. */
  predicate PatternSupported(pattern: string) {
    IsGlobPattern(pattern) ==> forall i :: 0 <= i < |pattern| ==> !IsRegexSyntax(pattern[i])
  }

  predicate PatternsSupported(pages: seq<PageEntry>) {
    forall i :: 0 <= i < |pages| ==> PatternSupported(pages[i].pattern)
  }

  /**
   * The rule one page pattern applies to a path, tried in this order: a
   * pattern starting with `/` is a suffix of the path, one starting with
   * `http` equals it, one holding `*` matches all of it as a glob, and any
   * other pattern occurs in it.
   */
  predicate MatchesPattern(pattern: string, url: string)
    requires PatternSupported(pattern)
  {
    if StartsWith(pattern, "/") then EndsWith(url, pattern)
    else if StartsWith(pattern, "http") then url == pattern
    else if '*' in pattern then GlobMatch(pattern, url)
    else Contains(url, pattern)
  }

  /** The position of the first entry, in the order of `pages`, whose pattern matches `url`. */
  function FirstMatch(pages: seq<PageEntry>, url: string): (r: Option<nat>)
    requires PatternsSupported(pages)
    ensures r.Some? ==> r.value < |pages| && MatchesPattern(pages[r.value].pattern, url)
    ensures r.Some? ==> forall j :: 0 <= j < r.value ==> !MatchesPattern(pages[j].pattern, url)
    ensures r.None? ==> forall j :: 0 <= j < |pages| ==> !MatchesPattern(pages[j].pattern, url)
  {
    if pages == [] then None
    else if MatchesPattern(pages[0].pattern, url) then Some(0)
    else match FirstMatch(pages[1..], url)
      case None => None
      case Some(i) => Some(i + 1)
  }

  /**
   * `findMatchingPageConfig`: the configuration of the first pattern that
   * matches, or none when no pattern does.
   */
  function FindMatchingPageConfig(pages: seq<PageEntry>, url: string): (r: Option<PageConfig>)
    requires PatternsSupported(pages)
    ensures r.None? <==> forall j :: 0 <= j < |pages| ==> !MatchesPattern(pages[j].pattern, url)
    ensures r.Some? ==>
      exists i :: (0 <= i < |pages| && MatchesPattern(pages[i].pattern, url) && r.value == pages[i].config
        && forall j :: 0 <= j < i ==> !MatchesPattern(pages[j].pattern, url))
  {
    match FirstMatch(pages, url)
    case None => None
    case Some(i) => Some(pages[i].config)
  }

  /** An earlier matching entry shadows every later one, whatever it says. */
  lemma EarlierPatternWins(pages: seq<PageEntry>, url: string, i: nat)
    requires PatternsSupported(pages)
    requires i < |pages| && MatchesPattern(pages[i].pattern, url)
    requires forall j :: 0 <= j < i ==> !MatchesPattern(pages[j].pattern, url)
    ensures FindMatchingPageConfig(pages, url) == Some(pages[i].config)
  {
    var r := FirstMatch(pages, url);
    if r.value < i {
    } else if r.value > i {
    }
  }

  /** A pattern with neither `*` nor `.` matches, as a glob, exactly the string it spells. */
  lemma {:induction false} GlobLiteral(p: string, s: string)
    requires forall i :: 0 <= i < |p| ==> p[i] != '*' && p[i] != '.'
    ensures GlobMatch(p, s) <==> s == p
  {
    if p != [] && s != [] {
      GlobLiteral(p[1..], s[1..]);
      if s == p {
        assert s[1..] == p[1..];
      } else if s[0] == p[0] {
        assert s == [s[0]] + s[1..] && p == [p[0]] + p[1..];
      }
    }
  }

  /** A string holds no line terminator. */
  predicate SingleLine(s: string) {
    forall i :: 0 <= i < |s| ==> !IsLineTerminator(s[i])
  }

  /**
   * A leading `*` before a literal tail matches exactly the strings that end
   * with the tail and hold no line terminator before it.
   */
  lemma {:induction false} GlobStarSuffix(q: string, s: string)
    requires forall i :: 0 <= i < |q| ==> q[i] != '*' && q[i] != '.'
    ensures GlobMatch("*" + q, s) <==> EndsWith(s, q) && SingleLine(s[..|s| - |q|])
    decreases |s|
  {
    var p := "*" + q;
    assert p[1..] == q;
    GlobLiteral(q, s);
    if s != [] {
      GlobStarSuffix(q, s[1..]);
      if |q| <= |s| - 1 {
        assert s[1..][|s[1..]| - |q|..] == s[|s| - |q|..];
        SingleLinePrefix(s, |s| - |q|);
      }
    }
  }

  /** A non-empty prefix is a single line when its first character and the rest of it are. */
  lemma SingleLinePrefix(s: string, n: nat)
    requires 1 <= n <= |s|
    ensures SingleLine(s[..n]) <==> !IsLineTerminator(s[0]) && SingleLine(s[1..][..n - 1])
  {
    var front, rest := s[..n], s[1..][..n - 1];
    assert forall i :: 0 <= i < |rest| ==> rest[i] == front[i + 1];
    if !IsLineTerminator(s[0]) && SingleLine(rest) {
      forall i | 0 <= i < |front| ensures !IsLineTerminator(front[i]) {
        if i > 0 {
          assert front[i] == rest[i - 1];
        }
      }
    }
  }

  /**
   * A `*`-pattern's `.` is the regular-expression wildcard, not a literal dot:
   * `*.html` matches `page.html` and also `pagexhtml`, but not `page.htm`.
   */
  lemma GlobDotExamples()
    ensures MatchesPattern("*.html", "page.html")
    ensures MatchesPattern("*.html", "pagexhtml")
    ensures !MatchesPattern("*.html", "page.htm")
  {
    var p := "*.html";
    assert !StartsWith(p, "/") && !StartsWith(p, "http") && '*' in p by {
      assert p[0] == '*';
    }
    DotHtmlMatches("page", '.');
    assert "page" + ['.'] + "html" == "page.html";
    DotHtmlMatches("page", 'x');
    assert "page" + ['x'] + "html" == "pagexhtml";
    GlobStarDotHtml("page.htm");
    assert "page.htm"[8 - 4..] != "html" by {
      assert "page.htm"[8 - 4..][0] == '.';
    }
  }

  lemma DotHtmlMatches(name: string, c: char)
    requires SingleLine(name) && !IsLineTerminator(c)
    ensures GlobMatch("*.html", name + [c] + "html")
  {
    var s := name + [c] + "html";
    GlobStarDotHtml(s);
    assert s[|s| - 5] == c;
    assert s[|s| - 4..] == "html";
    assert s[..|s| - 5] == name;
  }

  /** `*.html` as a glob: a single line ending in any character followed by `html`. */
  lemma GlobStarDotHtml(s: string)
    ensures GlobMatch("*.html", s) <==> |s| >= 5 && !IsLineTerminator(s[|s| - 5]) && s[|s| - 4..] == "html" && SingleLine(s[..|s| - 5])
  {
    var q := "html";
    assert "*.html" == "*" + ("." + q);
    GlobStarDotSuffix(q, s);
  }

  /** A leading `*`, then `.`, then a literal tail. */
  lemma {:induction false} GlobStarDotSuffix(q: string, s: string)
    requires forall i :: 0 <= i < |q| ==> q[i] != '*' && q[i] != '.'
    ensures GlobMatch("*" + ("." + q), s) <==>
      |s| > |q| && !IsLineTerminator(s[|s| - |q| - 1]) && s[|s| - |q|..] == q && SingleLine(s[..|s| - |q| - 1])
    decreases |s|
  {
    var p := "*" + ("." + q);
    assert p[1..] == "." + q && ("." + q)[1..] == q;
    GlobDotLiteral(q, s);
    if s != [] {
      GlobStarDotSuffix(q, s[1..]);
      var n := |s| - |q| - 1;
      if |s| > |q| + 1 {
        assert s[1..][|s[1..]| - |q|..] == s[|s| - |q|..];
        assert s[1..][|s[1..]| - |q| - 1] == s[n];
        SingleLinePrefix(s, n);
      }
    }
  }

  /** `.` followed by a literal tail matches exactly one non-line-terminator and then the tail. */
  lemma GlobDotLiteral(q: string, s: string)
    requires forall i :: 0 <= i < |q| ==> q[i] != '*' && q[i] != '.'
    ensures GlobMatch("." + q, s) <==> |s| == |q| + 1 && !IsLineTerminator(s[0]) && s[1..] == q
  {
    assert ("." + q)[1..] == q;
    if s != [] {
      GlobLiteral(q, s[1..]);
    }
  }

  /** A `/`-pattern is a path suffix: `/test` covers `/app/test` but not `/testing`. */
  lemma SuffixPatternExamples()
    ensures MatchesPattern("/test", "/app/test") && !MatchesPattern("/test", "/testing")
  {
    assert "/app/test"[9 - 5..] == "/test";
    assert "/testing"[8 - 5..] != "/test" by { assert "/testing"[8 - 5..][0] == 's'; }
  }

  // The pattern slash-star starts with `/`, so it is a literal suffix rather
  // than a wildcard: it covers only paths that end in slash-star.
  lemma SlashStarIsLiteralSuffix()
    ensures MatchesPattern("/*", "/docs/*") && !MatchesPattern("/*", "/docs")
  {
    assert "/docs/*"[7 - 2..] == "/*";
    assert "/docs"[5 - 2..] != "/*" by { assert "/docs"[5 - 2..][1] == 's'; }
  }

  /** An `http`-pattern must equal the path exactly; a trailing slash already differs. */
  lemma HttpPatternExamples()
    ensures MatchesPattern("https://example.com/a", "https://example.com/a")
    ensures !MatchesPattern("https://example.com/a", "https://example.com/a/")
  {
    assert "https://example.com/a"[..4] == "http";
  }

  /** Any other pattern is a substring test. */
  lemma SubstringPatternExamples()
    ensures MatchesPattern("example", "/shop/example/page") && !MatchesPattern("example", "/shop")
  {
    assert IsPlain("example") by {
      assert "example"[..1] != "/" && "example"[..4] != "http" by { assert "example"[0] == 'e'; }
    }
    assert Contains("/shop/example/page", "example") by {
      assert OccursAt("/shop/example/page", "example", 6) by {
        assert "/shop/example/page"[6..13] == "example";
      }
      ContainsIffWindow("/shop/example/page", "example");
    }
    assert !Contains("/shop", "example") by {
      ContainsIffWindow("/shop", "example");
    }
  }

  /** A pattern that takes the substring branch. */
  predicate IsPlain(p: string) {
    !StartsWith(p, "/") && !StartsWith(p, "http") && '*' !in p
  }

  // ---------------------------------------------------------------------------
  // Hint synthesis (generateResourceHints)

  /** `Array.prototype.map`. */
  function MapSeq<A, B>(s: seq<A>, f: A -> B): (r: seq<B>)
    ensures |r| == |s|
    ensures forall i :: 0 <= i < |s| ==> r[i] == f(s[i])
  {
    if s == [] then [] else MapSeq(s[..|s| - 1], f) + [f(s[|s| - 1])]
  }

  lemma MapSeqSnoc<A, B>(s: seq<A>, i: nat, f: A -> B)
    requires i < |s|
    ensures MapSeq(s[..i + 1], f) == MapSeq(s[..i], f) + [f(s[i])]
  {
    assert s[..i + 1][..i] == s[..i];
  }

  /** `Math.min` */
  function Min(a: int, b: int): int {
    if a <= b then a else b
  }

  /** `maxPreloads || 5`: a zero cap falls back to five. */
  function Cap(o: Options): int {
    if o.maxPreloads == 0 then 5 else o.maxPreloads
  }

  /** How many times `for (let i = 0; i < Math.min(n, cap); i++)` runs. */
  function Iterations(n: nat, cap: int): (k: nat)
    ensures k <= n
    ensures cap <= 0 ==> k == 0
    ensures 0 <= cap ==> k == Min(n, cap)
  {
    if Min(n, cap) <= 0 then 0 else Min(n, cap)
  }

  /** The items such a loop visits: the first `Iterations(|s|, cap)` of `s`. */
  function Capped<T>(s: seq<T>, cap: int): (r: seq<T>)
    ensures |r| == Iterations(|s|, cap)
    ensures forall i :: 0 <= i < |r| ==> r[i] == s[i]
  {
    s[..Iterations(|s|, cap)]
  }

  function PreconnectHint(d: DomainCount): ResourceHint {
    ResourceHint("https://" + d.domain, Preconnect, None, true)
  }

  function PreloadHint(r: Resource): ResourceHint {
    ResourceHint(r.url, Preload, Some(r.destination), false)
  }

  function PrefetchHint(url: string): ResourceHint {
    ResourceHint(url, Prefetch, None, false)
  }

  function ResourceUrl(r: Resource): string {
    r.url
  }

  function PrefetchResourceUrl(r: PrefetchResource): string {
    r.url
  }

  /** `pageConfig?.preloadResources || []` */
  function PagePreloads(pc: Option<PageConfig>): seq<Resource> {
    if pc.Some? then pc.value.preloadResources else []
  }

  /** `pageConfig?.prefetchRoutes || []` followed by the urls of `pageConfig?.prefetchResources`. */
  function PagePrefetches(pc: Option<PageConfig>): seq<string> {
    if pc.Some? then pc.value.prefetchRoutes + MapSeq(pc.value.prefetchResources, PrefetchResourceUrl) else []
  }

  /** `filter(href => !preloadedUrls.has(href))` */
  function Unpreloaded(urls: seq<string>, preloaded: set<string>): (r: seq<string>)
    ensures |r| <= |urls|
    ensures forall u :: u in r <==> u in urls && u !in preloaded
  {
    if urls == [] then []
    else Unpreloaded(urls[..|urls| - 1], preloaded) + if urls[|urls| - 1] in preloaded then [] else [urls[|urls| - 1]]
  }

  /**
   * The filter keeps order and repeats: filtering two runs of links gives the
   * first run's survivors followed by the second's.
   */
  lemma {:induction false} UnpreloadedAppend(a: seq<string>, b: seq<string>, preloaded: set<string>)
    ensures Unpreloaded(a + b, preloaded) == Unpreloaded(a, preloaded) + Unpreloaded(b, preloaded)
    decreases |b|
  {
    if b == [] {
      assert a + b == a;
    } else {
      var b', x := b[..|b| - 1], b[|b| - 1];
      assert (a + b)[..|a + b| - 1] == a + b';
      assert (a + b)[|a + b| - 1] == x;
      UnpreloadedAppend(a, b', preloaded);
    }
  }

  /** A single link survives the filter exactly when it was not preloaded. */
  lemma UnpreloadedOne(u: string, preloaded: set<string>)
    ensures Unpreloaded([u], preloaded) == if u in preloaded then [] else [u]
  {
    assert [u][..0] == [];
  }

  function UrlSet(rs: seq<Resource>): set<string> {
    set r | r in rs :: r.url
  }

  /** The critical resources, in the order they compete for the preload cap. */
  function Critical(styles: seq<Resource>, scripts: seq<Resource>, pc: Option<PageConfig>): seq<Resource> {
    styles + scripts + PagePreloads(pc)
  }

  /** The `preloadedUrls` set once the preload phase is over. */
  function Preloaded(o: Options, critical: seq<Resource>): set<string> {
    if o.preload then UrlSet(Capped(critical, Cap(o))) else {}
  }

  /** The prefetch candidates, in order: unpreloaded anchor links, then the page's routes and resources. */
  function PrefetchCandidates(links: seq<string>, preloaded: set<string>, pc: Option<PageConfig>): seq<string> {
    Unpreloaded(links, preloaded) + PagePrefetches(pc)
  }

  function PreconnectSection(o: Options, top: seq<DomainCount>): seq<ResourceHint> {
    if o.preconnect then MapSeq(top, PreconnectHint) else []
  }

  function PreloadSection(o: Options, critical: seq<Resource>): seq<ResourceHint> {
    if o.preload then MapSeq(Capped(critical, Cap(o)), PreloadHint) else []
  }

  function PrefetchSection(o: Options, candidates: seq<string>): seq<ResourceHint> {
    if o.prefetch then MapSeq(Capped(candidates, Cap(o)), PrefetchHint) else []
  }

  /**
   * The hint list built from what the document scan found: the top domains,
   * the stylesheets, the scripts to preload, the anchor links, and the page
   * configuration matched for the url.
   */
  function HintsFrom(o: Options, top: seq<DomainCount>, styles: seq<Resource>, scripts: seq<Resource>, links: seq<string>, pc: Option<PageConfig>): seq<ResourceHint> {
    var critical := Critical(styles, scripts, pc);
    PreconnectSection(o, top)
    + PreloadSection(o, critical)
    + PrefetchSection(o, PrefetchCandidates(links, Preloaded(o, critical), pc))
  }

  /** The hint list `generateResourceHints` returns for a parsed document. */
  function GeneratedHints(o: Options, doc: Document, currentUrl: string, currentDomain: string, hostname: string -> Option<string>): seq<ResourceHint>
    requires PatternsSupported(o.pages)
  {
    HintsFrom(o,
      ExtractedDomains(doc.elements, currentDomain, hostname),
      StylesheetUrls(doc.elements),
      ScriptUrls(doc.elements, currentDomain, hostname),
      LinkUrls(doc.elements),
      FindMatchingPageConfig(o.pages, currentUrl))
  }

  lemma GeneratedHintsUnfold(o: Options, doc: Document, currentUrl: string, currentDomain: string, hostname: string -> Option<string>)
    requires PatternsSupported(o.pages)
    ensures var es := doc.elements; var pc := FindMatchingPageConfig(o.pages, currentUrl);
      var critical := StylesheetUrls(es) + ScriptUrls(es, currentDomain, hostname) + PagePreloads(pc);
      GeneratedHints(o, doc, currentUrl, currentDomain, hostname)
      == PreconnectSection(o, ExtractedDomains(es, currentDomain, hostname))
        + PreloadSection(o, critical)
        + PrefetchSection(o, PrefetchCandidates(LinkUrls(es), Preloaded(o, critical), pc))
  {
  }

  function KindRank(k: HintKind): nat {
    match k
    case Preconnect => 0
    case Preload => 1
    case Prefetch => 2
  }

  lemma ConcatSections(a: seq<ResourceHint>, b: seq<ResourceHint>, c: seq<ResourceHint>)
    requires forall x :: x in a ==> x.kind == Preconnect
    requires forall x :: x in b ==> x.kind == Preload
    requires forall x :: x in c ==> x.kind == Prefetch
    ensures var h := a + b + c; forall i, j :: 0 <= i < j < |h| ==> KindRank(h[i].kind) <= KindRank(h[j].kind)
  {
    var h := a + b + c;
    forall i | 0 <= i < |h| ensures KindRank(h[i].kind) == if i < |a| then 0 else if i < |a| + |b| then 1 else 2 {
      if i < |a| {
        assert h[i] == a[i];
      } else if i < |a| + |b| {
        assert h[i] == b[i - |a|];
      } else {
        assert h[i] == c[i - |a| - |b|];
      }
    }
  }

  /**
   * The hint list holds every preconnect hint, then every preload hint, then
   * every prefetch hint.
   */
  lemma HintPhaseOrder(o: Options, top: seq<DomainCount>, styles: seq<Resource>, scripts: seq<Resource>, links: seq<string>, pc: Option<PageConfig>)
    ensures var h := HintsFrom(o, top, styles, scripts, links, pc);
      forall i, j :: 0 <= i < j < |h| ==> KindRank(h[i].kind) <= KindRank(h[j].kind)
  {
    var critical := Critical(styles, scripts, pc);
    ConcatSections(PreconnectSection(o, top), PreloadSection(o, critical),
      PrefetchSection(o, PrefetchCandidates(links, Preloaded(o, critical), pc)));
  }

  /**
   * With preconnect on, the list opens with one hint per top domain, in
   * order, each to `https://` and the domain, with `crossorigin` set.
   */
  lemma PreconnectHintsFacts(o: Options, top: seq<DomainCount>, styles: seq<Resource>, scripts: seq<Resource>, links: seq<string>, pc: Option<PageConfig>)
    requires o.preconnect
    ensures var h := HintsFrom(o, top, styles, scripts, links, pc);
      && |top| <= |h|
      && h[..|top|] == MapSeq(top, PreconnectHint)
  {
    var critical := Critical(styles, scripts, pc);
    var a := MapSeq(top, PreconnectHint);
    var b := PreloadSection(o, critical);
    var c := PrefetchSection(o, PrefetchCandidates(links, Preloaded(o, critical), pc));
    HintsFromSplit(o, top, styles, scripts, links, pc);
    assert HintsFrom(o, top, styles, scripts, links, pc) == a + b + c;
    assert (a + b + c)[..|a|] == a;
  }

  /**
   * The preload hints follow the preconnect hints: they are the first
   * `min(n, cap)` critical resources (the stylesheets, then the scripts,
   * then the page's explicit preloads), in order, each with its `as`;
   * `cap` is `maxPreloads`, five when that is zero, and a negative cap
   * leaves none.
   */
  lemma PreloadHintsFacts(o: Options, top: seq<DomainCount>, styles: seq<Resource>, scripts: seq<Resource>, links: seq<string>, pc: Option<PageConfig>)
    requires o.preload
    ensures var h := HintsFrom(o, top, styles, scripts, links, pc);
      var pre := PreconnectSection(o, top);
      var critical := styles + scripts + (if pc.Some? then pc.value.preloadResources else []);
      var n := Iterations(|critical|, if o.maxPreloads == 0 then 5 else o.maxPreloads);
      && |pre| + n <= |h|
      && (o.maxPreloads == 0 ==> n == Min(|critical|, 5))
      && (o.maxPreloads < 0 ==> n == 0)
      && (o.maxPreloads > 0 ==> n == Min(|critical|, o.maxPreloads))
      && h[|pre|..|pre| + n] == MapSeq(critical[..n], PreloadHint)
  {
    var critical := Critical(styles, scripts, pc);
    var pre := PreconnectSection(o, top);
    var b := MapSeq(Capped(critical, Cap(o)), PreloadHint);
    var c := PrefetchSection(o, PrefetchCandidates(links, Preloaded(o, critical), pc));
    HintsFromSplit(o, top, styles, scripts, links, pc);
    assert HintsFrom(o, top, styles, scripts, links, pc) == pre + b + c;
    assert (pre + b + c)[|pre|..|pre| + |b|] == b;
  }

  /**
   * Prefetch hints come last: they are the first `min(n, cap)` prefetch
   * candidates, in order, each without `as` and without `crossorigin`.
   */
  lemma PrefetchHintsFacts(o: Options, top: seq<DomainCount>, styles: seq<Resource>, scripts: seq<Resource>, links: seq<string>, pc: Option<PageConfig>)
    requires o.prefetch
    ensures var h := HintsFrom(o, top, styles, scripts, links, pc);
      var cands := PrefetchCandidates(links, Preloaded(o, Critical(styles, scripts, pc)), pc);
      var n := Iterations(|cands|, Cap(o));
      && n <= |h|
      && h[|h| - n..] == MapSeq(cands[..n], PrefetchHint)
  {
    var critical := Critical(styles, scripts, pc);
    var cands := PrefetchCandidates(links, Preloaded(o, critical), pc);
    var m := MapSeq(Capped(cands, Cap(o)), PrefetchHint);
    var front := PreconnectSection(o, top) + PreloadSection(o, critical);
    HintsFromSplit(o, top, styles, scripts, links, pc);
    assert HintsFrom(o, top, styles, scripts, links, pc) == front + m;
    assert (front + m)[|front|..] == m;
  }

  /** `HintsFrom` as its three sections. */
  lemma HintsFromSplit(o: Options, top: seq<DomainCount>, styles: seq<Resource>, scripts: seq<Resource>, links: seq<string>, pc: Option<PageConfig>)
    ensures var critical := Critical(styles, scripts, pc);
      HintsFrom(o, top, styles, scripts, links, pc)
      == PreconnectSection(o, top) + PreloadSection(o, critical) + PrefetchSection(o, PrefetchCandidates(links, Preloaded(o, critical), pc))
  {
  }

  /**
   * Only the anchor links are checked against the preloaded urls: every
   * unpreloaded link is a prefetch candidate, and a preloaded url can be a
   * candidate only as one of the page's routes or resources.
   */
  lemma PrefetchCandidatesFacts(links: seq<string>, preloaded: set<string>, pc: Option<PageConfig>)
    ensures var cands := PrefetchCandidates(links, preloaded, pc);
      && (forall u :: u in cands && u in preloaded ==> u in PagePrefetches(pc))
      && (forall u :: u in links && u !in preloaded ==> u in cands)
  {
    var cands := PrefetchCandidates(links, preloaded, pc);
    forall u | u in cands && u in preloaded ensures u in PagePrefetches(pc) {
      assert u !in Unpreloaded(links, preloaded);
    }
  }

  /**
   * A page route is not checked against the preloaded urls: a route the
   * preload phase already emitted is prefetched again when it comes first.
   */
  lemma RouteMayRepeatPreload(o: Options, top: seq<DomainCount>, styles: seq<Resource>, scripts: seq<Resource>, pc: Option<PageConfig>, route: string)
    requires o.prefetch && Cap(o) > 0
    requires route in Preloaded(o, Critical(styles, scripts, pc))
    requires pc.Some? && |pc.value.prefetchRoutes| > 0 && pc.value.prefetchRoutes[0] == route
    ensures PrefetchHint(route) in HintsFrom(o, top, styles, scripts, [], pc)
  {
    var critical := Critical(styles, scripts, pc);
    var cands := PrefetchCandidates([], Preloaded(o, critical), pc);
    assert cands[0] == route;
    var ab := PreconnectSection(o, top) + PreloadSection(o, critical);
    var c := PrefetchSection(o, cands);
    assert c[0] == PrefetchHint(route);
    assert HintsFrom(o, top, styles, scripts, [], pc) == ab + c;
    assert (ab + c)[|ab|] == c[0];
  }

  /** Under the default options the cap is five, and every phase runs. */
  lemma DefaultCapIsFive(given: PartialOptions)
    requires given.maxPreloads.None? || given.maxPreloads == Some(0)
    ensures Cap(MergeOptions(given)) == 5
    ensures given == NoOptions ==> var o := MergeOptions(given); o.preconnect && o.preload && o.prefetch && !o.cache.enabled
  {
  }

  lemma AppendOne<T>(a: seq<T>, b: seq<T>, x: T)
    ensures (a + b) + [x] == a + (b + [x])
  {
  }

  lemma UrlSetSnoc(rs: seq<Resource>, i: nat)
    requires i < |rs|
    ensures UrlSet(rs[..i + 1]) == UrlSet(rs[..i]) + {rs[i].url}
  {
    assert rs[..i + 1] == rs[..i] + [rs[i]];
  }

  // ---------------------------------------------------------------------------
  // The optimize pipeline and its cache gating

  /** `pageConfig?.cache?.enabled === false`: the page switches caching off. */
  predicate PageCacheOff(pc: Option<PageConfig>) {
    pc.Some? && pc.value.cache.Some? && !pc.value.cache.value.enabled
  }

  /** `pageConfig?.cache?.enabled` is true: the page opts in to storing. */
  predicate PageCacheOn(pc: Option<PageConfig>) {
    pc.Some? && pc.value.cache.Some? && pc.value.cache.value.enabled
  }

  /** The read gate: a cache exists (global `cache.enabled`) and the page does not switch it off. */
  predicate ReadsCache(o: Options, pc: Option<PageConfig>) {
    o.cache.enabled && !PageCacheOff(pc)
  }

  /** The write gate: a cache exists and the matched page opts in. */
  predicate WritesCache(o: Options, pc: Option<PageConfig>) {
    o.cache.enabled && PageCacheOn(pc)
  }

  /** Why `optimize` fails: storing the result threw inside `evictOldest`. */
  datatype Failure = EvictionFailed

  /** The page a rewrite run produces: the parsed page with the hint links and timestamp prepended to its head, serialized. */
  function FreshOutput(o: Options, lib: Library, html: string, path: string, currentDomain: string, now: nat): string
    requires PatternsSupported(o.pages)
  {
    var doc := lib.parse(html);
    var hints := GeneratedHints(o, doc, path, currentDomain, lib.hostname);
    lib.render(doc.(head := PrependAll(hints, [TimestampComment(now)] + doc.head)))
  }

  /**
   * One `optimize` call for a page whose matched configuration is `pc`,
   * against a cache holding `store`: its result and the store it leaves.
   * `rewrite` is the output the call produces when it does not answer from
   * the cache. A cached non-empty string is returned as it is; otherwise
   * the rewrite is returned and, when the page opts in, stored with the
   * page's ttl.
   */
  function OptimizeStep(o: Options, pc: Option<PageConfig>, maxSize: int, store: seq<Slot>, html: string, rewrite: string, now: int)
    : (Result<string, Failure>, seq<Slot>)
  {
    var cached := if ReadsCache(o, pc) then GetResult(store, html, now) else None;
    var store1 := if ReadsCache(o, pc) then AfterGet(store, html, now) else store;
    if cached.Some? && cached.value != "" then (Ok(cached.value), store1)
    else if WritesCache(o, pc) then
      match AfterSet(store1, maxSize, html, rewrite, pc.value.cache.value.ttl, now)
      case None => (Err(EvictionFailed), store1)
      case Some(store2) => (Ok(rewrite), store2)
    else (Ok(rewrite), store1)
  }

  /** `OptimizeStep` when the read finds a non-empty value. */
  lemma OptimizeStepHit(o: Options, pc: Option<PageConfig>, maxSize: int, store: seq<Slot>, html: string, rewrite: string, now: int, v: string)
    requires ReadsCache(o, pc) && GetResult(store, html, now) == Some(v) && v != ""
    ensures OptimizeStep(o, pc, maxSize, store, html, rewrite, now) == (Ok(v), AfterGet(store, html, now))
  {
  }

  /** `OptimizeStep` when the read is skipped or misses, leaving `store1`. */
  lemma OptimizeStepMiss(o: Options, pc: Option<PageConfig>, maxSize: int, store: seq<Slot>, html: string, rewrite: string, now: int, store1: seq<Slot>)
    requires ReadsCache(o, pc) ==> !(GetResult(store, html, now).Some? && GetResult(store, html, now).value != "")
    requires store1 == if ReadsCache(o, pc) then AfterGet(store, html, now) else store
    ensures !WritesCache(o, pc) ==> OptimizeStep(o, pc, maxSize, store, html, rewrite, now) == (Ok(rewrite), store1)
    ensures WritesCache(o, pc) ==>
      OptimizeStep(o, pc, maxSize, store, html, rewrite, now) ==
        match AfterSet(store1, maxSize, html, rewrite, pc.value.cache.value.ttl, now)
        case None => (Err(EvictionFailed), store1)
        case Some(store2) => (Ok(rewrite), store2)
  {
  }

  lemma AfterGetShrinks(store: seq<Slot>, html: string, now: int)
    requires KeysDistinct(store)
    ensures KeysDistinct(AfterGet(store, html, now))
    ensures |AfterGet(store, html, now)| <= |store|
    ensures AfterGet(store, html, now) == store || AfterGet(store, html, now) == Delete(store, html)
  {
    DeleteKeepsKeysDistinct(store, html);
  }

  /**
   * With the global cache off, or the matched page switching it off, optimize
   * neither reads nor writes the store and always returns the rewrite.
   */
  lemma BypassedCacheIsUntouched(o: Options, pc: Option<PageConfig>, maxSize: int, store: seq<Slot>, html: string, rewrite: string, now: int)
    requires !o.cache.enabled || PageCacheOff(pc)
    ensures OptimizeStep(o, pc, maxSize, store, html, rewrite, now) == (Ok(rewrite), store)
  {
  }

  /**
   * Only a page that opts in is ever stored: when no page pattern matched, or
   * the matched page has no `cache.enabled`, optimize succeeds and the store
   * loses at most the expired entry its read found.
   */
  lemma OnlyOptedInPagesAreStored(o: Options, pc: Option<PageConfig>, maxSize: int, store: seq<Slot>, html: string, rewrite: string, now: int)
    requires !PageCacheOn(pc)
    ensures var (r, store') := OptimizeStep(o, pc, maxSize, store, html, rewrite, now);
      r.Ok? && (store' == store || store' == Delete(store, html))
  {
  }

  /**
   * The gates are asymmetric: a page configuration without a `cache` entry,
   * or no matched page at all, still reads the cache (only an explicit
   * `false` turns reading off) although such a page is never stored.
   */
  lemma MissingPageCacheStillReads(o: Options, pc: Option<PageConfig>, maxSize: int, store: seq<Slot>, html: string, rewrite: string, now: int, v: string)
    requires o.cache.enabled && (pc.None? || pc.value.cache.None?)
    requires GetResult(store, html, now) == Some(v) && v != ""
    ensures ReadsCache(o, pc) && !WritesCache(o, pc)
    ensures OptimizeStep(o, pc, maxSize, store, html, rewrite, now) == (Ok(v), store)
  {
    var e := Lookup(store, html).value;
    GetHitIffFresh(store, html, e, now);
  }

  /** When the read gate is open, a fresh non-empty cached rewrite is returned as it is and the store is kept. */
  lemma HitServesCachedValue(o: Options, pc: Option<PageConfig>, maxSize: int, store: seq<Slot>, html: string, rewrite: string, now: int, v: string)
    requires ReadsCache(o, pc)
    requires GetResult(store, html, now) == Some(v) && v != ""
    ensures OptimizeStep(o, pc, maxSize, store, html, rewrite, now) == (Ok(v), store)
  {
    var e := Lookup(store, html).value;
    GetHitIffFresh(store, html, e, now);
  }

  /** A cached empty string counts as a miss: the rewrite is returned instead. */
  lemma EmptyCachedValueIsMiss(o: Options, pc: Option<PageConfig>, maxSize: int, store: seq<Slot>, html: string, rewrite: string, now: int)
    requires GetResult(store, html, now) == Some("")
    ensures var r := OptimizeStep(o, pc, maxSize, store, html, rewrite, now).0;
      r.Ok? ==> r.value == rewrite
  {
  }

  /**
   * A page rewritten and stored at `t1` is served from the cache at `t2`, as
   * the same string and without changing the store, while the page's ttl has
   * not run out (or is absent or zero), whatever a new rewrite would give.
   */
  lemma StoredRewriteIsReused(o: Options, pc: Option<PageConfig>, maxSize: int, store: seq<Slot>, html: string, rewrite1: string, rewrite2: string, t1: int, t2: int)
    requires KeysDistinct(store)
    requires WritesCache(o, pc)
    requires GetResult(store, html, t1).None?
    requires var ttl := pc.value.cache.value.ttl; ttl.None? || ttl.value == 0 || t2 - t1 <= ttl.value
    requires rewrite1 != "" && OptimizeStep(o, pc, maxSize, store, html, rewrite1, t1).0.Ok?
    ensures var (r1, s1) := OptimizeStep(o, pc, maxSize, store, html, rewrite1, t1);
      && r1 == Ok(rewrite1)
      && OptimizeStep(o, pc, maxSize, s1, html, rewrite2, t2) == (r1, s1)
  {
    var store1 := AfterGet(store, html, t1);
    AfterGetShrinks(store, html, t1);
    SetThenGetHits(store1, maxSize, html, rewrite1, pc.value.cache.value.ttl, t1, t2);
  }

  /**
   * Optimize fails only where storing throws: the page opts in and the cache
   * has no room at all (`maxSize <= 0` with nothing to evict). With
   * `maxSize >= 1` and a store within bounds it succeeds and the store stays
   * within bounds with distinct keys.
   */
  lemma OptimizeKeepsSizeBound(o: Options, pc: Option<PageConfig>, maxSize: int, store: seq<Slot>, html: string, rewrite: string, now: int)
    requires KeysDistinct(store)
    ensures var (r, store') := OptimizeStep(o, pc, maxSize, store, html, rewrite, now);
      && (r.Err? ==> WritesCache(o, pc) && maxSize <= 0)
      && (1 <= maxSize && |store| <= maxSize ==> r.Ok? && KeysDistinct(store') && |store'| <= maxSize)
  {
    var store1 := if ReadsCache(o, pc) then AfterGet(store, html, now) else store;
    var cached := if ReadsCache(o, pc) then GetResult(store, html, now) else None;
    AfterGetShrinks(store, html, now);
    if cached.Some? && cached.value != "" {
      assert OptimizeStep(o, pc, maxSize, store, html, rewrite, now) == (Ok(cached.value), store1);
    } else if WritesCache(o, pc) {
      var ttl := pc.value.cache.value.ttl;
      SetThrowsIffNoRoom(store1, maxSize, html, rewrite, ttl, now);
      if 1 <= maxSize && |store| <= maxSize {
        SetKeepsSizeBound(store1, maxSize, html, rewrite, ttl, now);
      }
    } else {
      assert OptimizeStep(o, pc, maxSize, store, html, rewrite, now) == (Ok(rewrite), store1);
    }
  }

  /** The preconnect loop of `generateResourceHints`: one hint per top domain, pushed in order. */
  method PushPreconnects(hints0: seq<ResourceHint>, topDomains: seq<DomainCount>) returns (hints: seq<ResourceHint>)
    ensures hints == hints0 + MapSeq(topDomains, PreconnectHint)
  {
    hints := hints0;
    var i := 0;
    while i < |topDomains|
      invariant 0 <= i <= |topDomains|
      invariant hints == hints0 + MapSeq(topDomains[..i], PreconnectHint)
    {
      MapSeqSnoc(topDomains, i, PreconnectHint);
      AppendOne(hints0, MapSeq(topDomains[..i], PreconnectHint), PreconnectHint(topDomains[i]));
      hints := hints + [ResourceHint("https://" + topDomains[i].domain, Preconnect, None, true)];
      i := i + 1;
    }
    assert topDomains[..i] == topDomains;
  }

  /**
   * The preload loop: for `i < Math.min(critical.length, maxPreloads)`, push a
   * preload hint with the resource's `as` and record its url.
   */
  method PushPreloads(hints0: seq<ResourceHint>, critical: seq<Resource>, maxPreloads: int)
    returns (hints: seq<ResourceHint>, preloadedUrls: set<string>)
    ensures hints == hints0 + MapSeq(Capped(critical, maxPreloads), PreloadHint)
    ensures preloadedUrls == UrlSet(Capped(critical, maxPreloads))
  {
    hints, preloadedUrls := hints0, {};
    var i := 0;
    while i < Min(|critical|, maxPreloads)
      invariant 0 <= i <= Iterations(|critical|, maxPreloads)
      invariant hints == hints0 + MapSeq(critical[..i], PreloadHint)
      invariant preloadedUrls == UrlSet(critical[..i])
    {
      var resource := critical[i];
      MapSeqSnoc(critical, i, PreloadHint);
      AppendOne(hints0, MapSeq(critical[..i], PreloadHint), PreloadHint(resource));
      UrlSetSnoc(critical, i);
      hints := hints + [ResourceHint(resource.url, Preload, Some(resource.destination), false)];
      preloadedUrls := preloadedUrls + {resource.url};
      i := i + 1;
    }
  }

  /** The prefetch loop: for `i < Math.min(prefetchUrls.length, maxPreloads)`, push a prefetch hint. */
  method PushPrefetches(hints0: seq<ResourceHint>, prefetchUrls: seq<string>, maxPreloads: int) returns (hints: seq<ResourceHint>)
    ensures hints == hints0 + MapSeq(Capped(prefetchUrls, maxPreloads), PrefetchHint)
  {
    hints := hints0;
    var i := 0;
    while i < Min(|prefetchUrls|, maxPreloads)
      invariant 0 <= i <= Iterations(|prefetchUrls|, maxPreloads)
      invariant hints == hints0 + MapSeq(prefetchUrls[..i], PrefetchHint)
    {
      MapSeqSnoc(prefetchUrls, i, PrefetchHint);
      AppendOne(hints0, MapSeq(prefetchUrls[..i], PrefetchHint), PrefetchHint(prefetchUrls[i]));
      hints := hints + [ResourceHint(prefetchUrls[i], Prefetch, None, false)];
      i := i + 1;
    }
  }

  class ResourceOptimizer {
    /** The merged options. */
    const options: Options
    /** The HTML parser, serializer, selector engine and URL parser the processor calls. */
    const lib: Library
    /** The result cache; it exists exactly when caching is enabled. */
    const cache: Cache?

    ghost predicate Valid()
      reads this, cache
    {
      && PatternsSupported(options.pages)
      && (cache != null <==> options.cache.enabled)
      && (cache != null ==> cache.Valid() && cache.maxSize == options.cache.maxSize.GetOr(DefaultMaxSize))
    }

    /** `{ ...DEFAULT_OPTIONS, ...options }`, and a cache of `cache.maxSize` entries when `cache.enabled`. */
    constructor (given: PartialOptions, lib: Library)
      requires PatternsSupported(MergeOptions(given).pages)
      ensures Valid()
      ensures options == MergeOptions(given) && this.lib == lib
      ensures cache != null ==> fresh(cache) && cache.store == []
    {
      options := MergeOptions(given);
      this.lib := lib;
      if MergeOptions(given).cache.enabled {
        cache := new Cache(MergeOptions(given).cache.maxSize);
      } else {
        cache := null;
      }
    }

    /** `generateResourceHints`: preconnect, then preload, then prefetch hints for one page. */
    method GenerateResourceHints(html: string, currentUrl: string, currentDomain: string) returns (hints: seq<ResourceHint>)
      requires Valid()
      ensures hints == GeneratedHints(options, lib.parse(html), currentUrl, currentDomain, lib.hostname)
    {
      var processor := new Processor(html, currentDomain, lib);
      hints := [];
      var preloadedUrls: set<string> := {};
      var pageConfig := FindMatchingPageConfig(options.pages, currentUrl);
      var es := processor.doc.elements;

      var topDomains := processor.ExtractDomains();
      if options.preconnect {
        hints := PushPreconnects(hints, topDomains);
      }
      ghost var pre := hints;
      assert pre == PreconnectSection(options, topDomains);

      var critical := StylesheetUrls(es) + ScriptUrls(es, currentDomain, lib.hostname) + PagePreloads(pageConfig);
      if options.preload {
        var maxPreloads := if options.maxPreloads == 0 then 5 else options.maxPreloads;
        hints, preloadedUrls := PushPreloads(hints, critical, maxPreloads);
      }
      ghost var pl := hints;
      assert pl == pre + PreloadSection(options, critical);
      assert preloadedUrls == Preloaded(options, critical);

      if options.prefetch {
        var maxPreloads := if options.maxPreloads == 0 then 5 else options.maxPreloads;
        var prefetchUrls := Unpreloaded(LinkUrls(es), preloadedUrls) + PagePrefetches(pageConfig);
        hints := PushPrefetches(hints, prefetchUrls, maxPreloads);
      }
      assert hints == pl + PrefetchSection(options, PrefetchCandidates(LinkUrls(es), preloadedUrls, pageConfig));
      GeneratedHintsUnfold(options, lib.parse(html), currentUrl, currentDomain, lib.hostname);
    }

    /**
     * The rewriting half of `optimize`: extract the top domains, generate
     * the hints and inject them, with the timestamp comment, into the head
     * of the page `processor` parsed.
     */
    method Rewrite(processor: Processor, html: string, path: string, currentDomain: string, now: nat) returns (out: string)
      requires Valid()
      requires processor.doc == lib.parse(html) && processor.currentDomain == currentDomain && processor.lib == lib
      modifies processor
      ensures out == FreshOutput(options, lib, html, path, currentDomain, now)
    {
      var _ := processor.ExtractDomains();
      var hints := GenerateResourceHints(html, path, currentDomain);
      out := processor.InjectResourceHints(hints, now);
    }

    /**
     * The read gate of `optimize`: the cache is consulted only when it exists
     * and the matched page does not set `cache.enabled` to `false`.
     */
    method ReadGate(pageConfig: Option<PageConfig>, html: string, now: nat) returns (cached: Option<string>)
      requires Valid()
      modifies cache
      ensures Valid()
      ensures cache == null ==> cached.None?
      ensures cache != null ==>
        && cached == (if ReadsCache(options, pageConfig) then GetResult(old(cache.store), html, now) else None)
        && cache.store == (if ReadsCache(options, pageConfig) then AfterGet(old(cache.store), html, now) else old(cache.store))
    {
      cached := None;
      if cache != null && !PageCacheOff(pageConfig) && options.cache.enabled {
        cached := cache.Get(html, now);
      }
    }

    /**
     * The write gate of `optimize`: the rewrite is stored, with the page's
     * ttl, only when the cache exists and the matched page sets
     * `cache.enabled`; `ok` is false when storing threw.
     */
    method WriteGate(pageConfig: Option<PageConfig>, html: string, optimizedHtml: string, now: nat) returns (ok: bool)
      requires Valid()
      modifies cache
      ensures Valid()
      ensures cache == null ==> ok
      ensures cache != null ==>
        if WritesCache(options, pageConfig) then
          var stored := AfterSet(old(cache.store), cache.maxSize, html, optimizedHtml, pageConfig.value.cache.value.ttl, now);
          ok == stored.Some? && cache.store == stored.GetOr(old(cache.store))
        else
          ok && cache.store == old(cache.store)
    {
      ok := true;
      if cache != null && PageCacheOn(pageConfig) && options.cache.enabled {
        ok := cache.Set(html, optimizedHtml, pageConfig.value.cache.value.ttl, now);
      }
    }

    /**
     * `optimize`: return a fresh cached rewrite when the read gate lets the
     * cache be consulted; otherwise rewrite the page and store the result
     * when the write gate allows. `now` is the clock reading used for the
     * cache and the timestamp comment.
     */
    method Optimize(html: string, path: string, currentDomain: string, now: nat) returns (r: Result<string, Failure>)
      requires Valid()
      modifies cache
      ensures Valid()
      ensures var pc := FindMatchingPageConfig(options.pages, path);
        var rewrite := FreshOutput(options, lib, html, path, currentDomain, now);
        && (cache != null ==> (r, cache.store) == OptimizeStep(options, pc, cache.maxSize, old(cache.store), html, rewrite, now))
        && (cache == null ==> r == Ok(rewrite))
    {
      var pageConfig := FindMatchingPageConfig(options.pages, path);
      var processor := new Processor(html, currentDomain, lib);

      var cached := ReadGate(pageConfig, html, now);
      if cached.Some? && cached.value != "" {
        OptimizeStepHit(options, pageConfig, cache.maxSize, old(cache.store), html, FreshOutput(options, lib, html, path, currentDomain, now), now, cached.value);
        return Ok(cached.value);
      }
      if cache != null {
        OptimizeStepMiss(options, pageConfig, cache.maxSize, old(cache.store), html, FreshOutput(options, lib, html, path, currentDomain, now), now, cache.store);
      }

      var optimizedHtml := Rewrite(processor, html, path, currentDomain, now);

      var ok := WriteGate(pageConfig, html, optimizedHtml, now);
      if !ok {
        return Err(EvictionFailed);
      }
      return Ok(optimizedHtml);
    }
  }
}
