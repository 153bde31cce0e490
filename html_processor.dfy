/**
 * Document scanning and hint injection (src/utils/htmlProcessor.ts).
 */
module HtmlProcessor {
  import opened Wrappers
  import opened Text
  import opened Types
  import opened Dom

  // ---------------------------------------------------------------------------
  // Selecting from the element sequence.

  /** Keep the `Some` results of `f` over `es`, in document order (cheerio's `.map(...).get()` with a filter). */
  function FilterMap<T(==,!new)>(es: seq<Element>, f: Element -> Option<T>): (r: seq<T>)
    ensures |r| <= |es|
    ensures forall x :: x in r <==> exists i :: 0 <= i < |es| && f(es[i]) == Some(x)
  {
    if es == [] then []
    else
      var rest := FilterMap(es[1..], f);
      assert forall i :: 1 <= i < |es| ==> es[i] == es[1..][i - 1];
      match f(es[0])
      case Some(x) => [x] + rest
      case None => rest
  }

  /** Selection keeps document order: it distributes over concatenation. */
  lemma {:induction false} FilterMapAppend<T(!new)>(a: seq<Element>, b: seq<Element>, f: Element -> Option<T>)
    ensures FilterMap(a + b, f) == FilterMap(a, f) + FilterMap(b, f)
    decreases |a|
  {
    if a != [] {
      assert (a + b)[1..] == a[1..] + b;
      assert (a + b)[0] == a[0];
      FilterMapAppend(a[1..], b, f);
      var p, q := FilterMap(a[1..], f), FilterMap(b, f);
      match f(a[0])
      case Some(x) =>
        assert FilterMap(a + b, f) == [x] + (p + q);
        assert [x] + (p + q) == [x] + p + q;
      case None =>
    } else {
      assert a + b == b;
    }
  }

  // ---------------------------------------------------------------------------
  // extractDomains

  /** The selector `link[href], script[src], img[src], a[href]`. */
  predicate ScannedForDomains(e: Element) {
    || (e.tag == "link" && "href" in e.attrs)
    || (e.tag == "script" && "src" in e.attrs)
    || (e.tag == "img" && "src" in e.attrs)
    || (e.tag == "a" && "href" in e.attrs)
  }

  /** `attr('href') || attr('src')`: the `href` when it is non-empty, otherwise the `src`. */
  function CandidateUrl(e: Element): Option<string> {
    if Truthy(Attr(e, "href")) then Attr(e, "href") else Attr(e, "src")
  }

  /** The filter on candidate URLs: a plain prefix test, `startsWith('http') && !startsWith('data:')`. */
  predicate StartsWithHttp(url: string) {
    StartsWith(url, "http") && !StartsWith(url, "data:")
  }

  function DomainCandidate(e: Element): Option<string> {
    if ScannedForDomains(e) && CandidateUrl(e).Some? && StartsWithHttp(CandidateUrl(e).value)
    then CandidateUrl(e) else None
  }

  /** The `urls` array of `extractDomains`. */
  function DomainCandidates(es: seq<Element>): (urls: seq<string>)
    ensures forall u :: u in urls ==> StartsWith(u, "http")
    ensures forall u :: u in urls <==>
      exists i :: 0 <= i < |es| && ScannedForDomains(es[i]) && CandidateUrl(es[i]) == Some(u) && StartsWithHttp(u)
  {
    var urls := FilterMap(es, DomainCandidate);
    assert forall u :: u in urls <==> exists i :: 0 <= i < |es| && DomainCandidate(es[i]) == Some(u);
    urls
  }

  /** The hostnames `extractDomains` counts, in scan order: those that parse and differ from the current domain. */
  function CountedHosts(urls: seq<string>, currentDomain: string, hostname: string -> Option<string>): seq<string>
  {
    if urls == [] then []
    else CountedHosts(urls[..|urls| - 1], currentDomain, hostname) + CountedHost(urls[|urls| - 1], currentDomain, hostname)
  }

  /** The hostname counted for one URL: none when it does not parse or is the current domain. */
  function CountedHost(url: string, currentDomain: string, hostname: string -> Option<string>): seq<string> {
    match hostname(url)
    case Some(d) => if d != currentDomain then [d] else []
    case None => []
  }

  /** How many of `urls` have hostname `d`. */
  function UrlsWithHost(urls: seq<string>, d: string, hostname: string -> Option<string>): nat {
    if urls == [] then 0
    else UrlsWithHost(urls[..|urls| - 1], d, hostname) + if hostname(urls[|urls| - 1]) == Some(d) then 1 else 0
  }

  /** How often `d` occurs in `hs`. */
  function Occurrences(hs: seq<string>, d: string): nat {
    if hs == [] then 0
    else Occurrences(hs[..|hs| - 1], d) + if hs[|hs| - 1] == d then 1 else 0
  }

  /** One `{ domain, count }` entry. */
  datatype DomainCount = DomainCount(domain: string, count: nat)

  ghost predicate DomainsDistinct(cs: seq<DomainCount>) {
    forall i, j :: 0 <= i < j < |cs| ==> cs[i].domain != cs[j].domain
  }

  function IndexOfDomain(cs: seq<DomainCount>, d: string): (r: Option<nat>)
    ensures r.Some? ==> r.value < |cs| && cs[r.value].domain == d
    ensures r.None? ==> forall j :: 0 <= j < |cs| ==> cs[j].domain != d
  {
    if cs == [] then None
    else if cs[0].domain == d then Some(0)
    else match IndexOfDomain(cs[1..], d)
      case None => None
      case Some(i) => Some(i + 1)
  }

  /** `domainCounts.set(domain, (domainCounts.get(domain) || 0) + 1)` on the insertion-ordered map. */
  function Bump(cs: seq<DomainCount>, d: string): seq<DomainCount> {
    match IndexOfDomain(cs, d)
    case Some(i) => cs[i := DomainCount(d, cs[i].count + 1)]
    case None => cs + [DomainCount(d, 1)]
  }

  /** The `domainCounts` map after counting `hs` in order. */
  function Tally(hs: seq<string>): seq<DomainCount> {
    if hs == [] then [] else Bump(Tally(hs[..|hs| - 1]), hs[|hs| - 1])
  }

  lemma TallySnoc(hs: seq<string>, d: string)
    ensures Tally(hs + [d]) == Bump(Tally(hs), d)
  {
    assert (hs + [d])[..|hs|] == hs;
  }

  lemma CountedHostsSnoc(urls: seq<string>, i: nat, currentDomain: string, hostname: string -> Option<string>)
    requires i < |urls|
    ensures CountedHosts(urls[..i + 1], currentDomain, hostname)
      == CountedHosts(urls[..i], currentDomain, hostname) + CountedHost(urls[i], currentDomain, hostname)
  {
    assert urls[..i + 1][..i] == urls[..i];
  }

  /** One iteration of the counting loop: a url counts when it has a hostname other than the current domain. */
  lemma TallyStep(urls: seq<string>, i: nat, currentDomain: string, hostname: string -> Option<string>)
    requires i < |urls|
    ensures var t := Tally(CountedHosts(urls[..i], currentDomain, hostname));
      Tally(CountedHosts(urls[..i + 1], currentDomain, hostname)) ==
        match hostname(urls[i])
        case Some(d) => if d != currentDomain then Bump(t, d) else t
        case None => t
  {
    CountedHostsSnoc(urls, i, currentDomain, hostname);
    var hs := CountedHosts(urls[..i], currentDomain, hostname);
    match hostname(urls[i]) {
      case Some(d) =>
        if d != currentDomain {
          TallySnoc(hs, d);
        } else {
          assert hs + CountedHost(urls[i], currentDomain, hostname) == hs;
        }
      case None =>
        assert hs + CountedHost(urls[i], currentDomain, hostname) == hs;
    }
  }

  /** `sort((a, b) => b.count - a.count)`: a stable sort by descending count (insertion sort). */
  function SortByCount(cs: seq<DomainCount>): seq<DomainCount> {
    if cs == [] then [] else InsertByCount(SortByCount(cs[..|cs| - 1]), cs[|cs| - 1])
  }

  /** Insert `x` after every element whose count is at least `x.count`. */
  function InsertByCount(sorted: seq<DomainCount>, x: DomainCount): seq<DomainCount> {
    if sorted == [] then [x]
    else if sorted[|sorted| - 1].count >= x.count then sorted + [x]
    else InsertByCount(sorted[..|sorted| - 1], x) + [sorted[|sorted| - 1]]
  }

  /** `.slice(0, 2)` of the sorted counts. */
  function TopDomains(cs: seq<DomainCount>): seq<DomainCount> {
    var sorted := SortByCount(cs);
    if |sorted| <= 2 then sorted else sorted[..2]
  }

  ghost predicate SortedByCount(cs: seq<DomainCount>) {
    forall i, j :: 0 <= i < j < |cs| ==> cs[i].count >= cs[j].count
  }

  /** Elements of `r` with equal counts appear in `s` in the same relative order. */
  ghost predicate StableOrder(r: seq<DomainCount>, s: seq<DomainCount>) {
    forall i, j :: 0 <= i < j < |r| && r[i].count == r[j].count ==> PrecedesIn(s, r[i], r[j])
  }

  /** `a` occurs in `s` at an earlier position than `b`. */
  ghost predicate PrecedesIn(s: seq<DomainCount>, a: DomainCount, b: DomainCount) {
    exists p, q :: 0 <= p < q < |s| && s[p] == a && s[q] == b
  }

  lemma PrecedesInExtends(s: seq<DomainCount>, x: DomainCount, a: DomainCount, b: DomainCount)
    requires PrecedesIn(s, a, b)
    ensures PrecedesIn(s + [x], a, b)
  {
    var p, q :| 0 <= p < q < |s| && s[p] == a && s[q] == b;
    assert (s + [x])[p] == a && (s + [x])[q] == b;
  }

  lemma PrecedesLast(s: seq<DomainCount>, x: DomainCount, a: DomainCount)
    requires a in multiset(s)
    ensures PrecedesIn(s + [x], a, x)
  {
    var p :| 0 <= p < |s| && s[p] == a;
    assert (s + [x])[p] == a && (s + [x])[|s|] == x;
  }

  /** `a` occurs in `hs` before the first occurrence of `b`. */
  ghost predicate FirstSeenBefore(hs: seq<string>, a: string, b: string) {
    exists p :: 0 <= p < |hs| && hs[p] == a && forall q :: 0 <= q <= p ==> hs[q] != b
  }

  lemma {:induction false} OccurrencesOfAbsent(hs: seq<string>, d: string)
    requires d !in hs
    ensures Occurrences(hs, d) == 0
  {
    if hs != [] {
      OccurrencesOfAbsent(hs[..|hs| - 1], d);
    }
  }

  lemma FirstSeenBeforeExtends(hs: seq<string>, x: string, a: string, b: string)
    requires FirstSeenBefore(hs, a, b)
    ensures FirstSeenBefore(hs + [x], a, b)
  {
    var p :| 0 <= p < |hs| && hs[p] == a && forall q :: 0 <= q <= p ==> hs[q] != b;
    assert (hs + [x])[p] == a;
    assert forall q :: 0 <= q <= p ==> (hs + [x])[q] == hs[q];
  }

  /** Every entry of `t` is a hostname of `hs` with its number of occurrences. */
  ghost predicate CountsMatch(hs: seq<string>, t: seq<DomainCount>) {
    forall k :: 0 <= k < |t| ==> t[k].domain in hs && t[k].count == Occurrences(hs, t[k].domain)
  }

  /** Every hostname of `hs` has an entry in `t`. */
  ghost predicate CoversAll(hs: seq<string>, t: seq<DomainCount>) {
    forall d :: d in hs ==> IndexOfDomain(t, d).Some?
  }

  /** The entries of `t` are in order of first appearance in `hs`. */
  ghost predicate FirstSeenOrder(hs: seq<string>, t: seq<DomainCount>) {
    forall a, b :: 0 <= a < b < |t| ==> FirstSeenBefore(hs, t[a].domain, t[b].domain)
  }

  /** The counting loop's map: one entry per distinct counted hostname, with its count, in order of first appearance. */
  lemma {:induction false} TallyFacts(hs: seq<string>)
    ensures DomainsDistinct(Tally(hs))
    ensures forall k :: 0 <= k < |Tally(hs)| ==>
      Tally(hs)[k].domain in hs && Tally(hs)[k].count == Occurrences(hs, Tally(hs)[k].domain)
    ensures forall d :: d in hs ==> IndexOfDomain(Tally(hs), d).Some?
    ensures forall a, b :: 0 <= a < b < |Tally(hs)| ==> FirstSeenBefore(hs, Tally(hs)[a].domain, Tally(hs)[b].domain)
  {
    if hs != [] {
      var hs', d := hs[..|hs| - 1], hs[|hs| - 1];
      assert hs == hs' + [d];
      TallyFacts(hs');
      var t' := Tally(hs');
      assert Tally(hs) == Bump(t', d);
      assert CountsMatch(hs', t') && CoversAll(hs', t') && FirstSeenOrder(hs', t');
      BumpDistinct(t', d);
      BumpCounts(hs', d, t');
      BumpCovers(hs', d, t');
      BumpOrder(hs', d, t');
    }
  }

  lemma BumpDistinct(t: seq<DomainCount>, d: string)
    requires DomainsDistinct(t)
    ensures DomainsDistinct(Bump(t, d))
  {
    var t1 := Bump(t, d);
    if IndexOfDomain(t, d).Some? {
      var i := IndexOfDomain(t, d).value;
      assert t1 == t[i := DomainCount(d, t[i].count + 1)];
      forall a, b | 0 <= a < b < |t1| ensures t1[a].domain != t1[b].domain {
        assert t1[a].domain == t[a].domain && t1[b].domain == t[b].domain;
      }
    } else {
      assert t1 == t + [DomainCount(d, 1)];
    }
  }

  lemma OccurrencesSnoc(hs: seq<string>, d: string, e: string)
    ensures Occurrences(hs + [d], e) == Occurrences(hs, e) + if d == e then 1 else 0
  {
    assert (hs + [d])[..|hs|] == hs;
  }

  lemma BumpCounts(hs: seq<string>, d: string, t: seq<DomainCount>)
    requires DomainsDistinct(t) && CountsMatch(hs, t) && CoversAll(hs, t)
    ensures CountsMatch(hs + [d], Bump(t, d))
  {
    var hs1, t1 := hs + [d], Bump(t, d);
    if IndexOfDomain(t, d).Some? {
      var i := IndexOfDomain(t, d).value;
      assert t1 == t[i := DomainCount(d, t[i].count + 1)];
      forall k | 0 <= k < |t1| ensures t1[k].domain in hs1 && t1[k].count == Occurrences(hs1, t1[k].domain) {
        OccurrencesSnoc(hs, d, t1[k].domain);
      }
    } else {
      assert d !in hs;
      OccurrencesOfAbsent(hs, d);
      assert t1 == t + [DomainCount(d, 1)];
      forall k | 0 <= k < |t1| ensures t1[k].domain in hs1 && t1[k].count == Occurrences(hs1, t1[k].domain) {
        OccurrencesSnoc(hs, d, t1[k].domain);
      }
    }
  }

  lemma BumpCovers(hs: seq<string>, d: string, t: seq<DomainCount>)
    requires CoversAll(hs, t)
    ensures CoversAll(hs + [d], Bump(t, d))
  {
    var hs1, t1 := hs + [d], Bump(t, d);
    forall e | e in hs1 ensures IndexOfDomain(t1, e).Some? {
      if IndexOfDomain(t, d).Some? {
        var i := IndexOfDomain(t, d).value;
        assert t1 == t[i := DomainCount(d, t[i].count + 1)];
        if e == d {
          assert t1[i].domain == e;
        } else {
          assert e in hs;
          var j := IndexOfDomain(t, e).value;
          assert t1[j].domain == e;
        }
      } else {
        assert t1 == t + [DomainCount(d, 1)];
        if e in hs {
          var j := IndexOfDomain(t, e).value;
          assert t1[j].domain == e;
        } else {
          assert t1[|t|].domain == e;
        }
      }
    }
  }

  lemma BumpOrder(hs: seq<string>, d: string, t: seq<DomainCount>)
    requires CountsMatch(hs, t) && CoversAll(hs, t) && FirstSeenOrder(hs, t)
    ensures FirstSeenOrder(hs + [d], Bump(t, d))
  {
    var hs1, t1 := hs + [d], Bump(t, d);
    if IndexOfDomain(t, d).Some? {
      var i := IndexOfDomain(t, d).value;
      assert t1 == t[i := DomainCount(d, t[i].count + 1)];
      forall a, b | 0 <= a < b < |t1| ensures FirstSeenBefore(hs1, t1[a].domain, t1[b].domain) {
        FirstSeenBeforeExtends(hs, d, t[a].domain, t[b].domain);
      }
    } else {
      assert d !in hs;
      assert t1 == t + [DomainCount(d, 1)];
      forall a, b | 0 <= a < b < |t1| ensures FirstSeenBefore(hs1, t1[a].domain, t1[b].domain) {
        if b < |t| {
          FirstSeenBeforeExtends(hs, d, t[a].domain, t[b].domain);
        } else {
          var p :| 0 <= p < |hs| && hs[p] == t[a].domain;
          assert hs1[p] == t1[a].domain;
          assert forall q :: 0 <= q <= p ==> hs1[q] == hs[q];
        }
      }
    }
  }

  /** Where `InsertByCount` puts `x` in a sorted sequence. */
  lemma {:induction false} InsertByCountSplit(t: seq<DomainCount>, x: DomainCount) returns (m: nat)
    requires SortedByCount(t)
    ensures m <= |t| && InsertByCount(t, x) == t[..m] + [x] + t[m..]
    ensures forall k :: 0 <= k < m ==> t[k].count >= x.count
    ensures forall k :: m <= k < |t| ==> t[k].count < x.count
  {
    if t == [] {
      m := 0;
    } else if t[|t| - 1].count >= x.count {
      m := |t|;
    } else {
      var t' := t[..|t| - 1];
      m := InsertByCountSplit(t', x);
      assert t'[..m] == t[..m];
      assert t'[m..] + [t[|t| - 1]] == t[m..];
    }
  }

  lemma InsertedAt(t: seq<DomainCount>, x: DomainCount, m: nat, k: nat)
    requires m <= |t| && InsertByCount(t, x) == t[..m] + [x] + t[m..] && k <= |t|
    ensures InsertByCount(t, x)[k] == if k < m then t[k] else if k == m then x else t[k - 1]
  {
  }

  /** Inserting into a sorted sequence keeps it sorted and adds exactly `x`. */
  lemma InsertByCountFacts(t: seq<DomainCount>, x: DomainCount)
    requires SortedByCount(t)
    ensures SortedByCount(InsertByCount(t, x))
    ensures multiset(InsertByCount(t, x)) == multiset(t) + multiset{x}
  {
    var m := InsertByCountSplit(t, x);
    var r := InsertByCount(t, x);
    assert t == t[..m] + t[m..];
    forall i, j | 0 <= i < j < |r| ensures r[i].count >= r[j].count {
      InsertedAt(t, x, m, i);
      InsertedAt(t, x, m, j);
    }
  }

  /** Inserting the last element of `s' + [x]` keeps equal counts in their order of `s' + [x]`. */
  lemma InsertByCountStable(t: seq<DomainCount>, s': seq<DomainCount>, x: DomainCount)
    requires SortedByCount(t) && StableOrder(t, s') && multiset(t) == multiset(s')
    ensures StableOrder(InsertByCount(t, x), s' + [x])
  {
    var m := InsertByCountSplit(t, x);
    var r := InsertByCount(t, x);
    forall i, j | 0 <= i < j < |r| && r[i].count == r[j].count
      ensures PrecedesIn(s' + [x], r[i], r[j])
    {
      InsertedAt(t, x, m, i);
      InsertedAt(t, x, m, j);
      if j < m || m < i {
        PrecedesInExtends(s', x, r[i], r[j]);
      } else if j == m {
        assert r[i] in multiset(t);
        PrecedesLast(s', x, r[i]);
      } else {
        assert false;
      }
    }
  }

  /** Inserting an element whose domain is new keeps domains distinct. */
  lemma InsertByCountDistinct(t: seq<DomainCount>, x: DomainCount)
    requires SortedByCount(t) && DomainsDistinct(t)
    requires forall k :: 0 <= k < |t| ==> t[k].domain != x.domain
    ensures DomainsDistinct(InsertByCount(t, x))
  {
    var m := InsertByCountSplit(t, x);
    var r := InsertByCount(t, x);
    forall i, j | 0 <= i < j < |r| ensures r[i].domain != r[j].domain {
      InsertedAt(t, x, m, i);
      InsertedAt(t, x, m, j);
    }
  }

  /** The sort orders by non-increasing count, is a permutation, is stable, and keeps domains distinct. */
  lemma {:induction false} SortByCountFacts(s: seq<DomainCount>)
    ensures SortedByCount(SortByCount(s))
    ensures multiset(SortByCount(s)) == multiset(s)
    ensures StableOrder(SortByCount(s), s)
    ensures DomainsDistinct(s) ==> DomainsDistinct(SortByCount(s))
  {
    if s != [] {
      var s', x := s[..|s| - 1], s[|s| - 1];
      assert s == s' + [x];
      var t := SortByCount(s');
      SortByCountFacts(s');
      InsertByCountFacts(t, x);
      InsertByCountStable(t, s', x);
      if DomainsDistinct(s) {
        assert DomainsDistinct(s');
        forall k | 0 <= k < |t| ensures t[k].domain != x.domain {
          assert t[k] in multiset(s');
          var p :| 0 <= p < |s'| && s'[p] == t[k];
          assert s[p] == t[k];
        }
        InsertByCountDistinct(t, x);
      }
    }
  }

  /** The kept entries are the first (at most) two of the sorted counts. */
  lemma TopDomainsPrefix(t: seq<DomainCount>)
    ensures |SortByCount(t)| == |t|
    ensures |TopDomains(t)| == (if |t| < 2 then |t| else 2)
    ensures forall k :: 0 <= k < |TopDomains(t)| ==> TopDomains(t)[k] == SortByCount(t)[k]
    ensures SortByCount(t) == TopDomains(t) + SortByCount(t)[|TopDomains(t)|..]
  {
    SortByCountFacts(t);
    assert |multiset(SortByCount(t))| == |multiset(t)|;
  }

  /** No entry left out has a larger count than an entry kept. */
  lemma TopDomainsOutrank(t: seq<DomainCount>)
    ensures SortedByCount(TopDomains(t))
    ensures forall k, c :: 0 <= k < |TopDomains(t)| && c in t && c !in TopDomains(t) ==> c.count <= TopDomains(t)[k].count
  {
    var sorted, r := SortByCount(t), TopDomains(t);
    SortByCountFacts(t);
    TopDomainsPrefix(t);
    var rest := sorted[|r|..];
    assert sorted == r + rest;
    SortedPrefixOutranks(r, rest);
    forall c | c in t && c !in r ensures c in rest {
      assert c in multiset(sorted);
      assert multiset(sorted) == multiset(r) + multiset(rest);
    }
  }

  /** In a sequence sorted by count, every entry of a prefix outranks every entry after it. */
  lemma SortedPrefixOutranks(r: seq<DomainCount>, rest: seq<DomainCount>)
    requires SortedByCount(r + rest)
    ensures SortedByCount(r)
    ensures forall k, c :: 0 <= k < |r| && c in rest ==> c.count <= r[k].count
  {
    forall i, j | 0 <= i < j < |r| ensures r[i].count >= r[j].count {
      assert (r + rest)[i] == r[i] && (r + rest)[j] == r[j];
    }
    forall k, c | 0 <= k < |r| && c in rest ensures c.count <= r[k].count {
      var p :| 0 <= p < |rest| && rest[p] == c;
      assert (r + rest)[|r| + p] == c && (r + rest)[k] == r[k];
    }
  }

  /** Each kept entry is a counted hostname with its number of occurrences, and no two share a hostname. */
  lemma TopDomainsMembers(hs: seq<string>)
    ensures var r := TopDomains(Tally(hs));
      && (forall k :: 0 <= k < |r| ==> r[k].domain in hs && r[k].count == Occurrences(hs, r[k].domain))
      && (forall a, b :: 0 <= a < b < |r| ==> r[a].domain != r[b].domain)
  {
    var t := Tally(hs);
    TallyFacts(hs);
    SortByCountFacts(t);
    TopDomainsPrefix(t);
    var sorted, r := SortByCount(t), TopDomains(t);
    forall k | 0 <= k < |r| ensures r[k].domain in hs && r[k].count == Occurrences(hs, r[k].domain) {
      assert sorted[k] in multiset(t);
      var p :| 0 <= p < |t| && t[p] == sorted[k];
    }
    forall a, b | 0 <= a < b < |r| ensures r[a].domain != r[b].domain {
      assert sorted[a] == r[a] && sorted[b] == r[b];
    }
  }

  /** Among kept entries with equal counts, the hostname seen first comes first. */
  lemma TopDomainsTies(hs: seq<string>)
    ensures var r := TopDomains(Tally(hs));
      forall a, b :: 0 <= a < b < |r| && r[a].count == r[b].count ==> FirstSeenBefore(hs, r[a].domain, r[b].domain)
  {
    var t := Tally(hs);
    TallyFacts(hs);
    SortByCountFacts(t);
    TopDomainsPrefix(t);
    var sorted, r := SortByCount(t), TopDomains(t);
    forall a, b | 0 <= a < b < |r| && r[a].count == r[b].count ensures FirstSeenBefore(hs, r[a].domain, r[b].domain) {
      assert sorted[a] == r[a] && sorted[b] == r[b];
      assert PrecedesIn(t, r[a], r[b]);
      var p, q :| 0 <= p < q < |t| && t[p] == r[a] && t[q] == r[b];
    }
  }

  /**
   * What `extractDomains` returns, given the counted hostnames `hs`: at most two
   * entries, by non-increasing count, each a distinct counted hostname with its
   * number of occurrences; no counted hostname left out outranks one kept; and
   * among equal counts the hostname seen first comes first.
   */
  lemma TopDomainsFacts(hs: seq<string>)
    ensures var t := Tally(hs); var r := TopDomains(t);
      && |r| == (if |t| < 2 then |t| else 2)
      && SortedByCount(r)
      && (forall k :: 0 <= k < |r| ==> r[k].domain in hs && r[k].count == Occurrences(hs, r[k].domain))
      && (forall a, b :: 0 <= a < b < |r| ==> r[a].domain != r[b].domain)
      && (forall k, c :: 0 <= k < |r| && c in t && c !in r ==> c.count <= r[k].count)
      && (forall a, b :: 0 <= a < b < |r| && r[a].count == r[b].count ==> FirstSeenBefore(hs, r[a].domain, r[b].domain))
  {
    TopDomainsPrefix(Tally(hs));
    TopDomainsOutrank(Tally(hs));
    TopDomainsMembers(hs);
    TopDomainsTies(hs);
  }

  /** Each counted hostname is counted once per URL carrying it, and the current domain is never counted. */
  lemma {:induction false} CountedHostsFacts(urls: seq<string>, currentDomain: string, hostname: string -> Option<string>, d: string)
    ensures Occurrences(CountedHosts(urls, currentDomain, hostname), d)
      == if d == currentDomain then 0 else UrlsWithHost(urls, d, hostname)
    ensures currentDomain !in CountedHosts(urls, currentDomain, hostname)
  {
    if urls != [] {
      var init, u := urls[..|urls| - 1], urls[|urls| - 1];
      CountedHostsFacts(init, currentDomain, hostname, d);
      var h0 := CountedHosts(init, currentDomain, hostname);
      var hs := CountedHosts(urls, currentDomain, hostname);
      assert UrlsWithHost(urls, d, hostname) == UrlsWithHost(init, d, hostname) + if hostname(u) == Some(d) then 1 else 0;
      match hostname(u)
      case Some(h) =>
        if h != currentDomain {
          assert hs == h0 + [h];
          assert hs[..|hs| - 1] == h0;
        } else {
          assert hs == h0;
        }
      case None =>
        assert hs == h0;
    }
  }

  /** What `extractDomains` computes for a document: the top two counted hostnames. */
  function ExtractedDomains(es: seq<Element>, currentDomain: string, hostname: string -> Option<string>): seq<DomainCount> {
    TopDomains(Tally(CountedHosts(DomainCandidates(es), currentDomain, hostname)))
  }

  /** Each domain `extractDomains` keeps is external and carries the number of URLs on it. */
  lemma ExtractedDomainsCounted(urls: seq<string>, currentDomain: string, hostname: string -> Option<string>)
    ensures var r := TopDomains(Tally(CountedHosts(urls, currentDomain, hostname)));
      && |r| <= 2
      && forall k :: 0 <= k < |r| ==> r[k].domain != currentDomain && r[k].count == UrlsWithHost(urls, r[k].domain, hostname)
  {
    var hs := CountedHosts(urls, currentDomain, hostname);
    var r := TopDomains(Tally(hs));
    TopDomainsPrefix(Tally(hs));
    forall k | 0 <= k < |r|
      ensures r[k].domain != currentDomain && r[k].count == UrlsWithHost(urls, r[k].domain, hostname)
    {
      TopDomainsMemberAt(hs, k);
      CountedHostsFacts(urls, currentDomain, hostname, r[k].domain);
    }
  }

  /** `TopDomainsMembers` for one kept entry. */
  lemma TopDomainsMemberAt(hs: seq<string>, k: nat)
    requires k < |TopDomains(Tally(hs))|
    ensures TopDomains(Tally(hs))[k].domain in hs
    ensures TopDomains(Tally(hs))[k].count == Occurrences(hs, TopDomains(Tally(hs))[k].domain)
  {
    TopDomainsMembers(hs);
  }

  // ---------------------------------------------------------------------------
  // Script, stylesheet and anchor selection.

  /**
   * `shouldPreloadScript`: a script is preloaded only when it is neither async,
   * deferred, a module nor `nomodule`, and its `src` is an absolute URL on the
   * current domain.
   */
  function ShouldPreloadScript(e: Element, currentDomain: string, hostname: string -> Option<string>): (r: bool)
    ensures Truthy(Attr(e, "async")) || Truthy(Attr(e, "defer")) ==> !r
    ensures Attr(e, "type") == Some("module") ==> !r
    ensures Truthy(Attr(e, "nomodule")) ==> !r
    ensures !Truthy(Attr(e, "src")) ==> !r
    ensures Truthy(Attr(e, "src")) && hostname(Attr(e, "src").value) != Some(currentDomain) ==> !r
    ensures !Truthy(Attr(e, "async")) && !Truthy(Attr(e, "defer")) && Attr(e, "type") != Some("module")
      && !Truthy(Attr(e, "nomodule")) && Truthy(Attr(e, "src")) && hostname(Attr(e, "src").value) == Some(currentDomain)
      ==> r
  {
    if Truthy(Attr(e, "async")) || Truthy(Attr(e, "defer")) then false
    else if Attr(e, "type") == Some("module") then false
    else if Truthy(Attr(e, "nomodule")) then false
    else if !Truthy(Attr(e, "src")) then false
    else match hostname(Attr(e, "src").value)
      case None => false
      case Some(h) => h == currentDomain
  }

  /**
   * The same decision read off the markup: a script is preloaded exactly when
   * it has no `async` and no `defer` attribute at all (cheerio reports both by
   * name, so an empty value still counts), its `type` is not `module`, any
   * `nomodule` it has is written without a value, and its non-empty `src`
   * parses to the current host.
   */
  lemma ShouldPreloadScriptOnMarkup(e: Element, currentDomain: string, hostname: string -> Option<string>)
    ensures ShouldPreloadScript(e, currentDomain, hostname) <==>
      && "async" !in e.attrs && "defer" !in e.attrs
      && ("type" in e.attrs ==> e.attrs["type"] != "module")
      && ("nomodule" in e.attrs ==> e.attrs["nomodule"] == "")
      && "src" in e.attrs && e.attrs["src"] != ""
      && hostname(e.attrs["src"]) == Some(currentDomain)
  {
  }

  /**
   * `nomodule` is not one of the attributes cheerio reports by name, so a bare
   * `<script nomodule src=…>` on the current host reads as "" there and is
   * preloaded.
   */
  lemma BareNomoduleScriptIsPreloaded(src: string, currentDomain: string, hostname: string -> Option<string>)
    requires src != "" && hostname(src) == Some(currentDomain)
    ensures ShouldPreloadScript(Element("script", map["src" := src, "nomodule" := ""]), currentDomain, hostname)
  {
  }

  /**
   * The selector `link[rel="stylesheet"]`. Outside XML mode the selector engine
   * compares the value of `rel` ignoring case (`toLowerCase` on both sides);
   * the only characters that lower-case into the letters of "stylesheet" are
   * those letters in either ASCII case, so ASCII lower-casing is exact here.
   */
  predicate IsStylesheetLink(e: Element) {
    e.tag == "link" && Attr(e, "rel").Some? && AsciiLower(Attr(e, "rel").value) == "stylesheet"
  }

  /**
   * `rel` matches in any ASCII case, but only as the whole value: a list of
   * link types or a padded value is not selected.
   */
  lemma StylesheetRelIgnoresCase(href: string)
    requires href != ""
    ensures StylesheetUrls([Element("link", map["rel" := "StyleSheet", "href" := href])]) == [Resource(href, "style")]
    ensures StylesheetUrls([Element("link", map["rel" := "STYLESHEET", "href" := href])]) == [Resource(href, "style")]
    ensures StylesheetUrls([Element("link", map["rel" := "stylesheet preload", "href" := href])]) == []
    ensures StylesheetUrls([Element("link", map["rel" := " stylesheet", "href" := href])]) == []
  {
    assert AsciiLower("StyleSheet") == "stylesheet";
    assert AsciiLower("STYLESHEET") == "stylesheet";
  }

  function StylesheetResource(e: Element): Option<Resource> {
    if IsStylesheetLink(e) && Truthy(Attr(e, "href")) then Some(Resource(Attr(e, "href").value, "style")) else None
  }

  /** `getStylesheetUrls`: the non-empty `href` of every `link[rel="stylesheet"]`, in document order, as `style`. */
  function StylesheetUrls(es: seq<Element>): (r: seq<Resource>)
    ensures |r| <= |es|
    ensures forall x :: x in r ==> x.destination == "style" && x.url != ""
    ensures forall x :: x in r <==>
      exists i :: 0 <= i < |es| && IsStylesheetLink(es[i]) && x.url != "" && Attr(es[i], "href") == Some(x.url) && x.destination == "style"
  {
    var r := FilterMap(es, StylesheetResource);
    assert forall x :: x in r <==> exists i :: 0 <= i < |es| && StylesheetResource(es[i]) == Some(x);
    r
  }

  function ScriptResource(e: Element, currentDomain: string, hostname: string -> Option<string>): Option<Resource> {
    if e.tag == "script" && Attr(e, "src").Some? && ShouldPreloadScript(e, currentDomain, hostname)
    then Some(Resource(Attr(e, "src").value, "script")) else None
  }

  /** `getScriptUrls`: the `src` of every `script[src]` that should be preloaded, in document order, as `script`. */
  function ScriptUrls(es: seq<Element>, currentDomain: string, hostname: string -> Option<string>): (r: seq<Resource>)
    ensures |r| <= |es|
    ensures forall x :: x in r ==> x.destination == "script" && x.url != "" && hostname(x.url) == Some(currentDomain)
    ensures forall x :: x in r <==>
      exists i :: 0 <= i < |es| && es[i].tag == "script" && ShouldPreloadScript(es[i], currentDomain, hostname)
        && Attr(es[i], "src") == Some(x.url) && x.destination == "script"
  {
    var f := e => ScriptResource(e, currentDomain, hostname);
    var r := FilterMap(es, f);
    assert forall x :: x in r <==> exists i :: 0 <= i < |es| && f(es[i]) == Some(x);
    r
  }

  function AnchorHref(e: Element): Option<string> {
    if e.tag == "a" && "href" in e.attrs && StartsWith(e.attrs["href"], "/") then Some(e.attrs["href"]) else None
  }

  /** `getLinkUrls`: the `href` of every `a[href]` that begins with `/`, in document order. */
  function LinkUrls(es: seq<Element>): (r: seq<string>)
    ensures |r| <= |es|
    ensures forall u :: u in r <==> StartsWith(u, "/") && exists i :: 0 <= i < |es| && es[i].tag == "a" && Attr(es[i], "href") == Some(u)
  {
    var r := FilterMap(es, AnchorHref);
    assert forall u :: u in r <==> exists i :: 0 <= i < |es| && AnchorHref(es[i]) == Some(u);
    r
  }

  // ---------------------------------------------------------------------------
  // findLCPImage

  /** `findLCPImage`'s result: the image source and the configuration it matched. */
  datatype LcpMatch = LcpMatch(src: string, config: LcpConfig)

  /** An element qualifies when its `src` is non-empty, not a `data:` URI, and contains `url`. */
  predicate LcpCandidate(e: Element, url: string) {
    Truthy(Attr(e, "src")) && !StartsWith(Attr(e, "src").value, "data:") && Contains(Attr(e, "src").value, url)
  }

  /** The position of the first qualifying element. */
  function FirstLcpCandidate(es: seq<Element>, url: string): (r: Option<nat>)
    ensures r.Some? ==> r.value < |es| && LcpCandidate(es[r.value], url)
    ensures r.Some? ==> forall j :: 0 <= j < r.value ==> !LcpCandidate(es[j], url)
    ensures r.None? ==> forall j :: 0 <= j < |es| ==> !LcpCandidate(es[j], url)
  {
    if es == [] then None
    else if LcpCandidate(es[0], url) then Some(0)
    else match FirstLcpCandidate(es[1..], url)
      case None => None
      case Some(i) => Some(i + 1)
  }

  /**
   * `findLCPImage` for a string `url`: nothing without an LCP configuration;
   * otherwise the first selected element that qualifies.
   */
  function FindLcpImage(doc: Document, lib: Library, pageConfig: Option<PageConfig>): (r: Option<LcpMatch>)
    ensures pageConfig.None? || pageConfig.value.lcpConfig.None? ==> r.None?
    ensures pageConfig.Some? && pageConfig.value.lcpConfig.Some? ==>
      var cfg := pageConfig.value.lcpConfig.value;
      var es := lib.select(doc, cfg.selector);
      && (r.None? <==> forall j :: 0 <= j < |es| ==> !LcpCandidate(es[j], cfg.url))
      && (r.Some? ==> r.value.config == cfg)
      && (r.Some? ==>
            exists i :: (0 <= i < |es| && LcpCandidate(es[i], cfg.url) && Attr(es[i], "src") == Some(r.value.src)
              && forall j :: 0 <= j < i ==> !LcpCandidate(es[j], cfg.url)))
  {
    if pageConfig.None? || pageConfig.value.lcpConfig.None? then None
    else
      var cfg := pageConfig.value.lcpConfig.value;
      var es := lib.select(doc, cfg.selector);
      match FirstLcpCandidate(es, cfg.url)
      case None => None
      case Some(i) => Some(LcpMatch(Attr(es[i], "src").value, cfg))
  }

  // ---------------------------------------------------------------------------
  // injectResourceHints

  /** The `attrs` object built for a hint, as its entries in insertion order. */
  function LinkAttributes(h: ResourceHint): seq<(string, string)> {
    [("rel", KindName(h.kind)), ("href", h.url)]
    + (if Truthy(h.destination) then [("as", h.destination.value)] else [])
    + (if h.crossorigin then [("crossorigin", "")] else [])
  }

  function RenderAttribute(kv: (string, string)): string {
    kv.0 + "=\"" + kv.1 + "\""
  }

  /** Each attribute as `key="value"`, in order. */
  function RenderAttributes(attrs: seq<(string, string)>): (r: seq<string>)
    ensures |r| == |attrs|
    ensures forall i :: 0 <= i < |attrs| ==> r[i] == RenderAttribute(attrs[i])
  {
    if attrs == [] then [] else [RenderAttribute(attrs[0])] + RenderAttributes(attrs[1..])
  }

  /** The `<link ...>` markup prepended for one hint: each attribute as `key="value"`, joined by spaces. */
  function LinkTag(h: ResourceHint): string {
    "<link " + Join(RenderAttributes(LinkAttributes(h)), " ") + ">"
  }

  /**
   * The exact shape of a hint's link: `rel`, then `href`, then `as` when the
   * hint has a non-empty one, then an empty `crossorigin` when it is set.
   */
  lemma LinkTagShape(h: ResourceHint)
    ensures LinkTag(h) == "<link " + RenderAttribute(("rel", KindName(h.kind))) + " " + RenderAttribute(("href", h.url))
      + (if Truthy(h.destination) then " " + RenderAttribute(("as", h.destination.value)) else "")
      + (if h.crossorigin then " " + RenderAttribute(("crossorigin", "")) else "")
      + ">"
  {
    var rel, href := RenderAttribute(("rel", KindName(h.kind))), RenderAttribute(("href", h.url));
    var cross := RenderAttribute(("crossorigin", ""));
    var asPart := if Truthy(h.destination) then " " + RenderAttribute(("as", h.destination.value)) else "";
    var crossPart := if h.crossorigin then " " + cross else "";
    var tail := (if Truthy(h.destination) then [RenderAttribute(("as", h.destination.value))] else [])
      + (if h.crossorigin then [cross] else []);
    LinkParts(h, tail);
    JoinCons(rel, [href] + tail, " ");
    JoinTail(href, tail, asPart, crossPart, h);
    Regroup("<link ", rel, " ", href, asPart, crossPart, ">");
  }

  lemma RegroupSpaced(a: string, b: string, c: string)
    ensures a + " " + (b + " " + c) == a + (" " + b) + (" " + c)
  {
  }

  lemma Regroup(a: string, b: string, c: string, d: string, e: string, f: string, g: string)
    ensures a + (b + c + (d + e + f)) + g == a + b + c + d + e + f + g
  {
  }

  lemma LinkParts(h: ResourceHint, tail: seq<string>)
    requires tail == (if Truthy(h.destination) then [RenderAttribute(("as", h.destination.value))] else [])
      + (if h.crossorigin then [RenderAttribute(("crossorigin", ""))] else [])
    ensures RenderAttributes(LinkAttributes(h))
      == [RenderAttribute(("rel", KindName(h.kind)))] + ([RenderAttribute(("href", h.url))] + tail)
  {
    var attrs := LinkAttributes(h);
    var parts := RenderAttributes(attrs);
    assert |parts| == 2 + |tail|;
    forall k | 2 <= k < |parts| ensures parts[k] == tail[k - 2] {
      assert parts[k] == RenderAttribute(attrs[k]);
    }
  }

  lemma JoinTail(href: string, tail: seq<string>, asPart: string, crossPart: string, h: ResourceHint)
    requires asPart == if Truthy(h.destination) then " " + RenderAttribute(("as", h.destination.value)) else ""
    requires crossPart == if h.crossorigin then " " + RenderAttribute(("crossorigin", "")) else ""
    requires tail == (if Truthy(h.destination) then [RenderAttribute(("as", h.destination.value))] else [])
      + (if h.crossorigin then [RenderAttribute(("crossorigin", ""))] else [])
    ensures Join([href] + tail, " ") == href + asPart + crossPart
  {
    var a, c := RenderAttribute(("as", h.destination.GetOr(""))), RenderAttribute(("crossorigin", ""));
    if Truthy(h.destination) && h.crossorigin {
      assert tail == [a] + [c];
      JoinCons(a, [c], " ");
      JoinCons(href, [a] + [c], " ");
      RegroupSpaced(href, a, c);
    } else if Truthy(h.destination) {
      assert tail == [a];
      JoinCons(href, [a], " ");
    } else if h.crossorigin {
      assert tail == [c];
      JoinCons(href, [c], " ");
    } else {
      assert [href] + tail == [href];
    }
  }

  lemma JoinCons(x: string, rest: seq<string>, sep: string)
    requires rest != []
    ensures Join([x] + rest, sep) == x + sep + Join(rest, sep)
  {
    assert ([x] + rest)[1..] == rest;
  }

  /** The comment `injectResourceHints` puts first. */
  function TimestampComment(now: nat): string {
    "<!-- Processed at: " + NatToString(now) + " -->\n"
  }

  /**
   * The head after prepending the link for each hint in turn: the links come
   * out in reverse hint order, followed by the head as it was.
   */
  function PrependAll(hints: seq<ResourceHint>, head: seq<string>): (r: seq<string>)
    ensures |r| == |hints| + |head|
    ensures forall i :: 0 <= i < |hints| ==> r[i] == LinkTag(hints[|hints| - 1 - i])
    ensures r[|hints|..] == head
  {
    if hints == [] then head
    else [LinkTag(hints[|hints| - 1])] + PrependAll(hints[..|hints| - 1], head)
  }

  // ---------------------------------------------------------------------------
  // The processor object.

  /** `HTMLProcessor`: a parsed page it may change, and the domain it is served from. */
  class Processor {
    /** `this.$`: the parsed document. */
    var doc: Document
    const currentDomain: string
    const lib: Library

    constructor (html: string, currentDomain: string, lib: Library)
      ensures doc == lib.parse(html)
      ensures this.currentDomain == currentDomain && this.lib == lib
    {
      doc := lib.parse(html);
      this.currentDomain := currentDomain;
      this.lib := lib;
    }

    /**
     * `extractDomains`: the two most frequent external hostnames of the
     * document's absolute link, script, image and anchor URLs.
     */
    method ExtractDomains() returns (r: seq<DomainCount>)
      ensures r == ExtractedDomains(doc.elements, currentDomain, lib.hostname)
      ensures |r| <= 2
      ensures forall k :: 0 <= k < |r| ==>
        r[k].domain != currentDomain && r[k].count == UrlsWithHost(DomainCandidates(doc.elements), r[k].domain, lib.hostname)
    {
      var urls, current, hostname := DomainCandidates(doc.elements), currentDomain, lib.hostname;
      var counts: seq<DomainCount> := [];
      var i := 0;
      while i < |urls|
        invariant 0 <= i <= |urls|
        invariant counts == Tally(CountedHosts(urls[..i], current, hostname))
      {
        TallyStep(urls, i, current, hostname);
        match hostname(urls[i]) {
          case Some(domain) =>
            if domain != current {
              counts := Bump(counts, domain);
            }
          case None =>
        }
        i := i + 1;
      }
      assert urls[..i] == urls;
      r := TopDomains(counts);
      ExtractedDomainsCounted(urls, current, hostname);
    }

    /**
     * `injectResourceHints`: prepend the timestamp comment, then each hint's
     * link in turn, and serialize the page.
     */
    method InjectResourceHints(hints: seq<ResourceHint>, now: nat) returns (html: string)
      modifies this
      ensures doc == old(doc).(head := PrependAll(hints, [TimestampComment(now)] + old(doc.head)))
      ensures html == lib.render(doc)
    {
      doc := doc.(head := [TimestampComment(now)] + doc.head);
      ghost var base := doc.head;
      var i := 0;
      while i < |hints|
        invariant 0 <= i <= |hints|
        invariant doc == old(doc).(head := PrependAll(hints[..i], base))
      {
        assert hints[..i + 1][..i] == hints[..i];
        doc := doc.(head := [LinkTag(hints[i])] + doc.head);
        i := i + 1;
      }
      assert hints[..i] == hints;
      html := lib.render(doc);
    }
  }
}
