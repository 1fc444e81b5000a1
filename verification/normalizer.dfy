/**
 * URL canonicalisation for comparison (`normalize_url`) and equality up to
 * it (`urls_equal`), internal/utils/normalizer.py.
 */
module Normalizer {
  import opened Text
  import opened Urls

  type Pair = (string, string)

  /** Python's `<` on `(name, value)` tuples of strings. */
  predicate PairLess(a: Pair, b: Pair) {
    LexLess(a.0, b.0) || (a.0 == b.0 && LexLess(a.1, b.1))
  }

  lemma {:induction false} PairLessTotal(a: Pair, b: Pair)
    ensures a == b || PairLess(a, b) || PairLess(b, a)
  {
    LexLessTotal(a.0, b.0);
    LexLessTotal(a.1, b.1);
  }

  lemma {:induction false} PairLessAsymmetric(a: Pair, b: Pair)
    requires PairLess(a, b)
    ensures !PairLess(b, a) && a != b
  {
    LexLessIrreflexive(a.0);
    LexLessIrreflexive(a.1);
    if LexLess(a.0, b.0) {
      LexLessAsymmetric(a.0, b.0);
    } else {
      LexLessAsymmetric(a.1, b.1);
    }
  }

  lemma {:induction false} PairLessTransitive(a: Pair, b: Pair, c: Pair)
    requires PairLess(a, b) && PairLess(b, c)
    ensures PairLess(a, c)
  {
    if LexLess(a.0, b.0) && LexLess(b.0, c.0) {
      LexLessTransitive(a.0, b.0, c.0);
    } else if LexLess(a.1, b.1) && LexLess(b.1, c.1) && a.0 == b.0 && b.0 == c.0 {
      LexLessTransitive(a.1, b.1, c.1);
    }
  }

  /** Ascending in the sense of `sorted`: no later pair is smaller than an earlier one. */
  predicate SortedPairs(ps: seq<Pair>) {
    forall i, j :: 0 <= i < j < |ps| ==> !PairLess(ps[j], ps[i])
  }

  /** Puts `p` in front of the first pair that is not smaller than it. */
  function Insert(p: Pair, ps: seq<Pair>): (r: seq<Pair>)
    requires SortedPairs(ps)
    ensures SortedPairs(r)
    ensures multiset(r) == multiset(ps) + multiset{p}
  {
    if ps == [] then [p]
    else if PairLess(ps[0], p) then
      assert ps == [ps[0]] + ps[1..];
      InsertBehind(p, ps, Insert(p, ps[1..]));
      [ps[0]] + Insert(p, ps[1..])
    else
      InsertFront(p, ps);
      [p] + ps
  }

  lemma {:induction false} InsertBehind(p: Pair, ps: seq<Pair>, tail: seq<Pair>)
    requires SortedPairs(ps) && ps != [] && PairLess(ps[0], p)
    requires SortedPairs(tail) && multiset(tail) == multiset(ps[1..]) + multiset{p}
    ensures SortedPairs([ps[0]] + tail)
  {
    PairLessAsymmetric(ps[0], p);
    forall j | 0 <= j < |tail| ensures !PairLess(tail[j], ps[0]) {
      assert tail[j] in multiset(tail);
      if tail[j] != p {
        assert tail[j] in multiset(ps[1..]);
        var k :| 0 <= k < |ps[1..]| && ps[1..][k] == tail[j];
        assert ps[k + 1] == tail[j];
      }
    }
  }

  lemma {:induction false} InsertFront(p: Pair, ps: seq<Pair>)
    requires SortedPairs(ps) && ps != [] && !PairLess(ps[0], p)
    ensures SortedPairs([p] + ps)
  {
    forall j | 0 < j <= |ps| ensures !PairLess(([p] + ps)[j], p) {
      var x := ps[j - 1];
      if PairLess(x, p) {
        PairLessTotal(x, ps[0]);
        if PairLess(ps[0], x) {
          PairLessTransitive(ps[0], x, p);
        }
      }
    }
  }

  /** `sorted(pairs)`: the same pairs, ascending. */
  function SortPairs(ps: seq<Pair>): (r: seq<Pair>)
    ensures SortedPairs(r)
    ensures multiset(r) == multiset(ps)
  {
    if ps == [] then []
    else
      assert ps == [ps[0]] + ps[1..];
      Insert(ps[0], SortPairs(ps[1..]))
  }

  /** The least element of a multiset is the head of every ascending arrangement of it. */
  lemma {:induction false} SortedHeads(a: seq<Pair>, b: seq<Pair>)
    requires SortedPairs(a) && SortedPairs(b)
    requires multiset(a) == multiset(b) && a != []
    ensures b != [] && a[0] == b[0]
  {
    assert a[0] in multiset(b);
    var k :| 0 <= k < |b| && b[k] == a[0];
    assert b[0] in multiset(a);
    var j :| 0 <= j < |a| && a[j] == b[0];
    LexLessIrreflexive(a[0].0);
    LexLessIrreflexive(a[0].1);
    LexLessIrreflexive(b[0].0);
    LexLessIrreflexive(b[0].1);
    assert !PairLess(a[0], b[0]) by {
      if k > 0 { assert !PairLess(b[k], b[0]); }
    }
    assert !PairLess(b[0], a[0]) by {
      if j > 0 { assert !PairLess(a[j], a[0]); }
    }
    PairLessTotal(a[0], b[0]);
  }

  lemma {:induction false} SortedTail(a: seq<Pair>)
    requires SortedPairs(a) && a != []
    ensures SortedPairs(a[1..])
  {
    assert forall i, j :: 0 <= i < j < |a| - 1 ==> a[1..][i] == a[i + 1] && a[1..][j] == a[j + 1];
  }

  lemma {:induction false} MultisetTail(a: seq<Pair>)
    requires a != []
    ensures multiset(a[1..]) == multiset(a) - multiset{a[0]}
  {
    assert a == [a[0]] + a[1..];
  }

  /** There is only one ascending arrangement of a multiset of pairs. */
  lemma {:induction false} SortedUnique(a: seq<Pair>, b: seq<Pair>)
    requires SortedPairs(a) && SortedPairs(b)
    requires multiset(a) == multiset(b)
    ensures a == b
  {
    if a == [] {
      assert |b| == |multiset(b)| == 0;
    } else {
      SortedHeads(a, b);
      SortedTail(a);
      SortedTail(b);
      MultisetTail(a);
      MultisetTail(b);
      SortedUnique(a[1..], b[1..]);
      assert a == [a[0]] + a[1..] && b == [b[0]] + b[1..];
    }
  }

  /** Lines 43-44: a non-empty query is re-encoded from its pairs in ascending order. */
  function NormalizeQuery(query: string): string
  {
    if query != "" then Urlencode(SortPairs(ParseQsl(query))) else query
  }

  lemma {:induction false} ParseQslEmpty()
    ensures ParseQsl("") == []
  {
    SplitOnSingle("", '&');
    assert FieldPairs([""]) == FieldPairs([]);
  }

  /** The order of the query's parameters does not change its normal form. */
  lemma {:induction false} QueryOrderIndependent(q1: string, q2: string)
    requires multiset(ParseQsl(q1)) == multiset(ParseQsl(q2))
    ensures NormalizeQuery(q1) == NormalizeQuery(q2)
  {
    SortedUnique(SortPairs(ParseQsl(q1)), SortPairs(ParseQsl(q2)));
    ParseQslEmpty();
    if q1 == "" || q2 == "" {
      assert ParseQsl(q1) == [] && ParseQsl(q2) == [];
      assert Urlencode([]) == "";
    }
  }

  /** Lines 29-30: only the scheme `http` is rewritten, and only to `https`. */
  function ForceHttps(scheme: string, forceHttps: bool): (r: string)
    ensures r != scheme ==> forceHttps && scheme == "http" && r == "https"
    ensures forceHttps ==> r != "http"
  {
    if forceHttps && scheme == "http" then "https" else scheme
  }

  /** Lines 33-36: the default port of the scheme is dropped, and nothing else. */
  function DropDefaultPort(scheme: string, netloc: string): (r: string)
    ensures r == netloc
         || (scheme == "http" && netloc == r + ":80")
         || (scheme == "https" && netloc == r + ":443")
    ensures scheme == "http" && EndsWith(netloc, ":80") ==> netloc == r + ":80"
    ensures scheme == "https" && EndsWith(netloc, ":443") ==> netloc == r + ":443"
  {
    if EndsWith(netloc, ":80") && scheme == "http" then
      assert netloc == netloc[..|netloc| - 3] + netloc[|netloc| - 3..];
      netloc[..|netloc| - 3]
    else if EndsWith(netloc, ":443") && scheme == "https" then
      assert netloc == netloc[..|netloc| - 4] + netloc[|netloc| - 4..];
      netloc[..|netloc| - 4]
    else netloc
  }

  /** Lines 39-40: one leading `www.` goes, when asked for. */
  function DropWww(netloc: string, stripWww: bool): (r: string)
    ensures r == netloc || (stripWww && netloc == "www." + r)
    ensures stripWww && StartsWith(netloc, "www.") ==> netloc == "www." + r
  {
    if stripWww && StartsWith(netloc, "www.") then
      assert netloc == netloc[..4] + netloc[4..];
      netloc[4..]
    else netloc
  }

  /** Lines 22-46 on the parsed components: what `normalize_url` hands to `urlunparse`. */
  function NormalizeParsed(parsed: ParseResult, stripWww: bool, forceHttps: bool): ParseResult
  {
    var scheme := ForceHttps(Lower(parsed.scheme), forceHttps);
    var netloc := DropWww(DropDefaultPort(scheme, Lower(parsed.netloc)), stripWww);
    ParseResult(scheme, netloc, RStripChar(parsed.path, '/'), "", NormalizeQuery(parsed.query), "")
  }

  /** `normalize_url(url, strip_www=stripWww, force_https=forceHttps)` (lines 3-46). */
  function NormalizeUrl(url: string, stripWww: bool, forceHttps: bool): string
  {
    UrlUnparse(NormalizeParsed(UrlParse(Strip(url)), stripWww, forceHttps))
  }

  /** `normalize_url(url)` with its defaults: `strip_www=True`, `force_https=False`. */
  function NormalizeUrlDefault(url: string): string
  {
    NormalizeUrl(url, true, false)
  }

  /** `urls_equal(url1, url2)`. */
  predicate UrlsEqual(url1: string, url2: string)
  {
    NormalizeUrlDefault(url1) == NormalizeUrlDefault(url2)
  }

  /**
   * Scheme and host come out lower-case, the path has no trailing `/`,
   * params and fragment are empty, and `force_https` leaves no `http`.
   */
  lemma {:induction false} NormalizedShape(parsed: ParseResult, stripWww: bool, forceHttps: bool)
    ensures var r := NormalizeParsed(parsed, stripWww, forceHttps);
      && IsLower(r.scheme) && IsLower(r.netloc)
      && (r.path == [] || r.path[|r.path| - 1] != '/')
      && r.params == "" && r.fragment == ""
      && (forceHttps ==> r.scheme != "http")
  {
    LowerIsLower(parsed.scheme);
    LowerIsLower(parsed.netloc);
    var n := Lower(parsed.netloc);
    var scheme := ForceHttps(Lower(parsed.scheme), forceHttps);
    var dropped := DropDefaultPort(scheme, n);
    assert dropped == n[..|dropped|];
    var r := DropWww(dropped, stripWww);
    assert r == dropped[|dropped| - |r|..];
  }

  /**
   * The port check follows the upgrade to https: with `force_https`,
   * `http://host:80` keeps its `:80`.
   */
  lemma {:induction false} ForcedHttpsKeepsPort80(parsed: ParseResult, stripWww: bool)
    requires Lower(parsed.scheme) == "http"
    requires EndsWith(Lower(parsed.netloc), ":80")
    ensures NormalizeParsed(parsed, stripWww, true).scheme == "https"
    ensures EndsWith(NormalizeParsed(parsed, stripWww, true).netloc, ":80")
  {
    var n := Lower(parsed.netloc);
    Port80NotHttps(n);
    WwwKeepsPort80(n, stripWww);
  }

  lemma {:induction false} Port80NotHttps(n: string)
    requires EndsWith(n, ":80")
    ensures DropDefaultPort("https", n) == n
  {
    assert n[|n| - 1] == n[|n| - 3..][2] == '0';
    if |n| >= 4 { assert n[|n| - 4..][3] == '0'; }
  }

  lemma {:induction false} WwwKeepsPort80(n: string, stripWww: bool)
    requires EndsWith(n, ":80")
    ensures EndsWith(DropWww(n, stripWww), ":80")
  {
    var r := DropWww(n, stripWww);
    if r != n {
      assert n == "www." + r;
      assert n[|n| - 3] == n[|n| - 3..][0] == ':';
      assert forall i :: 0 <= i < 4 ==> n[i] == "www."[i] != ':';
      assert r == n[4..];
      assert r[|r| - 3..] == n[|n| - 3..];
    }
  }

  /**
   * Without `force_https` (and `strip_www`), an `http` URL loses exactly its
   * trailing `:80`.
   */
  lemma {:induction false} HttpPort80Dropped(parsed: ParseResult)
    requires Lower(parsed.scheme) == "http"
    requires EndsWith(Lower(parsed.netloc), ":80")
    ensures NormalizeParsed(parsed, false, false).scheme == "http"
    ensures NormalizeParsed(parsed, false, false).netloc + ":80" == Lower(parsed.netloc)
  {
  }

  /**
   * Two URLs that differ only in the order of their query parameters have
   * the same normal form.
   */
  lemma {:induction false} UrlQueryOrderIndependent(url1: string, url2: string, stripWww: bool, forceHttps: bool)
    requires UrlParse(Strip(url1)).(query := "") == UrlParse(Strip(url2)).(query := "")
    requires multiset(ParseQsl(UrlParse(Strip(url1)).query)) == multiset(ParseQsl(UrlParse(Strip(url2)).query))
    ensures NormalizeUrl(url1, stripWww, forceHttps) == NormalizeUrl(url2, stripWww, forceHttps)
  {
    var p1, p2 := UrlParse(Strip(url1)), UrlParse(Strip(url2));
    QueryOrderIndependent(p1.query, p2.query);
    assert p1.scheme == p2.scheme && p1.netloc == p2.netloc && p1.path == p2.path;
    assert NormalizeParsed(p1, stripWww, forceHttps) == NormalizeParsed(p2, stripWww, forceHttps);
  }

  /** `urls_equal` is an equivalence: it compares normal forms. */
  lemma {:induction false} UrlsEqualEquivalence(a: string, b: string, c: string)
    ensures UrlsEqual(a, a)
    ensures UrlsEqual(a, b) ==> UrlsEqual(b, a)
    ensures UrlsEqual(a, b) && UrlsEqual(b, c) ==> UrlsEqual(a, c)
  {
  }
}
