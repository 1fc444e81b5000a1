/**
 * Pairwise matching of two raw prospect records (`ProspectMatcher`,
 * internal/domain/pipeline/matcher.py): a fixed ladder of identity, domain,
 * e-mail, name-and-location and name-only rules, first rule wins.
 */
module Matcher {
  import opened Wrappers
  import opened Text
  import opened Urls
  import opened Records

  /** `HIGH_NAME_SIMILARITY`. */
  const HighNameSimilarity: real := 0.90
  /** `MEDIUM_NAME_SIMILARITY`. */
  const MediumNameSimilarity: real := 0.75

  /** A similarity ratio in [0, 1]; difflib's `SequenceMatcher.ratio()` is one such function. */
  type Ratio = r: real | 0.0 <= r <= 1.0

  /** Match levels: the matcher returns `Low`, `Medium` or `High`; `NoMatch` ('none') only labels singleton clusters. */
  datatype Level = NoMatch | Low | Medium | High

  // ---------------------------------------------------------------------------
  // normalize_domain

  /** `normalize_domain`: the lower-cased host part of the website, with every `www.` deleted. */
  function NormalizeDomain(url: Option<string>): (r: Option<string>)
    ensures r.None? <==> !Truthy(url)
    ensures r.Some? ==> IsLower(r.value)
  {
    if !Truthy(url) then None
    else
      var u := if StartsWith(url.value, "http://") || StartsWith(url.value, "https://") then url.value
               else "https://" + url.value;
      LowerIsLower(UrlParse(u).netloc);
      DeleteAllLower(Lower(UrlParse(u).netloc), "www.");
      Some(DeleteAll(Lower(UrlParse(u).netloc), "www."))
  }

  lemma {:induction false} DeleteAllLower(s: string, pat: string)
    requires pat != [] && IsLower(s)
    ensures IsLower(DeleteAll(s, pat))
    decreases |s|
  {
    if StartsWith(s, pat) {
      assert IsLower(s[|pat|..]) by {
        forall i | 0 <= i < |s| - |pat| ensures !IsUpper(s[|pat|..][i]) { assert s[|pat|..][i] == s[i + |pat|]; }
      }
      DeleteAllLower(s[|pat|..], pat);
    } else if s != [] {
      assert IsLower(s[1..]) by {
        forall i | 0 <= i < |s| - 1 ensures !IsUpper(s[1..][i]) { assert s[1..][i] == s[i + 1]; }
      }
      DeleteAllLower(s[1..], pat);
    }
  }

  lemma {:induction false} DeleteAllNoFirst(s: string, pat: string)
    requires pat != [] && pat[0] !in s
    ensures DeleteAll(s, pat) == s
    decreases |s|
  {
    if s != [] {
      assert !StartsWith(s, pat);
      DeleteAllNoFirst(s[1..], pat);
      assert s == [s[0]] + s[1..];
    }
  }

  lemma {:induction false} DeleteAllSkipsPrefix(a: string, b: string, pat: string)
    requires pat != [] && pat[0] !in a
    ensures DeleteAll(a + b, pat) == a + DeleteAll(b, pat)
    decreases |a|
  {
    if a == [] {
      assert a + b == b;
    } else {
      var s := a + b;
      assert s[0] == a[0] && a[0] in a;
      assert |pat| <= |s| ==> s[..|pat|][0] == s[0];
      assert !StartsWith(s, pat);
      assert s[1..] == a[1..] + b;
      assert pat[0] !in a[1..] by {
        forall k | 0 <= k < |a| - 1 ensures a[1..][k] != pat[0] { assert a[1..][k] == a[k + 1]; assert a[k + 1] in a; }
      }
      DeleteAllSkipsPrefix(a[1..], b, pat);
      assert DeleteAll(s, pat) == [s[0]] + DeleteAll(s[1..], pat);
      assert a == [a[0]] + a[1..];
    }
  }

  /** A URL that already names its scheme is parsed as it is. */
  lemma {:induction false} NormalizeDomainWithScheme(url: string)
    requires StartsWith(url, "http://") || StartsWith(url, "https://")
    ensures NormalizeDomain(Some(url)) == Some(DeleteAll(Lower(UrlParse(url).netloc), "www."))
  {
  }

  /** A URL without a scheme is parsed with `https://` put in front. */
  lemma {:induction false} NormalizeDomainWithoutScheme(url: string)
    requires url != []
    requires !StartsWith(url, "http://") && !StartsWith(url, "https://")
    ensures NormalizeDomain(Some(url)) == Some(DeleteAll(Lower(UrlParse("https://" + url).netloc), "www."))
  {
  }

  /** The host of `scheme://host...`, where `host` has no `/`, `?` or `#`. */
  lemma {:induction false} NetlocOf(scheme: string, host: string, rest: string)
    requires scheme == "http" || scheme == "https"
    requires forall k :: 0 <= k < |host| ==> host[k] !in {'/', '?', '#'}
    requires rest == [] || rest[0] in {'/', '?', '#'}
    ensures StartsWith(scheme + "://" + host + rest, "http://") || StartsWith(scheme + "://" + host + rest, "https://")
    ensures UrlParse(scheme + "://" + host + rest).netloc == host
    ensures scheme == "https" ==> UrlParse("https://" + (host + rest)).netloc == host
  {
    var url := scheme + "://" + host + rest;
    if scheme == "http" {
      assert url == "http://" + (host + rest);
      PrefixStartsWith("http://", host + rest);
    } else {
      assert url == "https://" + (host + rest);
      PrefixStartsWith("https://", host + rest);
    }
    UrlSplitAuthority(scheme, host, rest);
  }

  /** The host of `https://host...`. */
  lemma {:induction false} NetlocOfHttps(host: string, rest: string)
    requires forall k :: 0 <= k < |host| ==> host[k] !in {'/', '?', '#'}
    requires rest == [] || rest[0] in {'/', '?', '#'}
    ensures UrlParse("https://" + (host + rest)).netloc == host
  {
    NetlocOf("https", host, rest);
  }

  lemma {:induction false} SchemeColon(scheme: string, rest: string)
    ensures scheme + "://" + rest == (scheme + ":") + ("//" + rest)
  {
    assert "://" == [':'] + "//";
  }

  lemma {:induction false} LowerAroundWww(before: string, after: string)
    ensures Lower(before + "www." + after) == Lower(before) + ("www." + Lower(after))
  {
    LowerConcat(before, "www." + after);
    LowerConcat("www.", after);
    LowerOfLower("www.");
    assert before + "www." + after == before + ("www." + after);
  }

  /** A host is taken from `scheme://host/...` and lower-cased; a `www.` is deleted wherever it occurs, not only at the start. */
  lemma {:induction false} NormalizeDomainOfHost(scheme: string, before: string, after: string, rest: string)
    requires scheme == "http" || scheme == "https"
    requires 'w' !in Lower(before)
    requires forall k :: 0 <= k < |before| ==> before[k] !in {'/', '?', '#'}
    requires forall k :: 0 <= k < |after| ==> after[k] !in {'/', '?', '#'}
    requires rest == [] || rest[0] in {'/', '?', '#'}
    ensures NormalizeDomain(Some(scheme + "://" + before + "www." + after + rest))
         == Some(Lower(before) + DeleteAll(Lower(after), "www."))
  {
    var host := before + "www." + after;
    var url := scheme + "://" + host + rest;
    assert url == scheme + "://" + before + "www." + after + rest;
    forall k | 0 <= k < |host| ensures host[k] !in {'/', '?', '#'} {
      if k >= |before| + 4 { assert host[k] == after[k - |before| - 4]; }
      else if k < |before| { assert host[k] == before[k]; }
    }
    NetlocOf(scheme, host, rest);
    NormalizeDomainWithScheme(url);
    var low := "www." + Lower(after);
    LowerAroundWww(before, after);
    assert NormalizeDomain(Some(url)) == Some(DeleteAll(Lower(host), "www."));
    assert Lower(host) == Lower(before) + low;
    DeleteAllSkipsPrefix(Lower(before), low, "www.");
    assert DeleteAll(Lower(host), "www.") == Lower(before) + DeleteAll(low, "www.");
    assert StartsWith(low, "www.") && low[4..] == Lower(after);
    assert DeleteAll(low, "www.") == DeleteAll(Lower(after), "www.");
  }

  /** A host without any `w` is only lower-cased. */
  lemma {:induction false} NormalizeDomainOfPlainHost(scheme: string, host: string, rest: string)
    requires scheme == "http" || scheme == "https"
    requires 'w' !in Lower(host)
    requires forall k :: 0 <= k < |host| ==> host[k] !in {'/', '?', '#'}
    requires rest == [] || rest[0] in {'/', '?', '#'}
    ensures NormalizeDomain(Some(scheme + "://" + host + rest)) == Some(Lower(host))
  {
    NetlocOf(scheme, host, rest);
    NormalizeDomainWithScheme(scheme + "://" + host + rest);
    DeleteAllNoFirst(Lower(host), "www.");
  }

  /** `u` differs from `p` at position `j`, so it does not start with `p`. */
  lemma {:induction false} DiffersAt(u: string, p: string, j: nat)
    requires j < |p| && j < |u| && u[j] != p[j]
    ensures !StartsWith(u, p)
  {
    if |p| <= |u| { assert u[..|p|][j] == u[j]; }
  }

  /**
   * A website written without a scheme: a host with no `:`, `/`, `?` or `#`
   * followed by nothing or by a path, query or fragment does not start with
   * `http://` or `https://`.
   */
  lemma {:induction false} NoSchemePrefix(host: string, rest: string, p: string)
    requires p == "http://" || p == "https://"
    requires forall k :: 0 <= k < |host| ==> host[k] !in {':', '/', '?', '#'}
    requires rest == [] || rest[0] in {'/', '?', '#'}
    ensures !StartsWith(host + rest, p)
  {
    var u := host + rest;
    var colon := |p| - 3;
    assert p[colon] == ':';
    assert forall j :: 0 <= j <= colon ==> p[j] !in {'/', '?', '#'};
    if colon < |host| {
      assert u[colon] == host[colon];
      DiffersAt(u, p, colon);
    } else if rest != [] {
      assert u[|host|] == rest[0];
      DiffersAt(u, p, |host|);
    }
  }

  /**
   * The usual scraped website has no scheme: `https://` is put in front of
   * it, so the domain is the lower-cased host with every `www.` deleted,
   * whatever path, query or fragment follows.
   */
  lemma {:induction false} NormalizeDomainSchemeless(host: string, rest: string)
    requires host != []
    requires forall k :: 0 <= k < |host| ==> host[k] !in {':', '/', '?', '#'}
    requires rest == [] || rest[0] in {'/', '?', '#'}
    ensures NormalizeDomain(Some(host + rest)) == Some(DeleteAll(Lower(host), "www."))
  {
    NoSchemePrefix(host, rest, "http://");
    NoSchemePrefix(host, rest, "https://");
    NormalizeDomainWithoutScheme(host + rest);
    NetlocOfHttps(host, rest);
  }

  /** A scheme that lower-cases to `http` or `https` holds none of `/`, `?`, `#` (nor does it with its colon). */
  lemma {:induction false} SchemeHostChars(scheme: string)
    requires Lower(scheme) == "http" || Lower(scheme) == "https"
    ensures forall k :: 0 <= k < |scheme + ":"| ==> (scheme + ":")[k] !in {'/', '?', '#'}
  {
    var host := scheme + ":";
    forall k | 0 <= k < |host| ensures host[k] !in {'/', '?', '#'} {
      if k < |scheme| {
        assert host[k] == scheme[k];
        assert Lower(scheme)[k] == LowerChar(scheme[k]);
        assert LowerChar(scheme[k]) in {'h', 't', 'p', 's'};
      }
    }
  }

  /** A scheme spelt with an upper-case letter fails the case-sensitive prefix test. */
  lemma {:induction false} UpperSchemeNotPrefixed(scheme: string, rest: string)
    requires Lower(scheme) == "http" || Lower(scheme) == "https"
    requires scheme != "http" && scheme != "https"
    ensures !StartsWith(scheme + "://" + rest, "http://")
    ensures !StartsWith(scheme + "://" + rest, "https://")
  {
    var u := scheme + "://" + rest;
    assert forall j :: 0 <= j < |scheme| ==> u[j] == scheme[j];
    if |scheme| == 4 {
      var j :| 0 <= j < 4 && scheme[j] != "http"[j];
      assert "http"[j] == "http://"[j] == "https://"[j];
      DiffersAt(u, "http://", j);
      DiffersAt(u, "https://", j);
    } else {
      assert |scheme| == 5;
      assert Lower(scheme)[4] == 's' == LowerChar(scheme[4]);
      DiffersAt(u, "http://", 4);
      var j :| 0 <= j < 5 && scheme[j] != "https"[j];
      assert "https"[j] == "https://"[j];
      DiffersAt(u, "https://", j);
    }
  }

  /**
   * The scheme test is case-sensitive: a website written `HTTP://...` or
   * `Https://...` gets `https://` put in front, so its "host" is the scheme
   * and its colon, and the domain is `http:` or `https:` whatever follows.
   */
  lemma {:induction false} NormalizeDomainUpperScheme(scheme: string, rest: string)
    requires Lower(scheme) == "http" || Lower(scheme) == "https"
    requires scheme != "http" && scheme != "https"
    ensures NormalizeDomain(Some(scheme + "://" + rest)) == Some(Lower(scheme) + ":")
  {
    var host := scheme + ":";
    var u := scheme + "://" + rest;
    UpperSchemeNotPrefixed(scheme, rest);
    NormalizeDomainWithoutScheme(u);
    SchemeHostChars(scheme);
    SchemeColon(scheme, rest);
    NetlocOfHttps(host, "//" + rest);
    SchemeHostKept(scheme);
  }

  /** `scheme:` keeps no `w`, so deleting `www.` leaves it lower-cased only. */
  lemma {:induction false} SchemeHostKept(scheme: string)
    requires Lower(scheme) == "http" || Lower(scheme) == "https"
    ensures DeleteAll(Lower(scheme + ":"), "www.") == Lower(scheme) + ":"
  {
    var host := scheme + ":";
    LowerConcat(scheme, ":");
    if Lower(scheme) == "http" {
      assert Lower(host) == "http:";
    } else {
      assert Lower(host) == "https:";
    }
    DeleteAllNoFirst(Lower(host), "www.");
  }

  // ---------------------------------------------------------------------------
  // normalize_name

  /** The legal-form words the name pattern removes, in the order it tries them, lower-cased. */
  const LegalSuffixes: seq<string> := ["llc", "ltd", "inc", "corp", "limited", "corporation", "co"]

  /** `\b` in front of a word starting at `i`. */
  predicate WordStartsAt(s: string, i: nat)
    requires i <= |s|
  {
    i == 0 || !IsWordChar(s[i - 1])
  }

  /** The legal-form word `w` stands at `i` as a whole word, in any letter case. */
  predicate SuffixWordAt(s: string, i: nat, w: string)
    requires i <= |s|
  {
    && i + |w| <= |s|
    && Lower(s[i..i + |w|]) == w
    && WordStartsAt(s, i)
    && (i + |w| == |s| || !IsWordChar(s[i + |w|]))
  }

  /** The text the pattern consumes for `w` at `i`: the word and, greedily, one `.`. */
  function SuffixSpan(s: string, i: nat, w: string): (n: nat)
    requires i <= |s| && SuffixWordAt(s, i, w)
    ensures |w| <= n <= |s| - i
    ensures n == |w| + 1 <==> i + |w| < |s| && s[i + |w|] == '.'
  {
    if i + |w| < |s| && s[i + |w|] == '.' then |w| + 1 else |w|
  }

  /** Length of the pattern's match at `i`, trying the alternatives `alts` in order; 0 when none matches. */
  function SuffixMatch(s: string, i: nat, alts: seq<string>): (n: nat)
    requires i <= |s|
    ensures n <= |s| - i
    decreases |alts|
  {
    if alts == [] then 0
    else if SuffixWordAt(s, i, alts[0]) then SuffixSpan(s, i, alts[0])
    else SuffixMatch(s, i, alts[1..])
  }

  /**
   * The pattern matches at `i` exactly when one of the non-empty words `alts`
   * stands there as a whole word (any case), and then it consumes that word
   * and an optional `.`.
   */
  lemma {:induction false} SuffixMatchSpec(s: string, i: nat, alts: seq<string>)
    requires i <= |s|
    requires forall k :: 0 <= k < |alts| ==> alts[k] != []
    ensures SuffixMatch(s, i, alts) == 0 <==> forall k :: 0 <= k < |alts| ==> !SuffixWordAt(s, i, alts[k])
    ensures SuffixMatch(s, i, alts) > 0 ==>
      exists k :: 0 <= k < |alts| && SuffixWordAt(s, i, alts[k]) && SuffixMatch(s, i, alts) == SuffixSpan(s, i, alts[k])
    decreases |alts|
  {
    if alts != [] && !SuffixWordAt(s, i, alts[0]) {
      SuffixMatchSpec(s, i, alts[1..]);
      forall k | 0 < k < |alts| ensures alts[k] == alts[1..][k - 1] {}
    }
  }

  /** `re.sub` of the pattern with alternatives `alts` and `''`, from position `i` on: matches are removed left to right. */
  function StripFrom(s: string, i: nat, alts: seq<string>): (r: string)
    requires i <= |s|
    ensures |r| <= |s| - i
    decreases |s| - i
  {
    if i == |s| then []
    else
      var n := SuffixMatch(s, i, alts);
      if n > 0 then StripFrom(s, i + n, alts) else [s[i]] + StripFrom(s, i + 1, alts)
  }

  function StripLegalSuffixes(name: string): string
  {
    StripFrom(name, 0, LegalSuffixes)
  }

  /** `normalize_name`: legal-form words removed, lower-cased, whitespace runs collapsed to one blank. */
  function NormalizeName(name: string): (r: string)
    ensures IsLower(r)
    ensures SingleSpaced(r)
  {
    var low := Lower(StripLegalSuffixes(name));
    LowerIsLower(StripLegalSuffixes(name));
    WordsOfLower(low);
    JoinLower(Words(low), " ");
    JoinWordsSingleSpaced(Words(low));
    Join(Words(low), " ")
  }

  /** A name in which none of the words `alts` stands as a whole word passes the removal step unchanged. */
  lemma {:induction false} StripFromNoSuffix(s: string, i: nat, alts: seq<string>)
    requires i <= |s|
    requires forall j, k :: i <= j < |s| && 0 <= k < |alts| ==> !SuffixWordAt(s, j, alts[k])
    ensures StripFrom(s, i, alts) == s[i..]
    decreases |s| - i
  {
    if i < |s| {
      SuffixMatchNone(s, i, alts);
      StripFromNoSuffix(s, i + 1, alts);
      assert s[i..] == [s[i]] + s[i + 1..];
    }
  }

  lemma {:induction false} SuffixMatchNone(s: string, i: nat, alts: seq<string>)
    requires i <= |s|
    requires forall k :: 0 <= k < |alts| ==> !SuffixWordAt(s, i, alts[k])
    ensures SuffixMatch(s, i, alts) == 0
    decreases |alts|
  {
    if alts != [] {
      SuffixMatchNone(s, i, alts[1..]);
    }
  }

  lemma {:induction false} LowerSlice(s: string, i: nat, j: nat)
    requires i <= j <= |s|
    ensures Lower(s)[i..j] == Lower(s[i..j])
  {
  }

  /** Whether a legal-form word stands at `i` does not depend on letter case. */
  lemma {:induction false} SuffixWordAtLower(s: string, i: nat, w: string)
    requires i <= |s|
    ensures SuffixWordAt(Lower(s), i, w) <==> SuffixWordAt(s, i, w)
  {
    if i + |w| <= |s| {
      LowerSlice(s, i, i + |w|);
      LowerIsLower(s[i..i + |w|]);
    }
  }

  lemma {:induction false} SuffixMatchLower(s: string, i: nat, alts: seq<string>)
    requires i <= |s|
    ensures SuffixMatch(Lower(s), i, alts) == SuffixMatch(s, i, alts)
    decreases |alts|
  {
    if alts != [] {
      var w := alts[0];
      SuffixWordAtLower(s, i, w);
      if SuffixWordAt(s, i, w) {
        if i + |w| < |s| {
          assert Lower(s)[i + |w|] == LowerChar(s[i + |w|]);
        }
        assert SuffixSpan(Lower(s), i, w) == SuffixSpan(s, i, w);
      } else {
        SuffixMatchLower(s, i, alts[1..]);
      }
    }
  }

  lemma {:induction false} StripFromStep(s: string, i: nat, alts: seq<string>)
    requires i < |s|
    ensures SuffixMatch(s, i, alts) > 0 ==> StripFrom(s, i, alts) == StripFrom(s, i + SuffixMatch(s, i, alts), alts)
    ensures SuffixMatch(s, i, alts) == 0 ==> StripFrom(s, i, alts) == [s[i]] + StripFrom(s, i + 1, alts)
  {
  }

  lemma {:induction false} StripFromLower(s: string, i: nat, alts: seq<string>)
    requires i <= |s|
    ensures StripFrom(Lower(s), i, alts) == Lower(StripFrom(s, i, alts))
    decreases |s| - i
  {
    if i < |s| {
      SuffixMatchLower(s, i, alts);
      StripFromStep(s, i, alts);
      StripFromStep(Lower(s), i, alts);
      var n := SuffixMatch(s, i, alts);
      if n > 0 {
        StripFromLower(s, i + n, alts);
      } else {
        StripFromLower(s, i + 1, alts);
        LowerConcat([s[i]], StripFrom(s, i + 1, alts));
      }
    }
  }

  /** Name normalization ignores letter case: `normalize_name` of a lower-cased name is the same. */
  lemma {:induction false} NormalizeNameIgnoresCase(name: string)
    ensures NormalizeName(Lower(name)) == NormalizeName(name)
  {
    StripFromLower(name, 0, LegalSuffixes);
    LowerIsLower(StripLegalSuffixes(name));
  }

  /** `name_similarity`: the ratio of the two normalized names. */
  function NameSimilarity(n1: string, n2: string, ratio: (string, string) -> Ratio): Ratio
  {
    ratio(NormalizeName(n1), NormalizeName(n2))
  }

  /** Name similarity ignores letter case on either side. */
  lemma {:induction false} NameSimilarityIgnoresCase(n1: string, n2: string, ratio: (string, string) -> Ratio)
    ensures NameSimilarity(Lower(n1), n2, ratio) == NameSimilarity(n1, n2, ratio)
    ensures NameSimilarity(n1, Lower(n2), ratio) == NameSimilarity(n1, n2, ratio)
  {
    NormalizeNameIgnoresCase(n1);
    NormalizeNameIgnoresCase(n2);
  }

  // ---------------------------------------------------------------------------
  // extract_linkedin_id

  /** The identifier after the profile prefix: the longest non-empty run of characters other than `/` and `?`. */
  function IdAt(url: string, r: nat): (id: Option<string>)
    requires r <= |url|
    ensures id.Some? ==> id.value != [] && '/' !in id.value && '?' !in id.value
  {
    var n := FindAny(url[r..], {'/', '?'});
    if n == 0 then None
    else
      assert forall k :: 0 <= k < n ==> url[r..][k] == url[r..r + n][k];
      Some(url[r..r + n])
  }

  /** The profile pattern `linkedin\.com/(in|company)/([^/?]+)`, case-insensitive, tried at position `p`. */
  function ProfileAt(url: string, p: nat): (id: Option<string>)
    requires p <= |url|
    ensures id.Some? ==> id.value != [] && '/' !in id.value && '?' !in id.value
  {
    var q := p + 13;
    if q > |url| || Lower(url[p..q]) != "linkedin.com/" then None
    else if q + 3 <= |url| && Lower(url[q..q + 3]) == "in/" then IdAt(url, q + 3)
    else if q + 8 <= |url| && Lower(url[q..q + 8]) == "company/" then IdAt(url, q + 8)
    else None
  }

  /** `re.search` over the positions `p` to `n`: the result of the first position whose test succeeds. */
  function FirstMatch(at: nat -> Option<string>, p: nat, n: nat): Option<string>
    decreases n - p
  {
    if at(p).Some? then at(p)
    else if p >= n then None
    else FirstMatch(at, p + 1, n)
  }

  /** The profile pattern as a test of positions; none matches past the end. */
  function ProfileTest(url: string): nat -> Option<string> {
    (q: nat) => if q <= |url| then ProfileAt(url, q) else None
  }

  /** `re.search`: the leftmost position from `p` on where the profile pattern matches. */
  function SearchProfile(url: string, p: nat): (id: Option<string>)
    requires p <= |url|
  {
    FirstMatch(ProfileTest(url), p, |url|)
  }

  /** The first match is the leftmost one, and there is none only when no position matches. */
  lemma {:induction false} FirstMatchLeftmost(at: nat -> Option<string>, p: nat, n: nat)
    requires p <= n
    ensures FirstMatch(at, p, n).None? <==> forall q :: p <= q <= n ==> at(q).None?
    ensures FirstMatch(at, p, n).Some? ==>
      exists q :: p <= q <= n && at(q) == FirstMatch(at, p, n) && forall q' :: p <= q' < q ==> at(q').None?
    decreases n - p
  {
    if at(p).None? && p < n {
      FirstMatchLeftmost(at, p + 1, n);
      if FirstMatch(at, p, n).Some? {
        var q :| p + 1 <= q <= n && at(q) == FirstMatch(at, p, n) && forall q' :: p + 1 <= q' < q ==> at(q').None?;
        assert forall q' :: p <= q' < q ==> at(q').None?;
      }
    }
  }

  /** `extract_linkedin_id`. */
  function ExtractLinkedInId(url: string): (id: Option<string>)
  {
    if url == "" || !Contains(Lower(url), "linkedin.com") then None
    else SearchProfile(url, 0)
  }

  /** The search finds the leftmost match, and finds nothing only when no position matches. */
  lemma {:induction false} SearchProfileLeftmost(url: string, p: nat)
    requires p <= |url|
    ensures SearchProfile(url, p).None? <==> forall q :: p <= q <= |url| ==> ProfileAt(url, q).None?
    ensures SearchProfile(url, p).Some? ==>
      exists q :: p <= q <= |url| && ProfileAt(url, q) == SearchProfile(url, p)
                  && forall q' :: p <= q' < q ==> ProfileAt(url, q').None?
  {
    var at := ProfileTest(url);
    FirstMatchLeftmost(at, p, |url|);
    assert forall q :: p <= q <= |url| ==> at(q) == ProfileAt(url, q);
  }

  /** Wherever the pattern matches, `linkedin.com` occurs in the lower-cased URL. */
  lemma {:induction false} ProfileAtContainsHost(url: string, p: nat)
    requires p <= |url| && ProfileAt(url, p).Some?
    ensures Contains(Lower(url), "linkedin.com")
  {
    LowerSlice(url, p, p + 13);
    var low := Lower(url);
    assert low[p..p + 13] == "linkedin.com/";
    assert low[p..][..12] == low[p..p + 13][..12];
    assert "linkedin.com/"[..12] == "linkedin.com";
    assert StartsWith(low[p..], "linkedin.com");
    ContainsAt(low, "linkedin.com");
  }

  /** The `linkedin.com` guard in front of the search never changes the outcome. */
  lemma {:induction false} ExtractLinkedInIdIsSearch(url: string)
    ensures ExtractLinkedInId(url) == SearchProfile(url, 0)
  {
    SearchProfileLeftmost(url, 0);
    if SearchProfile(url, 0).Some? {
      var q :| 0 <= q <= |url| && ProfileAt(url, q) == SearchProfile(url, 0);
      ProfileAtContainsHost(url, q);
    }
  }

  /** No profile match can start at a character that is not `l` or `L`. */
  lemma {:induction false} ProfileAtNeedsL(url: string, p: nat)
    requires p < |url| && LowerChar(url[p]) != 'l'
    ensures ProfileAt(url, p).None?
  {
    if p + 13 <= |url| {
      LowerSlice(url, p, p + 13);
      assert Lower(url)[p..p + 13][0] == LowerChar(url[p]);
    }
  }

  lemma {:induction false} IdAtOf(url: string, r: nat, id: string, rest: string)
    requires r <= |url| && url[r..] == id + rest
    requires id != [] && '/' !in id && '?' !in id
    requires rest == [] || rest[0] == '/' || rest[0] == '?'
    ensures IdAt(url, r) == Some(id)
  {
    FindAnyAppend(id, rest, {'/', '?'});
    assert FindAny(id, {'/', '?'}) == |id|;
    assert url[r..r + |id|] == id;
  }

  /** The text at `p` starts with `linkedin.com/` and then `kind`. */
  lemma {:induction false} HostAt(url: string, p: nat, kind: string)
    requires p <= |url| && StartsWith(url[p..], "linkedin.com/" + kind)
    ensures p + 13 + |kind| <= |url|
    ensures Lower(url[p..p + 13]) == "linkedin.com/"
    ensures url[p + 13..p + 13 + |kind|] == kind
  {
    assert url[p..p + 13] == url[p..][..13];
    LowerOfLower("linkedin.com/");
    assert url[p + 13..p + 13 + |kind|] == url[p..][13..13 + |kind|];
  }

  /** The profile pattern matching at `p` on `linkedin.com/` + `kind` + `id` + `rest`, where `rest` cannot extend the identifier. */
  lemma {:induction false} ProfileAtOf(url: string, p: nat, kind: string, id: string, rest: string)
    requires kind == "in/" || kind == "company/"
    requires id != [] && '/' !in id && '?' !in id
    requires rest == [] || rest[0] == '/' || rest[0] == '?'
    requires p <= |url| && url[p..] == "linkedin.com/" + kind + id + rest
    ensures ProfileAt(url, p) == Some(id)
  {
    var q := p + 13;
    var r := q + |kind|;
    assert StartsWith(url[p..], "linkedin.com/" + kind);
    HostAt(url, p, kind);
    assert url[r..] == url[p..][13 + |kind|..];
    IdAtOf(url, r, id, rest);
    if kind == "in/" {
      LowerOfLower("in/");
    } else {
      LowerOfLower("company/");
      assert url[q..r][0] == 'c' && url[q] == 'c';
      assert Lower(url[q..q + 3])[0] == 'c';
    }
  }

  /** A LinkedIn profile or company URL yields the identifier after `/in/` or `/company/`. */
  lemma {:induction false} ExtractLinkedInIdOf(pre: string, kind: string, id: string, rest: string)
    requires 'l' !in Lower(pre)
    requires kind == "in/" || kind == "company/"
    requires id != [] && '/' !in id && '?' !in id
    requires rest == [] || rest[0] == '/' || rest[0] == '?'
    ensures ExtractLinkedInId(pre + "linkedin.com/" + kind + id + rest) == Some(id)
  {
    var url := pre + "linkedin.com/" + kind + id + rest;
    var p := |pre|;
    assert url[p..] == "linkedin.com/" + kind + id + rest;
    ProfileAtOf(url, p, kind, id, rest);
    forall q | 0 <= q < p ensures ProfileAt(url, q).None? {
      assert url[q] == pre[q] && Lower(pre)[q] == LowerChar(pre[q]);
      ProfileAtNeedsL(url, q);
    }
    SearchProfileLeftmost(url, 0);
    ExtractLinkedInIdIsSearch(url);
  }

  // ---------------------------------------------------------------------------
  // match_confidence

  /** Both records name the same LinkedIn profile or company. */
  predicate SameLinkedIn(p1: RawProspect, p2: RawProspect) {
    var a := ExtractLinkedInId(p1.sourceUrl);
    var b := ExtractLinkedInId(p2.sourceUrl);
    Truthy(a) && Truthy(b) && a == b
  }

  /** Both records have a website, and the normalized domains agree and are non-empty. */
  predicate SameDomain(p1: RawProspect, p2: RawProspect) {
    var d1 := NormalizeDomain(p1.contact.website);
    var d2 := NormalizeDomain(p2.contact.website);
    Truthy(d1) && Truthy(d2) && d1 == d2
  }

  /** Both records have an e-mail address, equal up to letter case. */
  predicate SameEmail(p1: RawProspect, p2: RawProspect) {
    var e1 := p1.contact.email;
    var e2 := p2.contact.email;
    Truthy(e1) && Truthy(e2) && Lower(e1.value) == Lower(e2.value)
  }

  /** Both records have a location, equal after lower-casing and stripping. */
  predicate SameLocation(p1: RawProspect, p2: RawProspect) {
    var l1 := Strip(Lower(p1.location));
    var l2 := Strip(Lower(p2.location));
    l1 != "" && l2 != "" && l1 == l2
  }

  /** The conditions under which the matcher answers `high`, in any order. */
  predicate HighMatch(p1: RawProspect, p2: RawProspect, ratio: (string, string) -> Ratio) {
    || SameLinkedIn(p1, p2)
    || SameDomain(p1, p2)
    || (SameEmail(p1, p2) && NameSimilarity(p1.name, p2.name, ratio) >= MediumNameSimilarity)
  }

  /**
   * `match_confidence`: the first rule that applies decides the level and the
   * confidence; `ratio` stands for `SequenceMatcher(None, a, b).ratio()`.
   */
  function MatchConfidence(p1: RawProspect, p2: RawProspect, ratio: (string, string) -> Ratio): (r: (Level, real))
    ensures r.0 == High <==> HighMatch(p1, p2, ratio)
    ensures r.0 == Medium <==> !HighMatch(p1, p2, ratio) && NameSimilarity(p1.name, p2.name, ratio) >= HighNameSimilarity
    ensures r.0 == Low <==> !HighMatch(p1, p2, ratio) && NameSimilarity(p1.name, p2.name, ratio) < HighNameSimilarity
    ensures 0.0 <= r.1 <= 1.0
  {
    var nameSim := NameSimilarity(p1.name, p2.name, ratio);
    if SameLinkedIn(p1, p2) then (High, 1.0)
    else if SameDomain(p1, p2) then (High, 0.95)
    else if SameEmail(p1, p2) && nameSim >= MediumNameSimilarity then (High, 0.90)
    else if nameSim >= HighNameSimilarity && SameLocation(p1, p2) then (Medium, 0.80)
    else if nameSim >= HighNameSimilarity then (Medium, 0.75)
    else (Low, nameSim)
  }

  /**
   * The confidence attached to each level: a high match scores 1.0 for the
   * LinkedIn rule, 0.95 for the domain rule and 0.90 for the e-mail rule, a
   * medium match 0.80 or 0.75, and a low match is the name similarity itself,
   * below 0.90.
   */
  lemma {:induction false} MatchConfidenceScores(p1: RawProspect, p2: RawProspect, ratio: (string, string) -> Ratio)
    ensures var r := MatchConfidence(p1, p2, ratio);
      && (r.0 == High ==> r.1 == 1.0 || r.1 == 0.95 || r.1 == 0.90)
      && (r == (High, 0.95) <==> !SameLinkedIn(p1, p2) && SameDomain(p1, p2))
      && (r == (High, 0.90) <==> !SameLinkedIn(p1, p2) && !SameDomain(p1, p2) && SameEmail(p1, p2)
                                 && NameSimilarity(p1.name, p2.name, ratio) >= MediumNameSimilarity)
      && (r.0 == Medium ==> (r.1 == 0.80 <==> SameLocation(p1, p2)) && (r.1 == 0.75 <==> !SameLocation(p1, p2)))
      && (r.0 == Low ==> r.1 == NameSimilarity(p1.name, p2.name, ratio) < HighNameSimilarity)
      && (r.1 == 1.0 <==> SameLinkedIn(p1, p2))
  {
  }

  /** A shared LinkedIn identity decides the match whatever the names, websites or locations say. */
  lemma {:induction false} LinkedInDecides(p1: RawProspect, p2: RawProspect, ratio: (string, string) -> Ratio)
    requires SameLinkedIn(p1, p2)
    ensures MatchConfidence(p1, p2, ratio) == (High, 1.0)
  {
  }

  /**
   * Two websites written with an upper-case scheme (`HTTP://...`) have the
   * same domain `http:` whatever their hosts, so unless the LinkedIn rule
   * fires, the records match at `high` with 0.95.
   */
  lemma {:induction false} UpperSchemeWebsitesMatch(p1: RawProspect, p2: RawProspect, rest1: string, rest2: string,
                                                    ratio: (string, string) -> Ratio)
    requires p1.contact.website == Some("HTTP://" + rest1)
    requires p2.contact.website == Some("HTTP://" + rest2)
    requires !SameLinkedIn(p1, p2)
    ensures MatchConfidence(p1, p2, ratio) == (High, 0.95)
  {
    UpperHttpDomain(rest1);
    UpperHttpDomain(rest2);
    assert SameDomain(p1, p2);
  }

  lemma {:induction false} UpperHttpDomain(rest: string)
    ensures NormalizeDomain(Some("HTTP://" + rest)) == Some("http:")
  {
    HttpUpperSpelling(rest);
    NormalizeDomainUpperScheme("HTTP", rest);
  }

  lemma {:induction false} HttpUpperSpelling(rest: string)
    ensures "HTTP" + "://" + rest == "HTTP://" + rest
    ensures Lower("HTTP") == "http" && Lower("HTTP") + ":" == "http:"
  {
    assert "HTTP" + "://" == "HTTP://";
  }

  /** With a symmetric similarity function, the matcher does not depend on the order of its arguments. */
  lemma {:induction false} MatchConfidenceSymmetric(p1: RawProspect, p2: RawProspect, ratio: (string, string) -> Ratio)
    requires forall a, b :: ratio(a, b) == ratio(b, a)
    ensures MatchConfidence(p1, p2, ratio) == MatchConfidence(p2, p1, ratio)
  {
    assert NameSimilarity(p1.name, p2.name, ratio) == NameSimilarity(p2.name, p1.name, ratio);
  }
}
