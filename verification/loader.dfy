/**
 * `parse_location` and `normalize_website` (internal/domain/pipeline/loader.py):
 * the structured location and the canonical website stored with a prospect.
 */
module Loader {
  import opened Wrappers
  import opened Text
  import opened Urls

  /** The dict `parse_location` returns; a missing key is `None`. */
  datatype LocationFields = LocationFields(fullAddress: Option<string>, city: Option<string>, country: Option<string>)

  /** Lines 51-58 on the comma-separated parts: of the stripped parts only the first and the last are read. */
  function FromParts(s: string, parts: seq<string>): (r: LocationFields)
    requires |parts| >= 1
    ensures r.fullAddress == Some(s) && r.city == Some(Strip(parts[0]))
    ensures r.country.Some? <==> |parts| >= 2
    ensures r.country.Some? ==> r.country.value == Strip(parts[|parts| - 1])
  {
    LocationFields(Some(s), Some(Strip(parts[0])), if |parts| >= 2 then Some(Strip(parts[|parts| - 1])) else None)
  }

  /**
   * `parse_location(location_str)` (lines 36-60): `{}` for empty input;
   * otherwise the input itself as full address, the first comma-separated
   * part as city and, when there is a comma, the last part as country,
   * both stripped of surrounding whitespace.
   */
  function ParseLocation(s: string): (r: LocationFields)
    ensures s == "" ==> r == LocationFields(None, None, None)
    ensures s != "" ==> r.fullAddress == Some(s) && r.city.Some?
  {
    if s == "" then LocationFields(None, None, None)
    else FromParts(s, SplitOn(s, ','))
  }

  /** A non-empty location has a country exactly when it holds a comma. */
  lemma {:induction false} ParseLocationHasCountry(s: string)
    requires s != ""
    ensures ParseLocation(s).country.Some? <==> ',' in s
  {
    var parts := SplitOn(s, ',');
    assert ParseLocation(s) == FromParts(s, parts);
    SplitOnSingle(s, ',');
  }

  /** The first part of a split is the text before the first separator. */
  lemma {:induction false} SplitOnFirst(s: string, sep: char)
    ensures SplitOn(s, sep)[0] == s[..FindFirst(s, sep)]
  {
    if |s| > 0 && s[0] != sep {
      SplitOnFirst(s[1..], sep);
      assert s[..FindFirst(s, sep)] == [s[0]] + s[1..][..FindFirst(s[1..], sep)];
    }
  }

  /** `last` is a suffix of `s` without `sep` that reaches the start of `s` or a `sep`. */
  predicate LastPart(s: string, sep: char, last: string) {
    EndsWith(s, last) && sep !in last && (|last| == |s| || s[|s| - |last| - 1] == sep)
  }

  /** A last part of the tail of `s` is one of `s` unless it is the whole tail and `s` starts with another character. */
  lemma {:induction false} LastPartExtends(s: string, sep: char, last: string)
    requires |s| > 0 && LastPart(s[1..], sep, last)
    requires |last| == |s| - 1 ==> s[0] == sep
    ensures LastPart(s, sep, last)
  {
    assert s[1..][|s| - 1 - |last|..] == s[|s| - |last|..];
    if |last| < |s| - 1 {
      assert s[|s| - |last| - 1] == s[1..][|s| - 1 - |last| - 1];
    }
  }

  lemma {:induction false} WholeSuffix(t: string, last: string)
    requires EndsWith(t, last) && |last| == |t|
    ensures last == t
  {
    assert t[0..] == t;
  }

  /** The last part of a split is the longest suffix without the separator. */
  lemma {:induction false} SplitOnLast(s: string, sep: char)
    ensures var parts := SplitOn(s, sep); LastPart(s, sep, parts[|parts| - 1])
  {
    if |s| > 0 {
      var rest := SplitOn(s[1..], sep);
      SplitOnLast(s[1..], sep);
      SplitOnSingle(s[1..], sep);
      var last := rest[|rest| - 1];
      if s[0] != sep && |rest| == 1 {
        assert SplitOn(s, sep) == [[s[0]] + s[1..]];
        assert [s[0]] + s[1..] == s;
      } else {
        assert SplitOn(s, sep)[|SplitOn(s, sep)| - 1] == last;
        if |last| == |s| - 1 {
          WholeSuffix(s[1..], last);
        }
        LastPartExtends(s, sep, last);
      }
    }
  }

  /** The city is the stripped text before the first comma (all of it without a comma). */
  lemma {:induction false} ParseLocationCity(s: string)
    requires s != ""
    ensures ParseLocation(s).city == Some(Strip(s[..FindFirst(s, ',')]))
  {
    SplitOnFirst(s, ',');
  }

  /** With two parts or more, the country is the stripped last part of the split. */
  lemma {:induction false} ParseLocationLast(s: string)
    requires s != "" && |SplitOn(s, ',')| >= 2
    ensures var parts := SplitOn(s, ',');
      ParseLocation(s).country == Some(Strip(parts[|parts| - 1]))
  {
    var parts := SplitOn(s, ',');
    assert ParseLocation(s) == FromParts(s, parts);
    var r := FromParts(s, parts);
    assert r.country.Some? && r.country.value == Strip(parts[|parts| - 1]);
  }

  /** When `s` holds `sep`, its last part is the text after the last `sep`. */
  lemma {:induction false} LastPartAfterLast(s: string, sep: char, last: string)
    requires sep in s && LastPart(s, sep, last)
    ensures 0 <= FindLast(s, sep) && s[FindLast(s, sep) + 1..] == last
  {
    assert s[|s| - |last|..] == last != s;
    var k := |s| - |last| - 1;
    assert s[k] == sep;
    assert forall j :: k < j < |s| ==> s[j] == last[j - k - 1] != sep;
    assert FindLast(s, sep) == k;
  }

  /** With a comma there are two parts or more, and the last is the text after the last comma. */
  lemma {:induction false} SplitOnLastComma(s: string)
    requires ',' in s
    ensures var parts := SplitOn(s, ',');
      |parts| >= 2 && 0 <= FindLast(s, ',') && parts[|parts| - 1] == s[FindLast(s, ',') + 1..]
  {
    var parts := SplitOn(s, ',');
    SplitOnSingle(s, ',');
    SplitOnLast(s, ',');
    LastPartAfterLast(s, ',', parts[|parts| - 1]);
  }

  /** The country is the stripped text after the last comma. */
  lemma {:induction false} ParseLocationCountry(s: string)
    requires ',' in s
    ensures 0 <= FindLast(s, ',')
    ensures ParseLocation(s).country == Some(Strip(s[FindLast(s, ',') + 1..]))
  {
    SplitOnLastComma(s);
    ParseLocationLast(s);
  }

  /** Lines 75-76: `https://` goes in front unless the input starts with `http://` or `https://`. */
  function WithScheme(website: string): (r: string)
    ensures StartsWith(r, "http://") || StartsWith(r, "https://")
    ensures EndsWith(r, website)
  {
    if StartsWith(website, "http://") || StartsWith(website, "https://") then website
    else
      PrefixStartsWith("https://", website);
      assert ("https://" + website)[8..] == website;
      "https://" + website
  }

  /**
   * `normalize_website(website)` (lines 62-81): "" for empty input,
   * otherwise the input with a scheme and without trailing slashes.
   */
  function NormalizeWebsite(website: string): (r: string)
    ensures website == "" ==> r == ""
    ensures r == [] || r[|r| - 1] != '/'
  {
    if website == "" then "" else RStripChar(WithScheme(website), '/')
  }

  /** Stripping a character keeps a prefix that does not end with it. */
  lemma {:induction false} StripKeepsPrefix(s: string, c: char, prefix: string)
    requires StartsWith(s, prefix) && prefix != [] && prefix[|prefix| - 1] != c
    ensures StartsWith(RStripChar(s, c), prefix)
  {
    assert s[|prefix| - 1] == prefix[|prefix| - 1];
  }

  /** A string starting with `prefix` starts with every prefix of it. */
  lemma {:induction false} StartsWithShorter(s: string, prefix: string, n: nat)
    requires StartsWith(s, prefix) && n <= |prefix|
    ensures StartsWith(s, prefix[..n])
  {
    assert s[..n] == prefix[..n];
  }

  /**
   * For non-empty input the result is the schemed input minus a run of
   * trailing slashes, and it still begins with the scheme's name.
   */
  lemma {:induction false} NormalizeWebsiteShape(website: string)
    requires website != ""
    ensures var full := WithScheme(website); var r := NormalizeWebsite(website);
      && r == full[..|r|]
      && (forall i :: |r| <= i < |full| ==> full[i] == '/')
      && (StartsWith(r, "http:") || StartsWith(r, "https:"))
  {
    var full := WithScheme(website);
    if StartsWith(full, "https://") {
      StartsWithShorter(full, "https://", 6);
      assert "https://"[..6] == "https:";
      StripKeepsPrefix(full, '/', "https:");
    } else {
      StartsWithShorter(full, "http://", 5);
      assert "http://"[..5] == "http:";
      StripKeepsPrefix(full, '/', "http:");
    }
  }
}
