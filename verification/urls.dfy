/**
 * The parts of Python's `urllib.parse` that the core calls: `urlparse`,
 * `urlunparse`, `parse_qsl(..., keep_blank_values=True)` and `urlencode`.
 * Components are split exactly where the library splits them; percent-coding
 * and the library's input clean-up are not part of this model.
 */
module Urls {
  import opened Text

  /** The six components `urlparse` returns. */
  datatype ParseResult = ParseResult(
    scheme: string, netloc: string, path: string, params: string, query: string, fragment: string)

  /** Position of the first `c` in `s`, or `|s|` when there is none. */
  function FindFirst(s: string, c: char): (i: nat)
    ensures i <= |s| && c !in s[..i]
    ensures i < |s| ==> s[i] == c
    ensures i == |s| <==> c !in s
  {
    if |s| == 0 then 0 else if s[0] == c then 0 else 1 + FindFirst(s[1..], c)
  }

  /** Position of the first character of `s` that is in `cs`, or `|s|`. */
  function FindAny(s: string, cs: set<char>): (i: nat)
    ensures i <= |s|
    ensures forall k :: 0 <= k < i ==> s[k] !in cs
    ensures i < |s| ==> s[i] in cs
  {
    if |s| == 0 then 0 else if s[0] in cs then 0 else 1 + FindAny(s[1..], cs)
  }

  /** Position of the last `c` in `s`, or -1. */
  function FindLast(s: string, c: char): (i: int)
    ensures -1 <= i < |s|
    ensures i >= 0 ==> s[i] == c
    ensures forall k :: i < k < |s| ==> s[k] != c
  {
    if |s| == 0 then -1
    else if s[|s| - 1] == c then |s| - 1
    else FindLast(s[..|s| - 1], c)
  }

  predicate IsAsciiAlpha(c: char) { 'a' <= c <= 'z' || 'A' <= c <= 'Z' }

  predicate IsSchemeChar(c: char) { IsAsciiAlpha(c) || '0' <= c <= '9' || c == '+' || c == '-' || c == '.' }

  const UsesNetloc: set<string> := {"", "ftp", "http", "gopher", "nntp", "telnet", "imap", "wais",
    "file", "mms", "https", "shttp", "snews", "prospero", "rtsp", "rtsps", "rtspu", "rsync",
    "svn", "svn+ssh", "sftp", "nfs", "git", "git+ssh", "ws", "wss", "itms-services"}

  const UsesParams: set<string> := {"", "ftp", "hdl", "prospero", "http", "imap", "https", "shttp",
    "rtsp", "rtsps", "rtspu", "sip", "sips", "mms", "sftp", "tel"}

  /** The text before the first `:` is a scheme: non-empty, starting with a letter, scheme characters only. */
  predicate HasScheme(url: string) {
    var i := FindFirst(url, ':');
    0 < i < |url| && IsAsciiAlpha(url[0]) && forall k :: 0 <= k < i ==> IsSchemeChar(url[k])
  }

  /** The scheme (lower-cased) and what follows its `:`, or no scheme and the whole text. */
  function SplitScheme(url: string): (r: (string, string))
    ensures IsLower(r.0)
  {
    var i := FindFirst(url, ':');
    LowerIsLower(url[..i]);
    if HasScheme(url) then (Lower(url[..i]), url[i + 1..]) else ("", url)
  }

  /** `_splitnetloc`: after a leading `//`, the authority runs to the first `/`, `?` or `#`. */
  function SplitNetloc(rest: string): (r: (string, string))
  {
    if StartsWith(rest, "//") then
      var n := FindAny(rest[2..], {'/', '?', '#'});
      (rest[2..2 + n], rest[2 + n..])
    else ("", rest)
  }

  /** `urlsplit(url)`, with `params` left empty. */
  function UrlSplit(url: string): (r: ParseResult)
    ensures r.params == ""
    ensures IsLower(r.scheme)
  {
    var (scheme, afterScheme) := SplitScheme(url);
    var (netloc, rest) := SplitNetloc(afterScheme);
    var h := FindFirst(rest, '#');
    var fragment := if h < |rest| then rest[h + 1..] else "";
    var beforeFragment := rest[..h];
    var q := FindFirst(beforeFragment, '?');
    var query := if q < |beforeFragment| then beforeFragment[q + 1..] else "";
    ParseResult(scheme, netloc, beforeFragment[..q], "", query, fragment)
  }

  /** `_splitparams`: the parameters follow the first `;` of the last path segment. */
  function SplitParams(path: string): (string, string)
  {
    var r := FindLast(path, '/');
    if r >= 0 then
      var tail := path[r..];
      var i := FindFirst(tail, ';');
      if i == |tail| then (path, "") else (path[..r + i], path[r + i + 1..])
    else
      var i := FindFirst(path, ';');
      (path[..i], if i < |path| then path[i + 1..] else "")
  }

  /** `urlparse(url)`. */
  function UrlParse(url: string): (r: ParseResult)
    ensures IsLower(r.scheme)
  {
    var s := UrlSplit(url);
    if s.scheme in UsesParams && ';' in s.path then
      var (path, params) := SplitParams(s.path);
      s.(path := path, params := params)
    else s
  }

  /** `urlunsplit((scheme, netloc, url, query, fragment))`. */
  function UrlUnsplit(scheme: string, netloc: string, url: string, query: string, fragment: string): string
  {
    var located :=
      if netloc != "" then "//" + netloc + (if url != "" && url[0] != '/' then "/" + url else url)
      else if StartsWith(url, "//") then "//" + url
      else if scheme != "" && scheme in UsesNetloc && (url == "" || url[0] == '/') then "//" + url
      else url;
    var withScheme := if scheme != "" then scheme + ":" + located else located;
    var withQuery := if query != "" then withScheme + "?" + query else withScheme;
    if fragment != "" then withQuery + "#" + fragment else withQuery
  }

  /** `urlunparse(parts)`. */
  function UrlUnparse(parts: ParseResult): string
  {
    var url := if parts.params != "" then parts.path + ";" + parts.params else parts.path;
    UrlUnsplit(parts.scheme, parts.netloc, url, parts.query, parts.fragment)
  }

  /** `name_value.partition('=')` without the separator. */
  function PartitionEq(field: string): (string, string)
  {
    var i := FindFirst(field, '=');
    (field[..i], if i < |field| then field[i + 1..] else "")
  }

  /** `parse_qsl(qs, keep_blank_values=True)`: every non-empty `&`-separated field becomes a pair. */
  function ParseQsl(qs: string): seq<(string, string)>
  {
    FieldPairs(SplitOn(qs, '&'))
  }

  function FieldPairs(fields: seq<string>): seq<(string, string)>
  {
    if fields == [] then []
    else if fields[0] == "" then FieldPairs(fields[1..])
    else [PartitionEq(fields[0])] + FieldPairs(fields[1..])
  }

  /** `urlencode(pairs)`. */
  function Urlencode(pairs: seq<(string, string)>): string
  {
    Join(seq(|pairs|, k requires 0 <= k < |pairs| => pairs[k].0 + "=" + pairs[k].1), "&")
  }

  lemma {:induction false} FindFirstAppend(a: string, b: string, c: char)
    requires c !in a
    ensures FindFirst(a + b, c) == |a| + FindFirst(b, c)
  {
    if a != [] {
      assert (a + b)[1..] == a[1..] + b;
      FindFirstAppend(a[1..], b, c);
    } else {
      assert a + b == b;
    }
  }

  lemma {:induction false} FindAnyAppend(a: string, b: string, cs: set<char>)
    requires forall k :: 0 <= k < |a| ==> a[k] !in cs
    ensures FindAny(a + b, cs) == |a| + FindAny(b, cs)
  {
    if a != [] {
      assert (a + b)[1..] == a[1..] + b;
      FindAnyAppend(a[1..], b, cs);
    } else {
      assert a + b == b;
    }
  }

  lemma {:induction false} SplitSchemeOf(scheme: string, tail: string)
    requires scheme != [] && IsAsciiAlpha(scheme[0])
    requires forall k :: 0 <= k < |scheme| ==> IsSchemeChar(scheme[k])
    requires tail != [] && tail[0] == ':'
    ensures SplitScheme(scheme + tail) == (Lower(scheme), tail[1..])
  {
    var url := scheme + tail;
    assert ':' !in scheme by {
      forall k | 0 <= k < |scheme| ensures scheme[k] != ':' { assert IsSchemeChar(scheme[k]); }
    }
    FindFirstAppend(scheme, tail, ':');
    assert url[..|scheme|] == scheme;
    assert HasScheme(url);
    assert url[|scheme| + 1..] == tail[1..];
  }

  lemma {:induction false} SplitNetlocOf(host: string, rest: string)
    requires forall k :: 0 <= k < |host| ==> host[k] !in {'/', '?', '#'}
    requires rest == [] || rest[0] in {'/', '?', '#'}
    ensures SplitNetloc("//" + host + rest) == (host, rest)
  {
    var after := "//" + host + rest;
    assert after[2..] == host + rest;
    FindAnyAppend(host, rest, {'/', '?', '#'});
    assert FindAny(rest, {'/', '?', '#'}) == 0;
    assert after[2..2 + |host|] == host;
    assert after[2 + |host|..] == rest;
  }

  /** A URL written `scheme://host` followed by a path, query or fragment splits into that scheme (lower-cased) and that host. */
  lemma {:induction false} UrlSplitAuthority(scheme: string, host: string, rest: string)
    requires scheme != [] && IsAsciiAlpha(scheme[0])
    requires forall k :: 0 <= k < |scheme| ==> IsSchemeChar(scheme[k])
    requires forall k :: 0 <= k < |host| ==> host[k] !in {'/', '?', '#'}
    requires rest == [] || rest[0] in {'/', '?', '#'}
    ensures UrlSplit(scheme + "://" + host + rest).scheme == Lower(scheme)
    ensures UrlSplit(scheme + "://" + host + rest).netloc == host
  {
    var tail := "://" + host + rest;
    assert scheme + "://" + host + rest == scheme + tail;
    SplitSchemeOf(scheme, tail);
    assert tail[1..] == "//" + host + rest;
    SplitNetlocOf(host, rest);
  }
}
